/** The beat: one discovery tick of the file watcher, and the download of
    one file, each as a sequential step. */
module Beat {
  import opened Wrappers
  import opened Io
  import opened JsonLib
  import opened Records
  import opened Glob
  import opened Config
  import Codec
  import Explain
  import Logging
  import Storage

  /** The "already pending" filter. */
  function NotPending(pending: set<string>): Explain.Filter
  {
    p => (p !in pending, None)
  }

  /** The match filter. */
  function Matching(glob: GlobEngine, pattern: string): Explain.Filter
  {
    p => (glob.matches(pattern, p), None)
  }

  /** The exclude filter; an empty pattern excludes nothing. */
  function NotExcluded(glob: GlobEngine, pattern: string): Explain.Filter
  {
    p => (!(pattern != "" && glob.matches(pattern, p)), None)
  }

  /** The paths one tick enqueues from a listing: the three filters in
      turn, each keeping listing order. */
  function Selected(listing: seq<string>, pending: set<string>, cfg: Config, glob: GlobEngine): seq<string>
  {
    var notPending := Explain.Keep(listing, Explain.Accepts(NotPending(pending)));
    var matching := Explain.Keep(notPending, Explain.Accepts(Matching(glob, cfg.fileMatches)));
    Explain.Keep(matching, Explain.Accepts(NotExcluded(glob, cfg.fileExclude)))
  }

  /** The three filters of one tick, applied to a listing in turn. */
  method FilterNew(files: seq<string>, pending: set<string>, cfg: Config, glob: GlobEngine) returns (selected: seq<string>)
    ensures selected == Selected(files, pending, cfg, glob)
  {
    var f1 := NotPending(pending);
    assert Explain.ErrorFree(files, f1);
    Explain.PassedWithoutErrors(files, f1);
    var notPending, _ := Explain.FilterAndExplain("already pending", files, f1);

    var f2 := Matching(glob, cfg.fileMatches);
    assert Explain.ErrorFree(notPending, f2);
    Explain.PassedWithoutErrors(notPending, f2);
    var matching, _ := Explain.FilterAndExplain("matches " + Codec.Quote(cfg.fileMatches), notPending, f2);

    var f3 := NotExcluded(glob, cfg.fileExclude);
    assert Explain.ErrorFree(matching, f3);
    Explain.PassedWithoutErrors(matching, f3);
    var excluded, _ := Explain.FilterAndExplain("does not match " + Codec.Quote(cfg.fileExclude), matching, f3);
    selected := excluded;
  }

  /** A path is enqueued exactly when it is listed, not pending, matched,
      and not excluded; the enqueued paths keep listing order, and a
      listing without duplicates gives none. */
  lemma SelectedPaths(listing: seq<string>, pending: set<string>, cfg: Config, glob: GlobEngine)
    ensures forall p :: p in Selected(listing, pending, cfg, glob) <==>
      p in listing && p !in pending && glob.matches(cfg.fileMatches, p) &&
      !(cfg.fileExclude != "" && glob.matches(cfg.fileExclude, p))
    ensures IsSubsequence(Selected(listing, pending, cfg, glob), listing)
    ensures NoDuplicates(listing) ==> NoDuplicates(Selected(listing, pending, cfg, glob))
  {
    SelectedMembers(listing, pending, cfg, glob);
    SelectedOrder(listing, pending, cfg, glob);
  }

  lemma SelectedMembers(listing: seq<string>, pending: set<string>, cfg: Config, glob: GlobEngine)
    ensures forall p :: p in Selected(listing, pending, cfg, glob) <==>
      p in listing && p !in pending && glob.matches(cfg.fileMatches, p) &&
      !(cfg.fileExclude != "" && glob.matches(cfg.fileExclude, p))
  {
  }

  lemma SelectedOrder(listing: seq<string>, pending: set<string>, cfg: Config, glob: GlobEngine)
    ensures IsSubsequence(Selected(listing, pending, cfg, glob), listing)
    ensures NoDuplicates(listing) ==> NoDuplicates(Selected(listing, pending, cfg, glob))
  {
    var a := Explain.Keep(listing, Explain.Accepts(NotPending(pending)));
    var b := Explain.Keep(a, Explain.Accepts(Matching(glob, cfg.fileMatches)));
    var c := Explain.Keep(b, Explain.Accepts(NotExcluded(glob, cfg.fileExclude)));
    Explain.KeepIsSubsequence(listing, Explain.Accepts(NotPending(pending)));
    Explain.KeepIsSubsequence(a, Explain.Accepts(Matching(glob, cfg.fileMatches)));
    Explain.KeepIsSubsequence(b, Explain.Accepts(NotExcluded(glob, cfg.fileExclude)));
    SubsequenceTrans(c, b, a);
    SubsequenceTrans(c, a, listing);
    if NoDuplicates(listing) {
      SubsequenceNoDuplicates(c, listing);
    }
  }

  lemma {:induction false} SubsequenceTrans(a: seq<string>, b: seq<string>, c: seq<string>)
    requires IsSubsequence(a, b) && IsSubsequence(b, c)
    ensures IsSubsequence(a, c)
    decreases |c|
  {
    if a != [] && c != [] {
      if b[0] == c[0] {
        if a[0] == b[0] {
          SubsequenceTrans(a[1..], b[1..], c[1..]);
        } else {
          SubsequenceTrans(a, b[1..], c[1..]);
        }
      } else {
        SubsequenceTrans(a, b, c[1..]);
        if a[0] == c[0] {
          SubsequenceTail(a, c[1..]);
        }
      }
    }
  }

  /** With an empty exclude pattern the exclude filter keeps everything. */
  lemma EmptyExcludeKeepsAll(listing: seq<string>, pending: set<string>, cfg: Config, glob: GlobEngine)
    requires cfg.fileExclude == ""
    ensures Selected(listing, pending, cfg, glob) ==
      Explain.Keep(Explain.Keep(listing, Explain.Accepts(NotPending(pending))), Explain.Accepts(Matching(glob, cfg.fileMatches)))
  {
    var b := Explain.Keep(Explain.Keep(listing, Explain.Accepts(NotPending(pending))), Explain.Accepts(Matching(glob, cfg.fileMatches)));
    Explain.KeepAll(b, Explain.Accepts(NotExcluded(glob, cfg.fileExclude)));
  }

  /** What `closeOutFile` does to the storage: remove the file when the
      configuration says delete, mark it processed otherwise. */
  function CloseOut(s: Logging.InnerState, cfg: Config, path: string): (Logging.InnerState, MaybeError)
  {
    if cfg.delete then Logging.Removed(s, path) else Logging.Marked(s, path)
  }

  /** The reader the codec gets: the file, gunzipped when unpacking is on
      and the name ends in `.gz`. */
  function Source(input: Reader, cfg: Config, gunzip: Reader -> Result<Reader, Error>, path: string): Result<Reader, Error>
  {
    if cfg.unpackGzip && HasSuffix(path, ".gz") then gunzip(input) else Success(input)
  }

  /** The stream the codec reads, or why there is none. */
  function Input(s: Logging.InnerState, cfg: Config, gunzip: Reader -> Result<Reader, Error>, path: string): Result<Reader, Error>
  {
    match Logging.Opened(s, path)
    case Failure(e) => Failure(e)
    case Success(input) => Source(input, cfg, gunzip, path)
  }

  /** What `downloadFile` publishes, and whether it then closes the file
      out: nothing and no close-out when the file cannot be read, not
      gunzipped, or the codec is unknown; otherwise the codec's records,
      and a close-out only when the codec ends without error. */
  ghost function Outcome(s: Logging.InnerState, cfg: Config, lib: JsonLibrary,
                         gunzip: Reader -> Result<Reader, Error>, path: string): (seq<Record>, bool)
  {
    match Input(s, cfg, gunzip, path)
    case Failure(_) => ([], false)
    case Success(r) =>
      match Codec.Select(cfg.codec)
      case Failure(_) => ([], false)
      case Success(kind) =>
        var d := Codec.DrainOf(kind, path, lib, r);
        (d.records, d.err.None?)
  }

  /** A file is closed out only after a clean read, a known codec and a
      codec that ends without error, and then every record it produced
      has been published, carrying the path and lines 1, 2, ... */
  lemma OutcomeFinalisesOnlyClean(s: Logging.InnerState, cfg: Config, lib: JsonLibrary,
                                  gunzip: Reader -> Result<Reader, Error>, path: string)
    ensures Outcome(s, cfg, lib, gunzip, path).1 ==>
      Input(s, cfg, gunzip, path).Success? && Codec.Select(cfg.codec).Success? &&
      Codec.DrainOf(Codec.Select(cfg.codec).value, path, lib, Input(s, cfg, gunzip, path).value).err.None?
    ensures Input(s, cfg, gunzip, path).Failure? || Codec.Select(cfg.codec).Failure? ==>
      Outcome(s, cfg, lib, gunzip, path) == ([], false)
    ensures var records := Outcome(s, cfg, lib, gunzip, path).0;
      forall i :: 0 <= i < |records| ==>
        !records[i].Empty? && records[i].line == i + 1 &&
        (records[i].TextEvent? ==> records[i].file == path) &&
        (records[i].JsonEvent? ==> records[i].path == path)
  {
    if Input(s, cfg, gunzip, path).Success? && Codec.Select(cfg.codec).Success? {
      Codec.DrainLines(Codec.Select(cfg.codec).value, path, lib, Input(s, cfg, gunzip, path).value);
    }
  }

  /** The `for codec.Next()` loop: every record the cursor still yields,
      in order, and then its error. */
  method Collect(cursor: Codec.Cursor) returns (events: seq<Record>, err: MaybeError)
    requires cursor.Valid()
    modifies cursor.Repr()
    ensures cursor.Valid()
    ensures events == old(cursor.Future()) && err == old(cursor.Final())
  {
    ghost var all := cursor.Future();
    ghost var final := cursor.Final();
    events := [];
    while true
      invariant cursor.Valid() && cursor.Final() == final
      invariant |events| <= |all| && cursor.Future() == all[|events|..]
      invariant forall i :: 0 <= i < |events| ==> events[i] == all[i]
      decreases |all| - |events|
    {
      var more := cursor.Next();
      if !more {
        err := cursor.Err();
        break;
      }
      events := events + [cursor.Value()];
    }
    assert events == all;
  }

  /** `Gcpstoragebeat`, less its channels and tickers: the queue is the
      sequence of paths sent to the downloader, `published` the event
      fields handed to the publisher. */
  class Beat {
    const config: Config
    const bucket: Logging.LoggingStorageProvider
    const glob: GlobEngine
    const lib: JsonLibrary
    /** `gzip.NewReader` and the decompression it does. */
    const gunzip: Reader -> Result<Reader, Error>
    /** The storage stack's objects. */
    ghost const storage: set<object>
    /** `pendingFiles`: only ever added to. */
    var pending: set<string>
    var queue: seq<string>
    var published: seq<Record>

    /** Every path is queued at most once, and the pending set is exactly
        the queued paths. */
    ghost predicate Valid()
      reads this, bucket.Repr()
    {
      storage == bucket.Repr() && this !in storage && bucket.Valid() &&
      NoDuplicates(queue) && (forall p :: p in queue <==> p in pending)
    }

    constructor (config: Config, bucket: Logging.LoggingStorageProvider, glob: GlobEngine, lib: JsonLibrary,
                 gunzip: Reader -> Result<Reader, Error>)
      requires bucket.Valid()
      ensures Valid()
      ensures this.config == config && this.bucket == bucket && this.glob == glob && this.lib == lib && this.gunzip == gunzip
      ensures pending == {} && queue == [] && published == []
      ensures bucket.State() == old(bucket.State())
    {
      this.config := config;
      this.bucket := bucket;
      this.glob := glob;
      this.lib := lib;
      this.gunzip := gunzip;
      storage := bucket.Repr();
      pending := {};
      queue := [];
      published := [];
    }

    /** Queue each path and add it to the pending set. */
    method Enqueue(selected: seq<string>)
      requires Valid()
      requires NoDuplicates(selected) && forall p :: p in selected ==> p !in pending
      modifies this
      ensures Valid()
      ensures published == old(published)
      ensures queue == old(queue) + selected
      ensures forall p :: p in pending <==> p in old(pending) || p in selected
      ensures bucket.State() == old(bucket.State())
    {
      var i := 0;
      while i < |selected|
        invariant 0 <= i <= |selected|
        invariant queue == old(queue) + selected[..i]
        invariant forall p :: p in pending <==> p in old(pending) || p in selected[..i]
        invariant NoDuplicates(queue) && (forall p :: p in queue <==> p in pending)
        invariant published == old(published)
      {
        var path := selected[i];
        assert path !in pending by {
          assert path !in old(pending);
          forall j | 0 <= j < i ensures selected[j] != path {
          }
        }
        queue := queue + [path];
        pending := pending + {path};
        assert selected[..i + 1] == selected[..i] + [path];
        i := i + 1;
      }
      assert selected[..i] == selected;
    }

    /** One tick of `fileChangeWatcher`: list, drop pending paths, keep
        matched, drop excluded, then queue each survivor and add it to the
        pending set. A failed listing changes nothing. */
    method Tick()
      requires Valid()
      modifies this
      ensures Valid()
      ensures published == old(published)
      ensures var (files, err) := Logging.Unprocessed(bucket.State());
        if err.Some? then queue == old(queue) && pending == old(pending)
        else queue == old(queue) + Selected(files, old(pending), config, glob)
      ensures forall p :: p in pending <==> p in old(pending) || p in queue[|old(queue)|..]
    {
      var files, err := bucket.ListUnprocessed();
      if err.Some? {
        assert queue[|old(queue)|..] == [];
        return;
      }
      bucket.ValidStateOf();
      Logging.ListDistinct(bucket.State());
      Accept(files);
      assert queue[|old(queue)|..] == Selected(files, old(pending), config, glob);
    }

    /** The rest of a tick once the listing succeeded: filter it, then
        queue the survivors. The storage is not touched. */
    method Accept(files: seq<string>)
      requires Valid() && NoDuplicates(files)
      modifies this
      ensures Valid() && bucket.State() == old(bucket.State())
      ensures published == old(published)
      ensures queue == old(queue) + Selected(files, old(pending), config, glob)
      ensures forall p :: p in pending <==> p in old(pending) || p in Selected(files, old(pending), config, glob)
    {
      var selected := FilterNew(files, pending, config, glob);
      SelectedPaths(files, pending, config, glob);
      Enqueue(selected);
    }

    /** `closeOutFile`. */
    method CloseOutFile(path: string) returns (err: MaybeError)
      requires Valid()
      modifies bucket.Repr()
      ensures Valid()
      ensures (bucket.State(), err) == CloseOut(old(bucket.State()), config, path)
    {
      if config.delete {
        err := bucket.Remove(path);
      } else {
        err := bucket.MarkProcessed(path);
      }
    }

    /** The reading half of `downloadFile`: read the file, gunzip it
        when unpacking applies, pick the codec and run it to the end; the
        records it yields, and whether the file may be closed out. The
        storage is not touched. */
    method Fetch(path: string) returns (records: seq<Record>, clean: bool)
      requires storage == bucket.Repr()
      ensures (records, clean) == Outcome(old(bucket.State()), config, lib, gunzip, path)
      ensures bucket.State() == old(bucket.State())
    {
      ghost var state := bucket.State();
      var read := bucket.Read(path);
      assert bucket.State() == state;
      if read.Failure? {
        return [], false;
      }
      var input := Source(read.value, config, gunzip, path);
      assert input == Input(state, config, gunzip, path);
      if input.Failure? {
        return [], false;
      }
      var made := Codec.NewCodec(config.codec, path, lib, input.value);
      if made.Failure? {
        return [], false;
      }
      assert bucket.State() == state;
      assert made.value.Repr() !! storage;
      var err;
      records, err := Collect(made.value);
      assert bucket.State() == state;
      clean := err.None?;
    }

    /** `downloadFile`: publish every record the file's codec yields, then
        close the file out if the codec ended without error; a file that
        cannot be read, unpacked or decoded is left as it is. */
    method DownloadFile(path: string)
      requires Valid()
      modifies this, bucket.Repr()
      ensures Valid()
      ensures queue == old(queue) && pending == old(pending)
      ensures published == old(published) + Outcome(old(bucket.State()), config, lib, gunzip, path).0
      ensures Outcome(old(bucket.State()), config, lib, gunzip, path).1 ==>
        bucket.State() == CloseOut(old(bucket.State()), config, path).0
      ensures !Outcome(old(bucket.State()), config, lib, gunzip, path).1 ==>
        bucket.State() == old(bucket.State())
    {
      var records, clean := Fetch(path);
      published := published + records;
      if clean {
        var _ := CloseOutFile(path);
      }
    }
  }

  /** What `New` builds from the settings and the environment: the
      checked configuration and the storage stack's state, or the
      configuration error as is, or the storage error reported as a bucket
      connection error. */
  function Setup(checked: Result<Config, Error>, env: Storage.Environment): Result<(Config, Logging.InnerState), Error>
  {
    match checked
    case Failure(e) => Failure(e)
    case Success(cfg) =>
      match Storage.StackOf(cfg, env)
      case Failure(e) => Failure(Failed("Error connecting to bucket: " + ErrorText(e)))
      case Success(s) => Success((cfg, s))
  }

  /** The storage half of `New`: the stack the configuration asks for,
      with a failure reported as a bucket connection error. */
  method Connect(cfg: Config, env: Storage.Environment) returns (r: Result<Logging.LoggingStorageProvider, Error>)
    requires env.Valid()
    ensures r.Success? <==> Storage.StackOf(cfg, env).Success?
    ensures r.Failure? ==> r.error == Failed("Error connecting to bucket: " + ErrorText(Storage.StackOf(cfg, env).error))
    ensures r.Success? ==> fresh(r.value.Repr()) && r.value.Valid() && r.value.State() == Storage.StackOf(cfg, env).value
  {
    var bucket := Storage.NewStorageProvider(cfg, env);
    if bucket.Failure? {
      return Failure(Failed("Error connecting to bucket: " + ErrorText(bucket.error)));
    }
    r := bucket;
  }

  /** `New`: validate the configuration, then build the storage stack. */
  method NewBeat(settings: Settings, glob: GlobEngine, env: Storage.Environment, lib: JsonLibrary,
                 gunzip: Reader -> Result<Reader, Error>) returns (r: Result<Beat, Error>)
    requires env.Valid()
    ensures r.Success? <==> Setup(GetAndValidateConfig(settings, glob), env).Success?
    ensures r.Failure? ==> r.error == Setup(GetAndValidateConfig(settings, glob), env).error
    ensures r.Success? ==> fresh(r.value) && r.value.Valid()
    ensures r.Success? ==> r.value.config == Setup(GetAndValidateConfig(settings, glob), env).value.0
    ensures r.Success? ==> r.value.bucket.State() == Setup(GetAndValidateConfig(settings, glob), env).value.1
    ensures r.Success? ==> r.value.queue == [] && r.value.published == []
  {
    var c := GetAndValidateConfig(settings, glob);
    if c.Failure? {
      return Failure(c.error);
    }
    var bucket := Connect(c.value, env);
    if bucket.Failure? {
      return Failure(bucket.error);
    }
    ghost var state := bucket.value.State();
    assert Setup(c, env) == Success((c.value, state));
    var bt := new Beat(c.value, bucket.value, glob, lib, gunzip);
    assert bt.bucket.State() == state;
    r := Success(bt);
  }
}
