/** The older copy of the storage providers kept beside the beat: an afero
    provider whose `Remove` only deletes, a Cloud Storage provider with a
    fixed metadata key whose listing loop never advances its iterator, and
    a logging wrapper. The beat itself uses the providers of the `Afero`,
    `GcsBucket` and `Logging` modules. */
module LegacyStorage {
  import opened Wrappers
  import opened Io
  import Afero
  import Explain
  import GcsBucket

  /** The metadata entry that marks an object as processed; the key is not
      configurable here. */
  const ProcessedMetadataKey := "x-goog-meta-gcsbeat"
  const ProcessedMetadataValue := "processed"

  /** `isMarkedAsProcessed`: a non-nil map holding `processed` under the
      fixed key. */
  function IsMarkedAsProcessed(metadata: Option<map<string, string>>): (r: bool)
    ensures r <==> metadata.Some? && ProcessedMetadataKey in metadata.value &&
                   metadata.value[ProcessedMetadataKey] == ProcessedMetadataValue
  {
    match metadata
    case None => false
    case Some(m) => ProcessedMetadataKey in m && m[ProcessedMetadataKey] == ProcessedMetadataValue
  }

  /** The fixed-key test is the configurable one at the default key; a nil
      map is never marked, a map holding just the mark always is. */
  lemma MarkIsFixedKey(metadata: Option<map<string, string>>)
    ensures IsMarkedAsProcessed(metadata) == GcsBucket.IsMarkedAsProcessed(metadata, ProcessedMetadataKey)
    ensures metadata.None? ==> !IsMarkedAsProcessed(metadata)
    ensures metadata == Some(map[ProcessedMetadataKey := "processed"]) ==> IsMarkedAsProcessed(metadata)
    ensures metadata == Some(map[ProcessedMetadataKey := "done"]) ==> !IsMarkedAsProcessed(metadata)
  {
    assert GcsBucket.ProcessedMetadataValue == ProcessedMetadataValue;
  }

  // ---------------------------------------------------------------------
  // The afero provider

  /** The names not yet keys of `processed`, in order. */
  function NotProcessed(names: seq<string>, processed: map<string, bool>): seq<string>
    decreases |names|
  {
    if names == [] then []
    else if names[0] in processed then NotProcessed(names[1..], processed)
    else [names[0]] + NotProcessed(names[1..], processed)
  }

  /** `ListUnprocessed`: the directory read's error with no names, or the
      entries whose names are not keys of `processed`. */
  function Unprocessed(s: Afero.AferoState): (seq<string>, MaybeError)
  {
    match s.dir.readError
    case Some(message) => ([], Some(Failed(message)))
    case None => (NotProcessed(s.dir.listing, s.processed), None)
  }

  /** `Remove`: deletes the file, or fails; `processed` is left alone. */
  function Removed(s: Afero.AferoState, path: string): (Afero.AferoState, MaybeError)
  {
    if path in s.dir.files then
      (s.(dir := s.dir.(listing := Afero.Without(s.dir.listing, path), files := s.dir.files - {path})), None)
    else
      (s, Some(Afero.NotExist("remove", path)))
  }

  /** The older listing and the newer one give the same names and error. */
  lemma ListAgrees(s: Afero.AferoState)
    ensures Unprocessed(s) == Afero.Unprocessed(s)
  {
    if s.dir.readError.None? {
      NotProcessedIsPassed(s.dir.listing, s.processed);
    }
  }

  lemma {:induction false} NotProcessedIsPassed(names: seq<string>, processed: map<string, bool>)
    ensures (NotProcessed(names, processed), None) ==
      Explain.Passed(names, Explain.InvertFilter(Afero.ProcessedFilter(processed)))
    decreases |names|
  {
    if names != [] {
      NotProcessedIsPassed(names[1..], processed);
    }
  }

  /** So the names listed are the directory's names not in `processed`,
      in directory order, and each at most once. */
  lemma ListIsUnprocessed(s: Afero.AferoState)
    requires s.dir.Valid()
    ensures s.dir.readError.Some? ==> Unprocessed(s) == ([], Some(Failed(s.dir.readError.value)))
    ensures s.dir.readError.None? ==> Unprocessed(s).1.None?
    ensures forall n :: n in Unprocessed(s).0 <==> s.dir.readError.None? && n in s.dir.listing && n !in s.processed
    ensures IsSubsequence(Unprocessed(s).0, s.dir.listing) && NoDuplicates(Unprocessed(s).0)
  {
    ListAgrees(s);
    Afero.ListIsUnprocessed(s);
    Afero.ListDistinct(s);
  }

  /** `Remove` deletes as the newer provider does, with the same error,
      but leaves `processed` untouched: a removed path never marked stays
      unprocessed, where the newer provider records it. */
  lemma RemoveLeavesProcessed(s: Afero.AferoState, path: string)
    ensures Removed(s, path).0.processed == s.processed
    ensures Removed(s, path).0.dir == Afero.Removed(s, path).0.dir
    ensures Removed(s, path).1 == Afero.Removed(s, path).1
    ensures path !in s.processed ==>
      Afero.Lookup(Removed(s, path).0, path) == (false, None) &&
      Afero.Lookup(Afero.Removed(s, path).0, path) == (true, None)
  {
  }

  /** Removing an existing file succeeds, once; the directory stays well
      formed. */
  lemma RemoveTwice(s: Afero.AferoState, path: string)
    requires s.dir.Valid()
    ensures Removed(s, path).1.None? <==> path in s.dir.files
    ensures Removed(Removed(s, path).0, path).1 == Some(Afero.NotExist("remove", path))
    ensures Removed(s, path).0.dir.Valid()
  {
    RemoveLeavesProcessed(s, path);
    Afero.RemoveTwice(s, path);
    Afero.RemoveKeepsDirectory(s, path);
  }

  /** A marked path drops out of the listing, and marking twice is marking
      once. */
  lemma MarkHides(s: Afero.AferoState, path: string)
    requires s.dir.Valid()
    ensures Afero.Marked(Afero.Marked(s, path).0, path) == Afero.Marked(s, path)
    ensures path !in Unprocessed(Afero.Marked(s, path).0).0
  {
    Afero.MarkHides(s, path);
    ListAgrees(Afero.Marked(s, path).0);
  }

  /** `aferoStorageProvider`: the filesystem and the map of paths marked
      processed. */
  class AferoStorageProvider {
    var dir: Afero.Directory
    var processed: map<string, bool>

    ghost function State(): Afero.AferoState
      reads this
    {
      Afero.AferoState(dir, processed)
    }

    ghost predicate Valid()
      reads this
    {
      dir.Valid()
    }

    /** `NewAferoStorageProvider`: the filesystem and an empty map. */
    constructor (dir: Afero.Directory)
      requires dir.Valid()
      ensures Valid() && State() == Afero.AferoState(dir, map[])
    {
      this.dir := dir;
      processed := map[];
    }

    /** Reads the directory and keeps each entry `WasProcessed` denies. */
    method ListUnprocessed() returns (files: seq<string>, err: MaybeError)
      ensures (files, err) == Unprocessed(State())
    {
      if dir.readError.Some? {
        return [], Some(Failed(dir.readError.value));
      }
      var entries := dir.listing;
      files := [];
      var i := 0;
      while i < |entries|
        invariant 0 <= i <= |entries|
        invariant NotProcessed(entries, processed) == files + NotProcessed(entries[i..], processed)
      {
        assert entries[i..][1..] == entries[i + 1..];
        var wasProcessed, _ := WasProcessed(entries[i]);
        if !wasProcessed {
          files := files + [entries[i]];
        }
        i := i + 1;
      }
      assert entries[i..] == [] && files + [] == files;
      err := None;
    }

    method Read(path: string) returns (r: Result<Reader, Error>)
      ensures r == Afero.Opened(State(), path)
    {
      if path in dir.files {
        r := Success(dir.files[path]);
      } else {
        r := Failure(Afero.NotExist("open", path));
      }
    }

    method Remove(path: string) returns (err: MaybeError)
      requires Valid()
      modifies this
      ensures Valid()
      ensures (State(), err) == Removed(old(State()), path)
    {
      Afero.RemoveKeepsDirectory(State(), path);
      if path in dir.files {
        dir := dir.(listing := Afero.Without(dir.listing, path), files := dir.files - {path});
        err := None;
      } else {
        err := Some(Afero.NotExist("remove", path));
      }
    }

    /** Key membership; never fails. */
    method WasProcessed(path: string) returns (wasProcessed: bool, err: MaybeError)
      ensures (wasProcessed, err) == Afero.Lookup(State(), path)
    {
      wasProcessed := path in processed;
      err := None;
    }

    /** Records `processed[path] = true`; never fails. */
    method MarkProcessed(path: string) returns (err: MaybeError)
      requires Valid()
      modifies this
      ensures Valid()
      ensures (State(), err) == Afero.Marked(old(State()), path)
    {
      processed := processed[path := true];
      err := None;
    }
  }

  // ---------------------------------------------------------------------
  // The Cloud Storage provider

  /** `n` copies of `x`. */
  function Repeat(x: string, n: nat): (r: seq<string>)
    ensures |r| == n && forall i :: 0 <= i < n ==> r[i] == x
  {
    seq(n, _ => x)
  }

  /** What the listing loop has done after `fuel` passes through its body:
      the names gathered, the error returned, and whether it has returned.
      The iterator is read once, before the loop. Done ends the loop
      before any pass, an error ends it in the first pass; a first object
      is seen again on every pass, and added again each time it is not
      marked. */
  function Listing(s: GcsBucket.GcsState, fuel: nat): (seq<string>, MaybeError, bool)
  {
    if GcsBucket.Reached(s) == 0 then
      match s.outage
      case None => ([], None, true)
      case Some(o) => if fuel == 0 then ([], None, false) else ([], Some(Failed(o.message)), true)
    else
      var first := s.objects[0];
      (if IsMarkedAsProcessed(first.metadata) then [] else Repeat(first.name, fuel), None, false)
  }

  /** The loop returns only when the bucket yields nothing before Done or
      an error; once the iterator yields an object, no number of passes
      ever returns, and an unmarked first object is listed once per pass. */
  lemma ListNeverAdvances(s: GcsBucket.GcsState, fuel: nat)
    ensures Listing(s, fuel).2 ==> GcsBucket.Reached(s) == 0
    ensures GcsBucket.Reached(s) == 0 && fuel > 0 ==>
      Listing(s, fuel) == (GcsBucket.Unprocessed(s).0, GcsBucket.Unprocessed(s).1, true)
    ensures GcsBucket.Reached(s) > 0 && !IsMarkedAsProcessed(s.objects[0].metadata) ==>
      |Listing(s, fuel).0| == fuel && forall i :: 0 <= i < fuel ==> Listing(s, fuel).0[i] == s.objects[0].name
  {
    if GcsBucket.Reached(s) == 0 {
      assert s.objects[..0] == [];
    }
  }

  /** One unmarked object `a.log`: the newer listing returns `["a.log"]`;
      this loop, after three passes, has gathered `a.log` three times and
      has still not returned. */
  lemma OneObjectLoops()
    ensures var s := GcsBucket.GcsState([GcsBucket.StoredObject("a.log", None, Reader([], None))], None, None, ProcessedMetadataKey);
      GcsBucket.Unprocessed(s) == (["a.log"], None) &&
      Listing(s, 3) == (["a.log", "a.log", "a.log"], None, false)
  {
    var s := GcsBucket.GcsState([GcsBucket.StoredObject("a.log", None, Reader([], None))], None, None, ProcessedMetadataKey);
    assert s.objects[..1] == s.objects && s.objects[1..] == [];
    assert GcsBucket.UnmarkedNames(s.objects, ProcessedMetadataKey) == ["a.log"];
    assert Repeat("a.log", 3) == ["a.log", "a.log", "a.log"];
  }

  /** The iterator's answer to `Next`. */
  datatype Step = Object(attrs: GcsBucket.StoredObject) | Done | IterError(err: Error)

  /** `gcpStorageProvider`: a client for one bucket, with the fixed
      metadata key. */
  class GcpStorageProvider {
    const bucket: string
    const outage: Option<GcsBucket.Outage>
    const writeError: Option<string>
    var objects: seq<GcsBucket.StoredObject>

    ghost function State(): GcsBucket.GcsState
      reads this
    {
      GcsBucket.GcsState(objects, outage, writeError, ProcessedMetadataKey)
    }

    ghost predicate Valid()
      reads this
    {
      State().Valid()
    }

    constructor (bucket: string, objects: seq<GcsBucket.StoredObject>, outage: Option<GcsBucket.Outage>,
                 writeError: Option<string>)
      requires GcsBucket.DistinctNames(objects)
      ensures Valid() && State() == GcsBucket.GcsState(objects, outage, writeError, ProcessedMetadataKey) && this.bucket == bucket
    {
      this.bucket := bucket;
      this.outage := outage;
      this.writeError := writeError;
      this.objects := objects;
    }

    method GetAttrs(path: string) returns (r: Result<GcsBucket.StoredObject, Error>)
      ensures r == GcsBucket.Attrs(State(), path)
    {
      if outage.Some? {
        return Failure(Failed(outage.value.message));
      }
      match GcsBucket.Find(objects, path)
      case None => r := Failure(GcsBucket.ObjectNotExist);
      case Some(i) => r := Success(objects[i]);
    }

    method Read(path: string) returns (r: Result<Reader, Error>)
      ensures r == GcsBucket.Opened(State(), path)
    {
      var attrs := GetAttrs(path);
      if attrs.Failure? {
        return Failure(attrs.error);
      }
      r := Success(attrs.value.contents);
    }

    method Remove(path: string) returns (err: MaybeError)
      requires Valid()
      modifies this
      ensures Valid()
      ensures (State(), err) == GcsBucket.Removed(old(State()), path)
    {
      if outage.Some? {
        return Some(Failed(outage.value.message));
      }
      if writeError.Some? {
        return Some(Failed(writeError.value));
      }
      match GcsBucket.Find(objects, path)
      case None =>
        err := Some(GcsBucket.ObjectNotExist);
      case Some(i) =>
        objects := objects[..i] + objects[i + 1..];
        err := None;
    }

    /** True along with the error when the lookup fails, so that the file
        is not processed again; otherwise the mark. */
    method WasProcessed(path: string) returns (wasProcessed: bool, err: MaybeError)
      ensures (wasProcessed, err) == GcsBucket.Lookup(State(), path)
    {
      var attrs := GetAttrs(path);
      if attrs.Failure? {
        return true, Some(attrs.error);
      }
      MarkIsFixedKey(attrs.value.metadata);
      return IsMarkedAsProcessed(attrs.value.metadata), None;
    }

    /** Adds the mark to the object's metadata, a nil map read as empty. */
    method MarkProcessed(path: string) returns (err: MaybeError)
      requires Valid()
      modifies this
      ensures Valid()
      ensures (State(), err) == GcsBucket.Marked(old(State()), path)
    {
      var attrs := GetAttrs(path);
      if attrs.Failure? {
        return Some(attrs.error);
      }
      if writeError.Some? {
        return Some(Failed(writeError.value));
      }
      var metadata := if attrs.value.metadata.Some? then attrs.value.metadata.value else map[];
      metadata := metadata[ProcessedMetadataKey := ProcessedMetadataValue];
      var i := GcsBucket.Find(objects, path).value;
      objects := objects[i := objects[i].(metadata := Some(metadata))];
      err := None;
    }

    /** The iterator's first answer: the first object if one comes before
        the failure point, else the outage's error, else Done. */
    method FirstStep() returns (step: Step)
      ensures GcsBucket.Reached(State()) > 0 ==> step == Object(objects[0])
      ensures GcsBucket.Reached(State()) == 0 && outage.Some? ==> step == IterError(Failed(outage.value.message))
      ensures GcsBucket.Reached(State()) == 0 && outage.None? ==> step == Done
    {
      var n := if outage.Some? && outage.value.after < |objects| then outage.value.after else |objects|;
      if n > 0 {
        step := Object(objects[0]);
      } else if outage.Some? {
        step := IterError(Failed(outage.value.message));
      } else {
        step := Done;
      }
    }

    /** The listing loop, run for at most `fuel` passes: `it.Next()` is
        called once, in the loop's initialiser, so every pass sees the same
        answer. `returned` is false when the passes ran out before the loop
        returned. */
    method ListUnprocessed(fuel: nat) returns (paths: seq<string>, err: MaybeError, returned: bool)
      ensures (paths, err, returned) == Listing(State(), fuel)
    {
      paths := [];
      var step := FirstStep();
      var pass := 0;
      while step != Done
        invariant pass <= fuel
        invariant step.Object? ==> GcsBucket.Reached(State()) > 0 && step.attrs == objects[0]
        invariant step.Object? && !IsMarkedAsProcessed(step.attrs.metadata) ==> paths == Repeat(step.attrs.name, pass)
        invariant step.Object? && IsMarkedAsProcessed(step.attrs.metadata) ==> paths == []
        invariant !step.Object? ==> paths == []
        invariant step.IterError? ==> pass == 0
        decreases fuel - pass
      {
        if pass == fuel {
          return paths, None, false;
        }
        pass := pass + 1;
        if step.IterError? {
          return paths, Some(step.err), true;
        }
        if IsMarkedAsProcessed(step.attrs.metadata) {
          continue;
        }
        assert Repeat(step.attrs.name, pass) == Repeat(step.attrs.name, pass - 1) + [step.attrs.name];
        paths := paths + [step.attrs.name];
      }
      err, returned := None, true;
    }
  }

  /** `newGcpStorageProvider`: opens a client with the key file; a client
      error gives no provider. `connect` stands for the client library and
      the bucket it reaches. */
  method NewGcpStorageProvider(bucketId: string, jsonKeyFile: string,
                               connect: (string, string) -> Result<(seq<GcsBucket.StoredObject>, Option<GcsBucket.Outage>, Option<string>), Error>)
    returns (r: Result<GcpStorageProvider, Error>)
    requires connect(bucketId, jsonKeyFile).Success? ==> GcsBucket.DistinctNames(connect(bucketId, jsonKeyFile).value.0)
    ensures r.Failure? <==> connect(bucketId, jsonKeyFile).Failure?
    ensures r.Failure? ==> r.error == connect(bucketId, jsonKeyFile).error
    ensures r.Success? ==>
      fresh(r.value) && r.value.Valid() && r.value.bucket == bucketId &&
      r.value.State() == GcsBucket.GcsState(connect(bucketId, jsonKeyFile).value.0, connect(bucketId, jsonKeyFile).value.1,
                                              connect(bucketId, jsonKeyFile).value.2, ProcessedMetadataKey)
  {
    match connect(bucketId, jsonKeyFile)
    case Failure(e) =>
      r := Failure(e);
    case Success((objects, outage, writeError)) =>
      var p := new GcpStorageProvider(bucketId, objects, outage, writeError);
      r := Success(p);
  }

  // ---------------------------------------------------------------------
  // The logging wrapper

  /** The state behind a wrapped provider. */
  datatype ProviderState = AferoState(afero: Afero.AferoState) | GcpState(gcp: GcsBucket.GcsState)

  /** Each answer of the interface, as the wrapped provider gives it. */
  function Listed(s: ProviderState, fuel: nat): (seq<string>, MaybeError, bool)
  {
    match s
    case AferoState(a) => (Unprocessed(a).0, Unprocessed(a).1, true)
    case GcpState(g) => Listing(g, fuel)
  }

  function Opened(s: ProviderState, path: string): Result<Reader, Error>
  {
    match s
    case AferoState(a) => Afero.Opened(a, path)
    case GcpState(g) => GcsBucket.Opened(g, path)
  }

  function Deleted(s: ProviderState, path: string): (ProviderState, MaybeError)
  {
    match s
    case AferoState(a) => var (t, e) := Removed(a, path); (AferoState(t), e)
    case GcpState(g) => var (t, e) := GcsBucket.Removed(g, path); (GcpState(t), e)
  }

  function Lookup(s: ProviderState, path: string): (bool, MaybeError)
  {
    match s
    case AferoState(a) => Afero.Lookup(a, path)
    case GcpState(g) => GcsBucket.Lookup(g, path)
  }

  function Marked(s: ProviderState, path: string): (ProviderState, MaybeError)
  {
    match s
    case AferoState(a) => var (t, e) := Afero.Marked(a, path); (AferoState(t), e)
    case GcpState(g) => var (t, e) := GcsBucket.Marked(g, path); (GcpState(t), e)
  }

  /** A lookup error always comes with "processed", whichever provider
      answers. */
  lemma LookupErrorMeansProcessed(s: ProviderState, path: string)
    ensures Lookup(s, path).1.Some? ==> Lookup(s, path).0
  {
    match s
    case AferoState(_) =>
    case GcpState(g) => GcsBucket.LookupErrorMeansProcessed(g, path);
  }

  /** The `StorageProvider` interface over the two providers. */
  datatype Provider = AferoProvider(afero: AferoStorageProvider) | GcpProvider(gcp: GcpStorageProvider)
  {
    ghost function Repr(): set<object>
    {
      match this
      case AferoProvider(a) => {a}
      case GcpProvider(g) => {g}
    }

    ghost predicate Valid()
      reads Repr()
    {
      match this
      case AferoProvider(a) => a.Valid()
      case GcpProvider(g) => g.Valid()
    }

    ghost function State(): ProviderState
      reads Repr()
    {
      match this
      case AferoProvider(a) => AferoState(a.State())
      case GcpProvider(g) => GcpState(g.State())
    }
  }

  /** `loggingStorageProvider`: logs each call and hands back exactly what
      the wrapped provider answers. */
  class LoggingStorageProvider {
    const wrapped: Provider

    ghost function Repr(): set<object>
    {
      wrapped.Repr()
    }

    ghost predicate Valid()
      reads Repr()
    {
      this !in Repr() && wrapped.Valid()
    }

    ghost function State(): ProviderState
      reads Repr()
    {
      wrapped.State()
    }

    /** `NewLoggingStorageProvider`. */
    constructor (inner: Provider)
      requires inner.Valid()
      ensures wrapped == inner && Valid()
    {
      wrapped := inner;
    }

    method ListUnprocessed(fuel: nat) returns (files: seq<string>, err: MaybeError, returned: bool)
      ensures (files, err, returned) == Listed(State(), fuel)
    {
      match wrapped
      case AferoProvider(a) =>
        files, err := a.ListUnprocessed();
        returned := true;
      case GcpProvider(g) =>
        files, err, returned := g.ListUnprocessed(fuel);
    }

    method Read(path: string) returns (r: Result<Reader, Error>)
      ensures r == Opened(State(), path)
    {
      match wrapped
      case AferoProvider(a) => r := a.Read(path);
      case GcpProvider(g) => r := g.Read(path);
    }

    method Remove(path: string) returns (err: MaybeError)
      requires Valid()
      modifies Repr()
      ensures Valid()
      ensures (State(), err) == Deleted(old(State()), path)
    {
      match wrapped
      case AferoProvider(a) => err := a.Remove(path);
      case GcpProvider(g) => err := g.Remove(path);
    }

    method WasProcessed(path: string) returns (processed: bool, err: MaybeError)
      ensures (processed, err) == Lookup(State(), path)
    {
      match wrapped
      case AferoProvider(a) => processed, err := a.WasProcessed(path);
      case GcpProvider(g) => processed, err := g.WasProcessed(path);
    }

    method MarkProcessed(path: string) returns (err: MaybeError)
      requires Valid()
      modifies Repr()
      ensures Valid()
      ensures (State(), err) == Marked(old(State()), path)
    {
      match wrapped
      case AferoProvider(a) => err := a.MarkProcessed(path);
      case GcpProvider(g) => err := g.MarkProcessed(path);
    }
  }
}
