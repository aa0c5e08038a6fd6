/** The afero-backed storage provider: a directory of files and an
    in-memory `processed` map. */
module Afero {
  import opened Wrappers
  import opened Io
  import Explain

  /** `a` sorts strictly before `b`, comparing character by character. */
  predicate Before(a: string, b: string)
    decreases |a|
  {
    if a == [] then b != []
    else if b == [] then false
    else if a[0] != b[0] then a[0] < b[0]
    else Before(a[1..], b[1..])
  }

  /** The directory listing order of `afero.ReadDir`: sorted by name. */
  predicate Sorted(names: seq<string>)
  {
    forall i, j :: 0 <= i < j < |names| ==> Before(names[i], names[j])
  }

  /** A directory: its file names in listing order, what a reader over each
      file delivers (its bytes, and the error a read hits part-way, if any),
      and the error a read of the directory gives, if it fails. */
  datatype Directory = Directory(listing: seq<string>, files: map<string, Reader>, readError: Option<string>)
  {
    ghost predicate Valid()
    {
      Sorted(listing) && NoDuplicates(listing) && (forall n :: n in listing <==> n in files)
    }
  }

  /** The provider's state: the directory and the `processed` map. */
  datatype AferoState = AferoState(dir: Directory, processed: map<string, bool>)

  /** The error afero gives for a missing file. */
  function NotExist(op: string, path: string): Error
  {
    Failed(op + " " + path + ": file does not exist")
  }

  /** `WasProcessed` as a listing filter. */
  function ProcessedFilter(processed: map<string, bool>): (f: Explain.Filter)
    ensures forall p :: f(p) == (p in processed, None)
  {
    p => (p in processed, None)
  }

  /** `ListUnprocessed`: the directory read's error, or the names of the
      listing that are not keys of `processed`. */
  function Unprocessed(s: AferoState): (seq<string>, MaybeError)
  {
    match s.dir.readError
    case Some(message) => ([], Some(Failed(message)))
    case None => Explain.Passed(s.dir.listing, Explain.InvertFilter(ProcessedFilter(s.processed)))
  }

  /** `Read`: the file's contents, or afero's not-exist error. */
  function Opened(s: AferoState, path: string): Result<Reader, Error>
  {
    if path in s.dir.files then Success(s.dir.files[path])
    else Failure(NotExist("open", path))
  }

  /** The listing less one name. */
  function Without(names: seq<string>, path: string): (r: seq<string>)
    ensures forall n :: n in r <==> n in names && n != path
    ensures IsSubsequence(r, names)
    decreases |names|
  {
    if names == [] then []
    else if names[0] == path then
      var rest := Without(names[1..], path);
      SubsequenceSkip(rest, names);
      rest
    else [names[0]] + Without(names[1..], path)
  }

  /** `Remove`: first records `processed[path] = false`, then deletes the
      file, or fails if there is none. */
  function Removed(s: AferoState, path: string): (AferoState, MaybeError)
  {
    var processed := s.processed[path := false];
    if path in s.dir.files then
      (AferoState(s.dir.(listing := Without(s.dir.listing, path), files := s.dir.files - {path}), processed), None)
    else
      (AferoState(s.dir, processed), Some(NotExist("remove", path)))
  }

  /** `WasProcessed`: whether the path is a key, whatever its value. */
  function Lookup(s: AferoState, path: string): (bool, MaybeError)
  {
    (path in s.processed, None)
  }

  /** `MarkProcessed`: records `processed[path] = true`; never fails. */
  function Marked(s: AferoState, path: string): (AferoState, MaybeError)
  {
    (s.(processed := s.processed[path := true]), None)
  }

  /** The listing is exactly the directory's names that are not keys of
      `processed`, in directory order; a failed read gives nothing. */
  lemma ListIsUnprocessed(s: AferoState)
    ensures s.dir.readError.Some? ==> Unprocessed(s) == ([], Some(Failed(s.dir.readError.value)))
    ensures s.dir.readError.None? ==> Unprocessed(s).1.None? && IsSubsequence(Unprocessed(s).0, s.dir.listing)
    ensures s.dir.readError.None? ==> forall n :: n in Unprocessed(s).0 <==> n in s.dir.listing && n !in s.processed
  {
    if s.dir.readError.None? {
      var f := Explain.InvertFilter(ProcessedFilter(s.processed));
      assert Explain.ErrorFree(s.dir.listing, f);
      Explain.PassedWithoutErrors(s.dir.listing, f);
      Explain.PassedIsSubsequence(s.dir.listing, f);
    }
  }

  /** The listing never names a file twice. */
  lemma ListDistinct(s: AferoState)
    requires NoDuplicates(s.dir.listing)
    ensures NoDuplicates(Unprocessed(s).0)
  {
    if s.dir.readError.None? {
      var f := Explain.InvertFilter(ProcessedFilter(s.processed));
      Explain.PassedIsSubsequence(s.dir.listing, f);
      SubsequenceNoDuplicates(Unprocessed(s).0, s.dir.listing);
    }
  }

  /** `MarkProcessed` is idempotent and hides the path from the listing. */
  lemma MarkHides(s: AferoState, path: string)
    ensures Marked(Marked(s, path).0, path) == Marked(s, path)
    ensures Lookup(Marked(s, path).0, path) == (true, None)
    ensures path !in Unprocessed(Marked(s, path).0).0
  {
    assert s.processed[path := true][path := true] == s.processed[path := true];
    ListIsUnprocessed(Marked(s, path).0);
  }

  /** `Remove` leaves `path` a key of `processed` whether or not the delete
      succeeds, so the path reads as processed afterwards. */
  lemma RemoveMarks(s: AferoState, path: string)
    ensures Lookup(Removed(s, path).0, path) == (true, None)
    ensures path !in Unprocessed(Removed(s, path).0).0
  {
    ListIsUnprocessed(Removed(s, path).0);
  }

  /** Removing an existing file succeeds and a second removal fails;
      removing a missing file fails and deletes nothing. */
  lemma RemoveTwice(s: AferoState, path: string)
    ensures (Removed(s, path).1.None?) <==> path in s.dir.files
    ensures path !in Removed(s, path).0.dir.files
    ensures Removed(Removed(s, path).0, path).1 == Some(NotExist("remove", path))
    ensures path !in s.dir.files ==> Removed(s, path).0.dir == s.dir
  {
  }

  /** `Read` of an existing file gives its contents, of a missing one an
      error. */
  lemma ReadExisting(s: AferoState, path: string)
    ensures Opened(s, path).Success? <==> path in s.dir.files
    ensures Opened(s, path).Success? ==> Opened(s, path).value == s.dir.files[path]
  {
  }

  /** The directory stays well formed under `Remove`. */
  lemma RemoveKeepsDirectory(s: AferoState, path: string)
    requires s.dir.Valid()
    ensures Removed(s, path).0.dir.Valid()
  {
    if path in s.dir.files {
      WithoutKeepsOrder(s.dir.listing, path);
    }
  }

  lemma {:induction false} WithoutKeepsOrder(names: seq<string>, path: string)
    requires Sorted(names) && NoDuplicates(names)
    ensures Sorted(Without(names, path)) && NoDuplicates(Without(names, path))
    decreases |names|
  {
    if names != [] {
      var rest := Without(names[1..], path);
      WithoutKeepsOrder(names[1..], path);
      if names[0] != path {
        var r := [names[0]] + rest;
        forall j | 0 < j < |r| ensures Before(names[0], r[j]) && names[0] != r[j] {
          assert r[j] in names[1..];
          var k :| 0 <= k < |names[1..]| && names[1..][k] == r[j];
          assert names[k + 1] == r[j];
        }
      }
    }
  }

  /** `aferoStorageProvider`: the filesystem and the map of paths it has
      seen processed or removed. */
  class AferoStorageProvider {
    /** `fs.Name()`, for the listing log line. */
    const name: string
    var dir: Directory
    var processed: map<string, bool>

    ghost function State(): AferoState
      reads this
    {
      AferoState(dir, processed)
    }

    ghost predicate Valid()
      reads this
    {
      dir.Valid()
    }

    /** `newAferoStorageProvider`: the filesystem and an empty map. */
    constructor (name: string, dir: Directory)
      requires dir.Valid()
      ensures Valid() && State() == AferoState(dir, map[]) && this.name == name
    {
      this.name := name;
      this.dir := dir;
      processed := map[];
    }

    /** Reads the directory, collects the entry names, then keeps those not
        yet processed. */
    method ListUnprocessed() returns (files: seq<string>, err: MaybeError)
      ensures (files, err) == Unprocessed(State())
    {
      if dir.readError.Some? {
        return [], Some(Failed(dir.readError.value));
      }
      var entries := dir.listing;
      var out: seq<string> := [];
      var i := 0;
      while i < |entries|
        invariant 0 <= i <= |entries|
        invariant out == entries[..i]
      {
        out := out + [entries[i]];
        i := i + 1;
      }
      assert out == entries;
      out := Explain.ExplainFoundFiles(name, out);
      files, err := Explain.FilterAndExplain("exists in processed cache", out, Explain.InvertFilter(ProcessedFilter(processed)));
    }

    method Read(path: string) returns (r: Result<Reader, Error>)
      ensures r == Opened(State(), path)
    {
      if path in dir.files {
        r := Success(dir.files[path]);
      } else {
        r := Failure(NotExist("open", path));
      }
    }

    method Remove(path: string) returns (err: MaybeError)
      requires Valid()
      modifies this
      ensures Valid()
      ensures (State(), err) == Removed(old(State()), path)
    {
      RemoveKeepsDirectory(State(), path);
      processed := processed[path := false];
      if path in dir.files {
        dir := dir.(listing := Without(dir.listing, path), files := dir.files - {path});
        err := None;
      } else {
        err := Some(NotExist("remove", path));
      }
    }

    method WasProcessed(path: string) returns (processed: bool, err: MaybeError)
      ensures (processed, err) == Lookup(State(), path)
    {
      processed := path in this.processed;
      err := None;
    }

    method MarkProcessed(path: string) returns (err: MaybeError)
      requires Valid()
      modifies this
      ensures Valid()
      ensures (State(), err) == Marked(old(State()), path)
    {
      processed := processed[path := true];
      err := None;
    }
  }

  /** The `file://` scheme prefix stripped from a bucket id. */
  const FileScheme := "file://"

  /** `newAferoBucketProvider`'s base path: the bucket id less its first
      seven characters. */
  function BasePath(bucket: string): (base: string)
    requires |bucket| >= 7
    ensures HasPrefix(bucket, FileScheme) ==> FileScheme + base == bucket
  {
    bucket[7..]
  }

  /** `newAferoBucketProvider`: a provider over the directory `mount` finds
      at the base path; `mount` stands for the operating system's
      filesystem. */
  method NewAferoBucketProvider(bucket: string, mount: string -> Directory) returns (p: AferoStorageProvider)
    requires |bucket| >= 7
    requires mount(BasePath(bucket)).Valid()
    ensures fresh(p) && p.Valid()
    ensures p.State() == AferoState(mount(BasePath(bucket)), map[])
    ensures p.name == BasePath(bucket)
  {
    var basePath := bucket[7..];
    p := new AferoStorageProvider(basePath, mount(basePath));
  }
}
