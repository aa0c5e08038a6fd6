/** The local-processed middleware: keeps the set of processed paths in a
    local bolt database instead of in the storage itself. */
module LocalProcessed {
  import opened Wrappers
  import opened Io
  import Explain
  import BaseProvider

  const ProcessedMetadataValue := "processed"

  /** bolt's error for a bucket with an empty name. */
  const BucketNameRequired := Failed("bucket name required")

  /** A bolt database file: its buckets, each a map from key to value. */
  type BoltFile = map<string, map<string, string>>

  /** The middleware's state: the wrapped provider's, and the bucket of the
      database that records processed paths. */
  datatype LocalState = LocalState(inner: BaseProvider.BaseState, db: map<string, string>)

  /** `WasProcessed` as a listing filter: a key of the database. */
  function DbFilter(db: map<string, string>): (f: Explain.Filter)
    ensures forall p :: f(p) == (p in db, None)
  {
    p => (p in db, None)
  }

  /** The paths with no entry in the database. */
  function NotIn(db: map<string, string>): (p: string -> bool)
    ensures forall x :: p(x) == (x !in db)
  {
    x => x !in db
  }

  /** `ListUnprocessed`: the wrapped listing's error, or the wrapped
      listing less the paths in the database. */
  function Unprocessed(s: LocalState): (seq<string>, MaybeError)
  {
    var (files, err) := BaseProvider.Unprocessed(s.inner);
    if err.Some? then ([], err)
    else Explain.Passed(files, Explain.InvertFilter(DbFilter(s.db)))
  }

  /** `Read` is the wrapped provider's. */
  function Opened(s: LocalState, path: string): Result<Reader, Error>
  {
    BaseProvider.Opened(s.inner, path)
  }

  /** `Remove`: the wrapped provider's first; only if it succeeds is the
      path deleted from the database. */
  function Removed(s: LocalState, path: string): (LocalState, MaybeError)
  {
    var (inner, err) := BaseProvider.Removed(s.inner, path);
    if err.Some? then (LocalState(inner, s.db), err)
    else (LocalState(inner, s.db - {path}), None)
  }

  /** `WasProcessed`: whether the path is a key of the database. */
  function Lookup(s: LocalState, path: string): (bool, MaybeError)
  {
    (path in s.db, None)
  }

  /** `MarkProcessed`: stores `path -> "processed"`. */
  function Marked(s: LocalState, path: string): (LocalState, MaybeError)
  {
    (s.(db := s.db[path := ProcessedMetadataValue]), None)
  }

  /** A failed wrapped listing passes through unfiltered; otherwise the
      result is the wrapped listing less the database's paths, in order. */
  lemma ListFiltersDb(s: LocalState)
    ensures BaseProvider.Unprocessed(s.inner).1.Some? ==> Unprocessed(s) == ([], BaseProvider.Unprocessed(s.inner).1)
    ensures BaseProvider.Unprocessed(s.inner).1.None? ==>
      Unprocessed(s) == (Explain.Keep(BaseProvider.Unprocessed(s.inner).0, NotIn(s.db)), None)
  {
    var files := BaseProvider.Unprocessed(s.inner).0;
    if BaseProvider.Unprocessed(s.inner).1.None? {
      var f := DbFilter(s.db);
      assert Explain.ErrorFree(files, f);
      Explain.InvertKeepsRejected(files, f);
      Explain.KeepSame(files, x => !f(x).0, NotIn(s.db));
    }
  }

  /** Filtering a listing without duplicates keeps it without. */
  lemma ListDistinct(s: LocalState)
    requires s.inner.Valid()
    ensures NoDuplicates(Unprocessed(s).0)
  {
    var files := BaseProvider.Unprocessed(s.inner).0;
    if BaseProvider.Unprocessed(s.inner).1.None? {
      BaseProvider.ListDistinct(s.inner);
      Explain.PassedIsSubsequence(files, Explain.InvertFilter(DbFilter(s.db)));
      SubsequenceNoDuplicates(Unprocessed(s).0, files);
    }
  }

  /** `MarkProcessed` is idempotent and hides the path from the next
      listing. */
  lemma MarkHides(s: LocalState, path: string)
    ensures Marked(Marked(s, path).0, path) == Marked(s, path)
    ensures Lookup(Marked(s, path).0, path) == (true, None)
    ensures path !in Unprocessed(Marked(s, path).0).0
  {
    assert s.db[path := ProcessedMetadataValue][path := ProcessedMetadataValue] == s.db[path := ProcessedMetadataValue];
    ListFiltersDb(Marked(s, path).0);
  }

  /** A failed wrapped `Remove` leaves the database as it was and returns
      that error; a successful one forgets the path. */
  lemma RemoveForgets(s: LocalState, path: string)
    ensures BaseProvider.Removed(s.inner, path).1.Some? ==>
      Removed(s, path) == (LocalState(BaseProvider.Removed(s.inner, path).0, s.db), BaseProvider.Removed(s.inner, path).1)
    ensures BaseProvider.Removed(s.inner, path).1.None? ==>
      Removed(s, path).1.None? && Lookup(Removed(s, path).0, path) == (false, None)
  {
  }

  /** `localProcessedMiddleware`: the wrapped provider and the database
      bucket named after the metadata key. */
  class LocalProcessedMiddleware {
    const wrapped: BaseProvider.Provider
    const bucketKey: string
    const dbPath: string
    var db: map<string, string>

    ghost function Repr(): set<object>
    {
      {this} + wrapped.Repr()
    }

    ghost predicate Valid()
      reads this, wrapped.Repr()
    {
      this !in wrapped.Repr() && wrapped.Valid()
    }

    ghost function State(): LocalState
      reads this, wrapped.Repr()
    {
      LocalState(wrapped.State(), db)
    }

    constructor (wrapped: BaseProvider.Provider, bucketKey: string, dbPath: string, db: map<string, string>)
      requires wrapped.Valid()
      ensures Valid() && this.wrapped == wrapped && this.bucketKey == bucketKey && this.dbPath == dbPath
      ensures State() == LocalState(wrapped.State(), db)
    {
      this.wrapped := wrapped;
      this.bucketKey := bucketKey;
      this.dbPath := dbPath;
      this.db := db;
    }

    /** `removeProcessed`: the paths that have no entry in the bucket, in
        order, read in one view transaction. */
    method RemoveProcessed(paths: seq<string>) returns (out: seq<string>, err: MaybeError)
      ensures out == Explain.Keep(paths, NotIn(db)) && err.None?
    {
      out := [];
      var i := 0;
      while i < |paths|
        invariant 0 <= i <= |paths|
        invariant out == Explain.Keep(paths[..i], NotIn(db))
      {
        KeepSnoc(paths[..i], paths[i], NotIn(db));
        assert paths[..i + 1] == paths[..i] + [paths[i]];
        if paths[i] !in db {
          out := out + [paths[i]];
        }
        i := i + 1;
      }
      assert paths[..i] == paths;
      err := None;
    }

    method ListUnprocessed() returns (files: seq<string>, err: MaybeError)
      ensures (files, err) == Unprocessed(State())
    {
      var bucketKeys, e := wrapped.ListUnprocessed();
      if e.Some? {
        return [], e;
      }
      var message := "exists in processed db \"" + dbPath + "\"";
      files, err := Explain.FilterAndExplain(message, bucketKeys, Explain.InvertFilter(DbFilter(db)));
    }

    method Read(path: string) returns (r: Result<Reader, Error>)
      ensures r == Opened(State(), path)
    {
      r := wrapped.Read(path);
    }

    method Remove(path: string) returns (err: MaybeError)
      requires Valid()
      modifies Repr()
      ensures Valid()
      ensures (State(), err) == Removed(old(State()), path)
    {
      err := wrapped.Remove(path);
      if err.Some? {
        return;
      }
      db := db - {path};
    }

    /** Asks `removeProcessed` about the one path. */
    method WasProcessed(path: string) returns (processed: bool, err: MaybeError)
      ensures (processed, err) == Lookup(State(), path)
    {
      var unprocessed;
      unprocessed, err := RemoveProcessed([path]);
      assert [path][1..] == [];
      processed := |unprocessed| == 0;
    }

    method MarkProcessed(path: string) returns (err: MaybeError)
      modifies this
      ensures (State(), err) == Marked(old(State()), path)
    {
      db := db[path := ProcessedMetadataValue];
      err := None;
    }
  }

  /** Keeping over a sequence grown by one name. */
  lemma {:induction false} KeepSnoc(names: seq<string>, x: string, p: string -> bool)
    ensures Explain.Keep(names + [x], p) == Explain.Keep(names, p) + (if p(x) then [x] else [])
    decreases |names|
  {
    if names == [] {
      assert [] + [x] == [x];
    } else {
      assert (names + [x])[1..] == names[1..] + [x];
      KeepSnoc(names[1..], x, p);
    }
  }

  /** `newLocalProcessedMiddlewareBase`: opens the database file, then
      makes sure the bucket named by the metadata key exists; either
      failure gives no middleware. `open` stands for bolt's file access. */
  method NewLocalProcessedMiddleware(inner: BaseProvider.Provider, dbPath: string, metadataKey: string,
                                     open: string -> Result<BoltFile, Error>)
    returns (r: Result<LocalProcessedMiddleware, Error>)
    requires inner.Valid()
    ensures open(dbPath).Failure? ==> r == Failure(open(dbPath).error)
    ensures open(dbPath).Success? && metadataKey == "" ==> r == Failure(BucketNameRequired)
    ensures r.Success? <==> open(dbPath).Success? && metadataKey != ""
    ensures r.Success? ==>
      fresh(r.value) && r.value.Valid() && r.value.wrapped == inner && r.value.bucketKey == metadataKey &&
      r.value.State() == LocalState(inner.State(),
        if metadataKey in open(dbPath).value then open(dbPath).value[metadataKey] else map[])
  {
    match open(dbPath)
    case Failure(e) =>
      r := Failure(e);
    case Success(file) =>
      if metadataKey == "" {
        return Failure(BucketNameRequired);
      }
      var bucket := if metadataKey in file then file[metadataKey] else map[];
      var m := new LocalProcessedMiddleware(inner, metadataKey, dbPath, bucket);
      r := Success(m);
  }
}
