/** The Google Cloud Storage provider: objects in a bucket, marked as
    processed through their custom metadata. */
module GcsBucket {
  import opened Wrappers
  import opened Io
  import Explain

  const ProcessedMetadataValue := "processed"

  /** The error the client gives for a missing object. */
  const ObjectNotExist := Failed("storage: object doesn't exist")

  /** An object: its name, its custom metadata (`None` is a nil map) and
      what a reader over it delivers: its bytes, and the error a download
      hits part-way, if any. */
  datatype StoredObject = StoredObject(name: string, metadata: Option<map<string, string>>, contents: Reader)

  /** A network or permission failure: every per-object call fails with
      `message`, and a listing fails once `after` objects have been read. */
  datatype Outage = Outage(after: nat, message: string)

  /** The bucket as the provider sees it: the objects in listing order,
      whether the service is failing, and the error every write (a delete or
      a metadata update) gets when the credentials may read the bucket but
      not write it. */
  datatype GcsState = GcsState(objects: seq<StoredObject>, outage: Option<Outage>, writeError: Option<string>,
                               metadataKey: string)
  {
    ghost predicate Valid()
    {
      DistinctNames(objects)
    }
  }

  /** No two objects share a name. */
  ghost predicate DistinctNames(objects: seq<StoredObject>)
  {
    forall i, j :: 0 <= i < j < |objects| ==> objects[i].name != objects[j].name
  }

  /** `isMarkedAsProcessed`: a non-nil map holding `processed` under the
      key. */
  function IsMarkedAsProcessed(metadata: Option<map<string, string>>, metadataKey: string): (r: bool)
    ensures r <==> metadata.Some? && metadataKey in metadata.value && metadata.value[metadataKey] == ProcessedMetadataValue
  {
    match metadata
    case None => false
    case Some(m) => metadataKey in m && m[metadataKey] == ProcessedMetadataValue
  }

  /** The position of the object named `path`. */
  function Find(objects: seq<StoredObject>, path: string): (r: Option<nat>)
    ensures r.Some? ==> r.value < |objects| && objects[r.value].name == path
    ensures r.None? ==> forall i :: 0 <= i < |objects| ==> objects[i].name != path
    decreases |objects|
  {
    if objects == [] then None
    else if objects[0].name == path then Some(0)
    else match Find(objects[1..], path)
      case None => None
      case Some(i) => Some(i + 1)
  }

  /** `getAttrs`: the object's attributes, the outage's error, or the
      missing-object error. */
  function Attrs(s: GcsState, path: string): (r: Result<StoredObject, Error>)
    ensures r.Success? ==> r.value in s.objects && r.value.name == path
  {
    match s.outage
    case Some(o) => Failure(Failed(o.message))
    case None =>
      match Find(s.objects, path)
      case None => Failure(ObjectNotExist)
      case Some(i) => Success(s.objects[i])
  }

  /** `WasProcessed`: true with the error when the lookup fails, so a path
      that cannot be checked is not processed again; otherwise the mark. */
  function Lookup(s: GcsState, path: string): (bool, MaybeError)
  {
    match Attrs(s, path)
    case Failure(e) => (true, Some(e))
    case Success(o) => (IsMarkedAsProcessed(o.metadata, s.metadataKey), None)
  }

  /** The metadata after marking: the old entries, a nil map read as empty,
      and the key set to `processed`. */
  function WithMark(metadata: Option<map<string, string>>, metadataKey: string): map<string, string>
  {
    (if metadata.Some? then metadata.value else map[])[metadataKey := ProcessedMetadataValue]
  }

  /** `MarkProcessed`: on a failed lookup or a refused update nothing
      changes and the error is returned; otherwise the object's metadata
      gets the mark. */
  function Marked(s: GcsState, path: string): (GcsState, MaybeError)
  {
    match s.outage
    case Some(o) => (s, Some(Failed(o.message)))
    case None =>
      match Find(s.objects, path)
      case None => (s, Some(ObjectNotExist))
      case Some(i) =>
        if s.writeError.Some? then (s, Some(Failed(s.writeError.value))) else
        var o := s.objects[i];
        (s.(objects := s.objects[i := o.(metadata := Some(WithMark(o.metadata, s.metadataKey)))]), None)
  }

  /** `Remove`: deletes the object, or fails: under an outage, when writes
      are refused, or when there is no such object. */
  function Removed(s: GcsState, path: string): (GcsState, MaybeError)
  {
    match s.outage
    case Some(o) => (s, Some(Failed(o.message)))
    case None =>
      if s.writeError.Some? then (s, Some(Failed(s.writeError.value))) else
      match Find(s.objects, path)
      case None => (s, Some(ObjectNotExist))
      case Some(i) => (s.(objects := s.objects[..i] + s.objects[i + 1..]), None)
  }

  /** `Read`: a reader over the object's contents, or the error. */
  function Opened(s: GcsState, path: string): Result<Reader, Error>
  {
    match Attrs(s, path)
    case Failure(e) => Failure(e)
    case Success(o) => Success(o.contents)
  }

  /** The names of the objects not marked as processed, in order. */
  function UnmarkedNames(objects: seq<StoredObject>, metadataKey: string): (names: seq<string>)
    ensures |names| <= |objects|
    decreases |objects|
  {
    if objects == [] then []
    else
      var rest := UnmarkedNames(objects[1..], metadataKey);
      if IsMarkedAsProcessed(objects[0].metadata, metadataKey) then rest else [objects[0].name] + rest
  }

  lemma UnmarkedStep(objects: seq<StoredObject>, metadataKey: string)
    requires objects != []
    ensures UnmarkedNames(objects, metadataKey) ==
      (if IsMarkedAsProcessed(objects[0].metadata, metadataKey) then [] else [objects[0].name]) +
      UnmarkedNames(objects[1..], metadataKey)
  {
  }

  /** How many objects the iterator yields before it stops. */
  function Reached(s: GcsState): nat
  {
    match s.outage
    case None => |s.objects|
    case Some(o) => if o.after < |s.objects| then o.after else |s.objects|
  }

  /** `ListUnprocessed`: the unmarked names among the objects the iterator
      yields, then the iterator's error, if it fails. */
  function Unprocessed(s: GcsState): (seq<string>, MaybeError)
  {
    (UnmarkedNames(s.objects[..Reached(s)], s.metadataKey),
     match s.outage case None => None case Some(o) => Some(Failed(o.message)))
  }

  /** A failed lookup answers "processed", and brings the error along. */
  lemma LookupErrorMeansProcessed(s: GcsState, path: string)
    ensures Lookup(s, path).1.Some? ==> Lookup(s, path).0
    ensures Lookup(s, path).1.Some? <==> Attrs(s, path).Failure?
    ensures Attrs(s, path).Success? ==> Lookup(s, path).0 == IsMarkedAsProcessed(Attrs(s, path).value.metadata, s.metadataKey)
  {
  }

  /** After a successful `MarkProcessed` the object reads as processed, its
      other metadata entries are kept, and no other object changes; a
      failed one changes nothing. */
  lemma MarkKeepsMetadata(s: GcsState, path: string)
    requires s.Valid()
    ensures Marked(s, path).1.Some? ==> Marked(s, path).0 == s
    ensures Marked(s, path).1.None? ==> Marked(s, path).0.Valid() && Lookup(Marked(s, path).0, path) == (true, None)
    ensures Marked(s, path).1.None? ==>
      |Marked(s, path).0.objects| == |s.objects| &&
      forall i :: 0 <= i < |s.objects| ==>
        Marked(s, path).0.objects[i].name == s.objects[i].name &&
        Marked(s, path).0.objects[i].contents == s.objects[i].contents &&
        (s.objects[i].name != path ==> Marked(s, path).0.objects[i] == s.objects[i]) &&
        (s.objects[i].name == path ==>
          Marked(s, path).0.objects[i].metadata.Some? &&
          forall k :: k in Base(s.objects[i].metadata) && k != s.metadataKey ==>
            k in Marked(s, path).0.objects[i].metadata.value &&
            Marked(s, path).0.objects[i].metadata.value[k] == Base(s.objects[i].metadata)[k])
  {
    if Marked(s, path).1.None? {
      var i := Find(s.objects, path).value;
      var t := Marked(s, path).0;
      assert Find(t.objects, path) == Some(i) by {
        FindFirst(t.objects, path, i);
      }
    }
  }

  /** The map a metadata value stands for, nil read as empty. */
  function Base(metadata: Option<map<string, string>>): map<string, string>
  {
    if metadata.Some? then metadata.value else map[]
  }

  /** A nil map becomes a map holding just the mark. */
  lemma NilMetadataMark(key: string)
    ensures WithMark(None, key) == map[key := ProcessedMetadataValue]
    ensures IsMarkedAsProcessed(Some(WithMark(None, key)), key)
  {
  }

  /** With distinct names, `Find` locates the one object named `path`. */
  lemma {:induction false} FindFirst(objects: seq<StoredObject>, path: string, i: nat)
    requires i < |objects| && objects[i].name == path
    requires forall a, b :: 0 <= a < b < |objects| ==> objects[a].name != objects[b].name
    ensures Find(objects, path) == Some(i)
    decreases i
  {
    if i > 0 {
      FindFirst(objects[1..], path, i - 1);
    }
  }

  /** Without an outage the listing is exactly the names of the unmarked
      objects, in bucket order; with one it is those among the objects read
      before the failure, and the failure. */
  lemma {:induction false} ListIsUnmarked(s: GcsState)
    ensures s.outage.None? ==> Unprocessed(s).1.None? && Unprocessed(s).0 == UnmarkedNames(s.objects, s.metadataKey)
    ensures s.outage.Some? ==> Unprocessed(s).1 == Some(Failed(s.outage.value.message))
    ensures forall n :: n in Unprocessed(s).0 <==>
      exists i :: 0 <= i < Reached(s) && s.objects[i].name == n && !IsMarkedAsProcessed(s.objects[i].metadata, s.metadataKey)
  {
    assert s.outage.None? ==> s.objects[..Reached(s)] == s.objects;
    UnmarkedMembers(s.objects[..Reached(s)], s.metadataKey);
  }

  lemma {:induction false} UnmarkedMembers(objects: seq<StoredObject>, key: string)
    ensures forall n :: n in UnmarkedNames(objects, key) <==>
      exists i :: 0 <= i < |objects| && objects[i].name == n && !IsMarkedAsProcessed(objects[i].metadata, key)
    decreases |objects|
  {
    if objects != [] {
      UnmarkedMembers(objects[1..], key);
      forall n ensures n in UnmarkedNames(objects, key) <==>
        exists i :: 0 <= i < |objects| && objects[i].name == n && !IsMarkedAsProcessed(objects[i].metadata, key)
      {
        if n in UnmarkedNames(objects[1..], key) {
          var j :| 0 <= j < |objects[1..]| && objects[1..][j].name == n && !IsMarkedAsProcessed(objects[1..][j].metadata, key);
          assert objects[j + 1] == objects[1..][j];
        }
        if exists i :: 0 <= i < |objects| && objects[i].name == n && !IsMarkedAsProcessed(objects[i].metadata, key) {
          var i :| 0 <= i < |objects| && objects[i].name == n && !IsMarkedAsProcessed(objects[i].metadata, key);
          if i > 0 {
            assert objects[1..][i - 1] == objects[i];
          }
        }
      }
    }
  }

  /** Object names are distinct, so the listing never names one twice. */
  lemma ListDistinct(s: GcsState)
    requires s.Valid()
    ensures NoDuplicates(Unprocessed(s).0)
  {
    UnmarkedDistinct(s.objects[..Reached(s)], s.metadataKey);
  }

  lemma {:induction false} UnmarkedDistinct(objects: seq<StoredObject>, key: string)
    requires forall i, j :: 0 <= i < j < |objects| ==> objects[i].name != objects[j].name
    ensures NoDuplicates(UnmarkedNames(objects, key))
    decreases |objects|
  {
    if objects != [] {
      var tail := objects[1..];
      UnmarkedDistinct(tail, key);
      UnmarkedMembers(tail, key);
      var rest := UnmarkedNames(tail, key);
      if !IsMarkedAsProcessed(objects[0].metadata, key) {
        assert forall i :: 0 <= i < |tail| ==> tail[i].name != objects[0].name by {
          forall i | 0 <= i < |tail| ensures tail[i].name != objects[0].name {
            assert tail[i] == objects[i + 1];
          }
        }
        assert objects[0].name !in rest;
        var r := [objects[0].name] + rest;
        forall i, j | 0 <= i < j < |r| ensures r[i] != r[j] {
          if i == 0 {
            assert r[j] == rest[j - 1];
          } else {
            assert r[i] == rest[i - 1] && r[j] == rest[j - 1];
          }
        }
      }
    }
  }

  /** A marked object drops out of the next listing. */
  lemma MarkHides(s: GcsState, path: string)
    requires s.Valid() && Marked(s, path).1.None?
    ensures path !in Unprocessed(Marked(s, path).0).0
  {
    var t := Marked(s, path).0;
    MarkKeepsMetadata(s, path);
    ListIsUnmarked(t);
    if path in Unprocessed(t).0 {
      var i :| 0 <= i < Reached(t) && t.objects[i].name == path && !IsMarkedAsProcessed(t.objects[i].metadata, t.metadataKey);
      FindFirst(t.objects, path, i);
      assert false;
    }
  }

  /** When the bucket can be read but not written, a delete and a mark of an
      existing object both fail with the write error and change nothing, so
      an unmarked file is listed again on the next pass. */
  lemma RefusedWriteRelists(s: GcsState, path: string)
    requires s.outage.None? && s.writeError.Some?
    ensures Removed(s, path) == (s, Some(Failed(s.writeError.value)))
    ensures Find(s.objects, path).Some? ==> Marked(s, path) == (s, Some(Failed(s.writeError.value)))
    ensures (exists i :: 0 <= i < |s.objects| && s.objects[i].name == path && !IsMarkedAsProcessed(s.objects[i].metadata, s.metadataKey)) ==>
      path in Unprocessed(Removed(s, path).0).0 && path in Unprocessed(Marked(s, path).0).0
  {
    ListIsUnmarked(s);
  }

  /** `gcpStorageProvider`: a client for one bucket. */
  class GcsStorageProvider {
    const bucket: string
    const metadataKey: string
    const outage: Option<Outage>
    const writeError: Option<string>
    var objects: seq<StoredObject>

    ghost function State(): GcsState
      reads this
    {
      GcsState(objects, outage, writeError, metadataKey)
    }

    ghost predicate Valid()
      reads this
    {
      State().Valid()
    }

    constructor (bucket: string, metadataKey: string, objects: seq<StoredObject>, outage: Option<Outage>,
                 writeError: Option<string>)
      requires GcsState(objects, outage, writeError, metadataKey).Valid()
      ensures Valid() && State() == GcsState(objects, outage, writeError, metadataKey) && this.bucket == bucket
    {
      this.bucket := bucket;
      this.metadataKey := metadataKey;
      this.outage := outage;
      this.writeError := writeError;
      this.objects := objects;
    }

    method GetAttrs(path: string) returns (r: Result<StoredObject, Error>)
      ensures r == Attrs(State(), path)
    {
      if outage.Some? {
        return Failure(Failed(outage.value.message));
      }
      match Find(objects, path)
      case None => r := Failure(ObjectNotExist);
      case Some(i) => r := Success(objects[i]);
    }

    method Read(path: string) returns (r: Result<Reader, Error>)
      ensures r == Opened(State(), path)
    {
      var attrs := GetAttrs(path);
      if attrs.Failure? {
        return Failure(attrs.error);
      }
      r := Success(attrs.value.contents);
    }

    method Remove(path: string) returns (err: MaybeError)
      requires Valid()
      modifies this
      ensures Valid()
      ensures (State(), err) == Removed(old(State()), path)
    {
      if outage.Some? {
        return Some(Failed(outage.value.message));
      }
      if writeError.Some? {
        return Some(Failed(writeError.value));
      }
      match Find(objects, path)
      case None =>
        err := Some(ObjectNotExist);
      case Some(i) =>
        objects := objects[..i] + objects[i + 1..];
        err := None;
    }

    method WasProcessed(path: string) returns (processed: bool, err: MaybeError)
      ensures (processed, err) == Lookup(State(), path)
    {
      var attrs := GetAttrs(path);
      if attrs.Failure? {
        return true, Some(attrs.error);
      }
      return IsMarkedAsProcessed(attrs.value.metadata, metadataKey), None;
    }

    method MarkProcessed(path: string) returns (err: MaybeError)
      requires Valid()
      modifies this
      ensures Valid()
      ensures (State(), err) == Marked(old(State()), path)
    {
      var attrs := GetAttrs(path);
      if attrs.Failure? {
        return Some(attrs.error);
      }
      if writeError.Some? {
        return Some(Failed(writeError.value));
      }
      var metadata := if attrs.value.metadata.Some? then attrs.value.metadata.value else map[];
      metadata := metadata[metadataKey := ProcessedMetadataValue];
      var i := Find(objects, path).value;
      objects := objects[i := objects[i].(metadata := Some(metadata))];
      err := None;
    }

    /** Walks the object iterator, skipping marked objects; an iterator
        error ends the walk with the names gathered so far. */
    method ListUnprocessed() returns (paths: seq<string>, err: MaybeError)
      ensures (paths, err) == Unprocessed(State())
    {
      // the iterator's end: the failure point of an outage, or Done
      var n := if outage.Some? && outage.value.after < |objects| then outage.value.after else |objects|;
      paths := WalkObjects(objects, n, metadataKey);
      err := if outage.Some? then Some(Failed(outage.value.message)) else None;
    }
  }

  /** The iterator loop: the names of the first n objects, skipping
      marked ones. */
  method WalkObjects(objects: seq<StoredObject>, n: nat, metadataKey: string) returns (paths: seq<string>)
    requires n <= |objects|
    ensures paths == UnmarkedNames(objects[..n], metadataKey)
  {
    paths := [];
    var i := 0;
    while i < n
      invariant 0 <= i <= n
      invariant UnmarkedNames(objects[..n], metadataKey) == paths + UnmarkedNames(objects[i..n], metadataKey)
    {
      var o := objects[i];
      UnmarkedStep(objects[i..n], metadataKey);
      assert objects[i..n][1..] == objects[i + 1..n];
      i := i + 1;
      if !IsMarkedAsProcessed(o.metadata, metadataKey) {
        paths := paths + [o.name];
      }
    }
    assert objects[i..n] == [] && paths + [] == paths;
  }

  /** `newGcpStorageProvider`: connects to the bucket; a client error gives
      no provider. `connect` stands for the client library. */
  method NewGcpStorageProvider(bucketId: string, metadataKey: string,
                               connect: string -> Result<(seq<StoredObject>, Option<Outage>, Option<string>), Error>)
    returns (r: Result<GcsStorageProvider, Error>)
    requires connect(bucketId).Success? ==> DistinctNames(connect(bucketId).value.0)
    ensures r.Failure? <==> connect(bucketId).Failure?
    ensures r.Failure? ==> r.error == connect(bucketId).error
    ensures r.Success? ==>
      fresh(r.value) && r.value.Valid() && r.value.bucket == bucketId &&
      r.value.State() == GcsState(connect(bucketId).value.0, connect(bucketId).value.1, connect(bucketId).value.2, metadataKey)
  {
    match connect(bucketId)
    case Failure(e) =>
      r := Failure(e);
    case Success(contents) =>
      var p := new GcsStorageProvider(bucketId, metadataKey, contents.0, contents.1, contents.2);
      r := Success(p);
  }
}
