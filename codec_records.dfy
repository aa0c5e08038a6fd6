/** The records (`common.MapStr` values) the codecs produce, and the
    vocabulary shared by the codec specifications. */
module Records {
  import opened Wrappers
  import opened JsonLib

  /** A record as a codec's `Value()` returns it. The text codecs build the
      map `{"event", "file", "line"}`, the JSON codecs `{"json", "line",
      "path"}`; `Empty` is the empty map a JSON array codec holds before its
      first decode. */
  datatype Record =
    | Empty
    | TextEvent(event: string, file: string, line: int)
    | JsonEvent(json: JsonObject, line: int, path: string)
  {
    /** The keys of the map. */
    function Keys(): set<string>
    {
      match this
      case Empty => {}
      case TextEvent(_, _, _) => {"event", "file", "line"}
      case JsonEvent(_, _, _) => {"json", "line", "path"}
    }
  }

  /** Everything a codec produces when driven to the end: the records of
      its true `Next` calls, in order, and what `Err` reports afterwards. */
  datatype Drain = Drain(records: seq<Record>, err: MaybeError)

  /** The objects decoded before the first decode failure. */
  function DecodedObjects(ds: seq<Decoded>): (objs: seq<JsonObject>)
    ensures |objs| <= |ds|
    ensures forall i :: 0 <= i < |objs| ==> ds[i] == Decoded(objs[i])
    ensures |objs| < |ds| ==> ds[|objs|].DecodeFailed?
    decreases |ds|
  {
    if ds == [] || ds[0].DecodeFailed? then [] else [ds[0].obj] + DecodedObjects(ds[1..])
  }

  /** The error of the first decode failure, if there is one. */
  function FirstFailure(ds: seq<Decoded>): (e: MaybeError)
    ensures e.None? <==> |DecodedObjects(ds)| == |ds|
    ensures e.Some? ==> ds[|DecodedObjects(ds)|] == DecodeFailed(e.value)
    decreases |ds|
  {
    if ds == [] then None
    else if ds[0].DecodeFailed? then Some(ds[0].err)
    else FirstFailure(ds[1..])
  }

  /** JSON records for `objs`, numbered from `first`. */
  function JsonRecords(objs: seq<JsonObject>, path: string, first: int): (rs: seq<Record>)
    ensures |rs| == |objs|
    decreases |objs|
  {
    if objs == [] then [] else [JsonEvent(objs[0], first, path)] + JsonRecords(objs[1..], path, first + 1)
  }

  /** The record at index i is object i, numbered `first + i`. */
  lemma {:induction false} JsonRecordsAt(objs: seq<JsonObject>, path: string, first: int)
    ensures forall i :: 0 <= i < |objs| ==> JsonRecords(objs, path, first)[i] == JsonEvent(objs[i], first + i, path)
    decreases |objs|
  {
    if objs != [] {
      JsonRecordsAt(objs[1..], path, first + 1);
    }
  }
}
