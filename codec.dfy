/** The codec registry: the five codec ids, the `Codec` cursor interface
    over the five implementations, and `NewCodec`, which picks one by id. */
module Codec {
  import opened Wrappers
  import opened Io
  import opened JsonLib
  import opened Records
  import Bufio
  import Clob
  import Blob
  import JsonArray
  import JsonStream

  const JsonArrayCodecId := "json-array"
  const JsonStreamCodecId := "json-stream"
  const TextCodecId := "text"
  const ClobCodecId := "clob"
  const BlobCodecId := "blob"

  /** The implementation an id selects. */
  datatype Kind = JsonArrayKind | JsonStreamKind | TextKind | ClobKind | BlobKind

  /** The id that selects each implementation. */
  function IdOf(k: Kind): string
  {
    match k
    case JsonArrayKind => JsonArrayCodecId
    case JsonStreamKind => JsonStreamCodecId
    case TextKind => TextCodecId
    case ClobKind => ClobCodecId
    case BlobKind => BlobCodecId
  }

  /** `%q` of a string: in double quotes, with `"` and `\` escaped and the
      common control characters written as `\n`, `\t` and `\r`. */
  function Quote(s: string): (q: string)
    ensures |q| >= 2 && q[0] == '"' && q[|q| - 1] == '"'
  {
    "\"" + Escape(s) + "\""
  }

  function Escape(s: string): (e: string)
    ensures |e| >= |s|
    ensures (forall i :: 0 <= i < |s| ==> s[i] !in "\"\\\n\t\r") ==> e == s
    decreases |s|
  {
    if s == [] then []
    else
      var c := s[0];
      var head := if c == '"' then "\\\""
        else if c == '\\' then "\\\\"
        else if c == '\n' then "\\n"
        else if c == '\t' then "\\t"
        else if c == '\r' then "\\r"
        else [c];
      head + Escape(s[1..])
  }

  /** The `switch` of `NewCodec`: the implementation for a known id, and
      otherwise the error naming the id. */
  function Select(id: string): (r: Result<Kind, Error>)
    ensures r.Success? ==> IdOf(r.value) == id
    ensures r.Failure? ==> r.error == Failed("No such codec: " + Quote(id))
  {
    if id == JsonArrayCodecId then Success(JsonArrayKind)
    else if id == JsonStreamCodecId then Success(JsonStreamKind)
    else if id == TextCodecId then Success(TextKind)
    else if id == ClobCodecId then Success(ClobKind)
    else if id == BlobCodecId then Success(BlobKind)
    else Failure(Failed("No such codec: " + Quote(id)))
  }

  /** Every implementation is reachable, each by its own id. */
  lemma SelectIdOf(k: Kind)
    ensures Select(IdOf(k)) == Success(k)
  {
    // The ids differ in their length or their first letter.
    match k
    case JsonArrayKind =>
    case JsonStreamKind =>
      assert |JsonStreamCodecId| != |JsonArrayCodecId|;
    case TextKind =>
      assert TextCodecId[0] == 't';
    case ClobKind =>
      assert ClobCodecId[0] == 'c' && TextCodecId[0] == 't';
    case BlobKind =>
      assert BlobCodecId[0] == 'b' && TextCodecId[0] == 't' && ClobCodecId[0] == 'c';
  }

  /** The ids `NewCodec` accepts, in a fixed order; a fresh value on every
      call, so no caller can change another's. */
  function ValidCodecs(): (ids: seq<string>)
    ensures |ids| == 5 && NoDuplicates(ids)
    ensures forall id :: id in ids <==> Select(id).Success?
  {
    [JsonArrayCodecId, JsonStreamCodecId, TextCodecId, ClobCodecId, BlobCodecId]
  }

  /** The linear search of `IsValidCodec` over `ValidCodecs()`. */
  method IsValidCodec(codec: string) returns (valid: bool)
    ensures valid <==> codec in ValidCodecs()
    ensures valid <==> Select(codec).Success?
  {
    var ids := ValidCodecs();
    var i := 0;
    while i < |ids|
      invariant 0 <= i <= |ids|
      invariant codec !in ids[..i]
    {
      if ids[i] == codec {
        return true;
      }
      i := i + 1;
    }
    assert ids[..i] == ids;
    return false;
  }

  /** What the codec of `kind` produces for `input` when driven to the end. */
  ghost function DrainOf(kind: Kind, path: string, lib: JsonLibrary, input: Reader): Drain
  {
    match kind
    case JsonArrayKind => JsonArray.ArrayDrain(path, lib, input)
    case JsonStreamKind => JsonStream.StreamDrain(path, lib, input)
    case TextKind => Bufio.LineDrain(path, input)
    case ClobKind => Clob.ClobDrain(path, input)
    case BlobKind => Blob.BlobDrain(path, input)
  }

  /** Every record a codec produces carries the path it was built with and
      a line number from 1 up, one per record. */
  lemma {:induction false} DrainLines(kind: Kind, path: string, lib: JsonLibrary, input: Reader)
    ensures forall i :: 0 <= i < |DrainOf(kind, path, lib, input).records| ==>
      !DrainOf(kind, path, lib, input).records[i].Empty? &&
      DrainOf(kind, path, lib, input).records[i].line == i + 1 &&
      (DrainOf(kind, path, lib, input).records[i].TextEvent? ==> DrainOf(kind, path, lib, input).records[i].file == path) &&
      (DrainOf(kind, path, lib, input).records[i].JsonEvent? ==> DrainOf(kind, path, lib, input).records[i].path == path)
  {
    match kind
    case TextKind =>
      Bufio.LineDrainRecords(path, input);
    case JsonArrayKind =>
      Records.JsonRecordsAt(Records.DecodedObjects(lib.arrayElements(input)), path, 1);
    case JsonStreamKind =>
      Records.JsonRecordsAt(Records.DecodedObjects(lib.values(input)), path, 1);
    case _ =>
  }

  /** The `Codec` interface: a cursor over one of the five implementations. */
  datatype Cursor =
    | ArrayCursor(array: JsonArray.JsonArrayCodec)
    | StreamCursor(stream: JsonStream.JsonStreamCodec)
    | TextCursor(text: Bufio.BufioCodec)
    | ClobCursor(clob: Clob.ClobCodec)
    | BlobCursor(blob: Blob.BlobCodec)
  {
    function Kind(): Kind
    {
      match this
      case ArrayCursor(_) => JsonArrayKind
      case StreamCursor(_) => JsonStreamKind
      case TextCursor(_) => TextKind
      case ClobCursor(_) => ClobKind
      case BlobCursor(_) => BlobKind
    }

    /** The one object behind the cursor. */
    ghost function Repr(): set<object>
    {
      match this
      case ArrayCursor(c) => {c}
      case StreamCursor(c) => {c}
      case TextCursor(c) => {c}
      case ClobCursor(c) => {c}
      case BlobCursor(c) => {c}
    }

    ghost predicate Valid()
      reads Repr()
    {
      match this
      case ArrayCursor(c) => c.Valid()
      case StreamCursor(c) => c.Valid()
      case TextCursor(c) => c.Valid()
      case ClobCursor(c) => c.Valid()
      case BlobCursor(c) => c.Valid()
    }

    /** The records the remaining true `Next` calls will produce. */
    ghost function Future(): seq<Record>
      reads Repr()
    {
      match this
      case ArrayCursor(c) => c.Future()
      case StreamCursor(c) => c.Future()
      case TextCursor(c) => c.Future()
      case ClobCursor(c) => c.Future()
      case BlobCursor(c) => c.Future()
    }

    /** What `Err` reports once `Next` has returned false. */
    ghost function Final(): MaybeError
      reads Repr()
    {
      match this
      case ArrayCursor(c) => c.Final()
      case StreamCursor(c) => c.Final()
      case TextCursor(c) => c.Final()
      case ClobCursor(c) => c.Final()
      case BlobCursor(c) => c.Final()
    }

    /** Moves to the next record: true, with that record as `Value()`,
        while records remain; false, with `Err()` final, at the end. */
    method Next() returns (more: bool)
      requires Valid()
      modifies Repr()
      ensures Valid()
      ensures more == (old(Future()) != []) && Final() == old(Final())
      ensures more ==> Value() == old(Future())[0] && Future() == old(Future())[1..]
      ensures !more ==> Future() == [] && Err() == Final()
    {
      match this
      case ArrayCursor(c) => more := c.Next();
      case StreamCursor(c) => more := c.Next();
      case TextCursor(c) => more := c.Next();
      case ClobCursor(c) => more := c.Next();
      case BlobCursor(c) => more := c.Next();
    }

    function Value(): Record
      requires Valid()
      reads Repr()
    {
      match this
      case ArrayCursor(c) => c.Value()
      case StreamCursor(c) => c.Value()
      case TextCursor(c) => c.Value()
      case ClobCursor(c) => c.Value()
      case BlobCursor(c) => c.Value()
    }

    function Err(): MaybeError
      reads Repr()
    {
      match this
      case ArrayCursor(c) => c.Err()
      case StreamCursor(c) => c.Err()
      case TextCursor(c) => c.Err()
      case ClobCursor(c) => c.Err()
      case BlobCursor(c) => c.Err()
    }
  }

  /** `NewCodec`: a fresh cursor of the kind the id selects, positioned
      before the first record of that kind's drain; an unknown id gives no
      codec and the error naming it. */
  method NewCodec(codec: string, filename: string, lib: JsonLibrary, reader: Reader)
    returns (r: Result<Cursor, Error>)
    ensures r.Success? <==> Select(codec).Success?
    ensures r.Failure? ==> r == Failure(Select(codec).error)
    ensures r.Success? ==>
      r.value.Kind() == Select(codec).value && r.value.Valid() && fresh(r.value.Repr()) &&
      r.value.Future() == DrainOf(r.value.Kind(), filename, lib, reader).records &&
      r.value.Final() == DrainOf(r.value.Kind(), filename, lib, reader).err
  {
    match Select(codec)
    case Failure(e) =>
      r := Failure(e);
    case Success(JsonArrayKind) =>
      var c := new JsonArray.JsonArrayCodec(filename, lib, reader);
      r := Success(ArrayCursor(c));
    case Success(JsonStreamKind) =>
      var c := new JsonStream.JsonStreamCodec(filename, lib, reader);
      r := Success(StreamCursor(c));
    case Success(TextKind) =>
      var c := new Bufio.BufioCodec(filename, reader);
      r := Success(TextCursor(c));
    case Success(ClobKind) =>
      var c := new Clob.ClobCodec(filename, reader);
      r := Success(ClobCursor(c));
    case Success(BlobKind) =>
      var c := new Blob.BlobCodec(filename, reader);
      r := Success(BlobCursor(c));
  }
}
