/** The JSON array codec (`json-array`): one record per element of a
    top-level JSON array of objects. */
module JsonArray {
  import opened Wrappers
  import opened Io
  import opened JsonLib
  import opened Records

  const InvalidStart := "Invalid start token for array parsing."

  /** The error `init` leaves behind: the start-token error whenever the
      first token does not print as `[`, and otherwise none. A failed
      `Token()` yields a nil token, which never prints as `[`, so its own
      error is always replaced. */
  function StartError(t: Result<Token, Error>): MaybeError
  {
    if TokenText(t) != "[" then Some(Failed(InvalidStart)) else None
  }

  /** `init` accepts exactly the `[` delimiter, and also a JSON string
      whose text is `[`, since both print as `[`. */
  lemma StartAccepts(t: Result<Token, Error>)
    ensures StartError(t).None? <==> t == Success(Delim('[')) || t == Success(Literal(String("[")))
  {
    match t
    case Failure(_) =>
      assert TokenText(t) != "[" by { assert |TokenText(t)| != 1; }
    case Success(Literal(Bool(b))) =>
      assert |TokenText(t)| > 1;
    case Success(Literal(Number(n))) =>
      assert |TokenText(t)| > 1;
    case Success(Literal(Null)) =>
      assert |TokenText(t)| > 1;
    case Success(Literal(Array(_))) =>
      assert |TokenText(t)| > 1;
    case Success(Literal(Object(_))) =>
      assert |TokenText(t)| > 1;
    case Success(_) =>
  }

  /** The first tokens of `a`, `"a"`, `{"foo":44}`, `][`, `true` and `33`
      all fail `init`, and so does a failed `Token()` on empty input. */
  lemma RejectedStarts(e: Error)
    ensures StartError(Success(Literal(String("a")))).Some?
    ensures StartError(Success(Delim('{'))).Some?
    ensures StartError(Success(Delim(']'))).Some?
    ensures StartError(Success(Literal(Bool(true)))).Some?
    ensures StartError(Success(Literal(Number("33")))).Some?
    ensures StartError(Failure(e)).Some?
  {
    StartAccepts(Success(Literal(String("a"))));
    StartAccepts(Success(Delim('{')));
    StartAccepts(Success(Delim(']')));
    StartAccepts(Success(Literal(Bool(true))));
    StartAccepts(Success(Literal(Number("33"))));
    StartAccepts(Failure(e));
  }

  /** What the array codec produces: nothing and the start error when the
      input does not open with `[`; otherwise one record per element up to
      the first that fails to decode, numbered from 1, and that failure. */
  function ArrayDrain(path: string, lib: JsonLibrary, input: Reader): Drain
  {
    var start := StartError(lib.firstToken(input));
    if start.Some? then Drain([], start)
    else
      var ds := lib.arrayElements(input);
      Drain(JsonRecords(DecodedObjects(ds), path, 1), FirstFailure(ds))
  }

  /** N well-formed elements give N records, lines 1..N, and no error;
      the empty array gives none. */
  lemma WellFormedArray(path: string, lib: JsonLibrary, input: Reader)
    requires StartError(lib.firstToken(input)).None?
    requires forall i :: 0 <= i < |lib.arrayElements(input)| ==> lib.arrayElements(input)[i].Decoded?
    ensures ArrayDrain(path, lib, input).err.None?
    ensures |ArrayDrain(path, lib, input).records| == |lib.arrayElements(input)|
    ensures forall i :: 0 <= i < |lib.arrayElements(input)| ==>
      ArrayDrain(path, lib, input).records[i] == JsonEvent(lib.arrayElements(input)[i].obj, i + 1, path)
  {
    JsonRecordsAt(DecodedObjects(lib.arrayElements(input)), path, 1);
  }

  /** A failing element ends the array: the records before it stand and
      its error is reported; `[{"foo":}]` is the case with none before. */
  lemma FailureIsTerminal(path: string, lib: JsonLibrary, input: Reader, objs: seq<JsonObject>, e: Error, more: seq<Decoded>)
    requires StartError(lib.firstToken(input)).None?
    requires lib.arrayElements(input) == Decodes(objs) + [DecodeFailed(e)] + more
    ensures ArrayDrain(path, lib, input) == Drain(JsonRecords(objs, path, 1), Some(e))
  {
    DecodesPrefix(objs, [DecodeFailed(e)] + more);
    assert Decodes(objs) + [DecodeFailed(e)] + more == Decodes(objs) + ([DecodeFailed(e)] + more);
  }

  /** The successful decode answers for `objs`. */
  function Decodes(objs: seq<JsonObject>): (ds: seq<Decoded>)
    ensures |ds| == |objs| && forall i :: 0 <= i < |objs| ==> ds[i] == Decoded(objs[i])
  {
    seq(|objs|, i requires 0 <= i < |objs| => Decoded(objs[i]))
  }

  /** Successful answers followed by one that starts with a failure. */
  lemma {:induction false} DecodesPrefix(objs: seq<JsonObject>, tail: seq<Decoded>)
    requires tail != [] && tail[0].DecodeFailed?
    ensures DecodedObjects(Decodes(objs) + tail) == objs
    ensures FirstFailure(Decodes(objs) + tail) == Some(tail[0].err)
    decreases |objs|
  {
    var ds := Decodes(objs) + tail;
    if objs != [] {
      assert ds[1..] == Decodes(objs[1..]) + tail;
      DecodesPrefix(objs[1..], tail);
      assert objs == [objs[0]] + objs[1..];
    } else {
      assert ds == tail;
    }
  }

  /** One decode step, seen through the drain: a decoded element is the
      next record and leaves the failure ahead unchanged; a failed one ends
      the records and is the failure. */
  lemma ArrayStep(rest: seq<Decoded>, path: string, n: int)
    requires rest != []
    ensures var future := JsonRecords(DecodedObjects(rest), path, n + 1);
      rest[0].Decoded? ==>
        future != [] && future[0] == JsonEvent(rest[0].obj, n + 1, path) &&
        future[1..] == JsonRecords(DecodedObjects(rest[1..]), path, n + 2) &&
        FirstFailure(rest) == FirstFailure(rest[1..])
    ensures rest[0].DecodeFailed? ==>
      JsonRecords(DecodedObjects(rest), path, n + 1) == [] && FirstFailure(rest) == Some(rest[0].err)
  {
  }

  /** A `json.Decoder` walking the elements of an array. `rest` is the
      decoder's position: the answers its remaining `Decode` calls give
      while `More()` holds. */
  class JsonArrayCodec {
    const path: string
    var rest: seq<Decoded>
    var value: Record
    var err: MaybeError
    var lineNumber: int

    /** The value is the empty map until the first decode, then the record
        of the last decode attempt. */
    ghost predicate Valid()
      reads this
    {
      lineNumber >= 0 &&
      (value.Empty? <==> lineNumber == 0) &&
      (value.JsonEvent? ==> value.line == lineNumber && value.path == path) &&
      !value.TextEvent?
    }

    /** The records the remaining true `Next` calls will produce. */
    ghost function Future(): seq<Record>
      reads this
    {
      if err.Some? then [] else JsonRecords(DecodedObjects(rest), path, lineNumber + 1)
    }

    /** What `Err` reports once `Next` has returned false. */
    ghost function Final(): MaybeError
      reads this
    {
      if err.Some? then err else FirstFailure(rest)
    }

    /** `NewJsonArrayCodec`: builds the decoder, then `init` consumes the
        first token. */
    constructor (path: string, lib: JsonLibrary, input: Reader)
      ensures Valid()
      ensures this.path == path && lineNumber == 0 && value == Empty
      ensures err == StartError(lib.firstToken(input)) && rest == lib.arrayElements(input)
      ensures Err().Some? <==> TokenText(lib.firstToken(input)) != "["
      ensures Future() == ArrayDrain(path, lib, input).records && Final() == ArrayDrain(path, lib, input).err
    {
      this.path := path;
      value := Empty;
      lineNumber := 0;
      rest := lib.arrayElements(input);
      err := None;
      new;
      Init(lib.firstToken(input));
    }

    /** `init`: records the token error, then replaces it with the start
        error unless the token prints as `[`. */
    method Init(token: Result<Token, Error>)
      modifies this
      ensures err == StartError(token)
      ensures rest == old(rest) && value == old(value) && lineNumber == old(lineNumber)
    {
      err := if token.Failure? then Some(token.error) else None;
      if TokenText(token) != "[" {
        err := Some(Failed(InvalidStart));
      }
    }

    /** Stops on a recorded error or at the end of the array; otherwise
        decodes one element into a fresh map and counts the attempt. */
    method Next() returns (more: bool)
      requires Valid()
      modifies this
      ensures Valid()
      ensures old(err).Some? || old(rest) == [] ==>
        !more && err == old(err) && rest == old(rest) && value == old(value) && lineNumber == old(lineNumber)
      ensures old(err).None? && old(rest) != [] ==>
        lineNumber == old(lineNumber) + 1 && rest == old(rest)[1..] &&
        err == (if old(rest)[0].DecodeFailed? then Some(old(rest)[0].err) else None) &&
        value == JsonEvent(if old(rest)[0].Decoded? then old(rest)[0].obj else map[], lineNumber, path) &&
        more == err.None?
      ensures more ==> Value() == old(Future())[0] && Future() == old(Future())[1..]
      ensures !more ==> Future() == [] && Err() == Final()
      ensures more == (old(Future()) != []) && Final() == old(Final())
    {
      if err.Some? || rest == [] {
        return false;
      }
      ArrayStep(rest, path, lineNumber);
      more := Decode();
    }

    /** One `Decode` call into a fresh map: the next answer becomes the
        value, numbered one past the last, and its error the codec's. */
    method Decode() returns (more: bool)
      requires Valid() && err.None? && rest != []
      modifies this
      ensures Valid()
      ensures lineNumber == old(lineNumber) + 1 && rest == old(rest)[1..]
      ensures err == (if old(rest)[0].DecodeFailed? then Some(old(rest)[0].err) else None)
      ensures value == JsonEvent(if old(rest)[0].Decoded? then old(rest)[0].obj else map[], lineNumber, path)
      ensures more == err.None?
    {
      var d := rest[0];
      rest := rest[1..];
      var jsonData: JsonObject := map[];
      if d.Decoded? {
        jsonData := d.obj;
        err := None;
      } else {
        err := Some(d.err);
      }
      lineNumber := lineNumber + 1;
      value := JsonEvent(jsonData, lineNumber, path);
      more := err.None?;
    }

    /** The record of the last decode attempt; the empty map before any. */
    function Value(): (r: Record)
      requires Valid()
      reads this
      ensures r.Empty? <==> lineNumber == 0
      ensures !r.Empty? ==> r.Keys() == {"json", "line", "path"} && r.line == lineNumber && r.path == path
    {
      value
    }

    function Err(): (r: MaybeError)
      reads this
      ensures r == err
    {
      err
    }
  }
}
