/** The JSON stream codec (`json-stream`): one record per top-level JSON
    object, the objects concatenated or separated by whitespace. */
module JsonStream {
  import opened Wrappers
  import opened Io
  import opened JsonLib
  import opened Records

  /** `Err`'s view of the stored error: `io.EOF` is the normal end of the
      stream and reads as no error; any other error is reported as is. */
  function Mask(e: MaybeError): (r: MaybeError)
    ensures e == Some(EOF) ==> r.None?
    ensures e != Some(EOF) ==> r == e
  {
    if e == Some(EOF) then None else e
  }

  /** The answer of the decode after `ds`: `Decode` reports `io.EOF` once
      the input is used up. */
  function EndOf(ds: seq<Decoded>): Error
  {
    match FirstFailure(ds)
    case Some(e) => e
    case None => EOF
  }

  /** What the stream codec produces: one record per object up to the first
      failed decode, numbered from 1, then that failure with `io.EOF`
      masked. */
  function StreamDrain(path: string, lib: JsonLibrary, input: Reader): Drain
  {
    var ds := lib.values(input);
    Drain(JsonRecords(DecodedObjects(ds), path, 1), Mask(Some(EndOf(ds))))
  }

  /** A stream of well-formed objects, in any number (none included), ends
      cleanly: N objects give N records, lines 1..N, and no error. */
  lemma WellFormedStream(path: string, lib: JsonLibrary, input: Reader)
    requires forall i :: 0 <= i < |lib.values(input)| ==> lib.values(input)[i].Decoded?
    ensures StreamDrain(path, lib, input).err.None?
    ensures |StreamDrain(path, lib, input).records| == |lib.values(input)|
    ensures forall i :: 0 <= i < |lib.values(input)| ==>
      StreamDrain(path, lib, input).records[i] == JsonEvent(lib.values(input)[i].obj, i + 1, path)
  {
    JsonRecordsAt(DecodedObjects(lib.values(input)), path, 1);
  }

  /** A failure other than `io.EOF` is reported, after the records before
      it: `{"foo":"bar"}aaa` gives one record then an error, `"foo":` none. */
  lemma CorruptStream(path: string, lib: JsonLibrary, input: Reader, k: nat, message: string)
    requires k < |lib.values(input)| && lib.values(input)[k] == DecodeFailed(Failed(message))
    requires forall i :: 0 <= i < k ==> lib.values(input)[i].Decoded?
    ensures |StreamDrain(path, lib, input).records| == k
    ensures StreamDrain(path, lib, input).err == Some(Failed(message))
  {
    var ds := lib.values(input);
    FirstFailureAt(ds, k);
  }

  lemma {:induction false} FirstFailureAt(ds: seq<Decoded>, k: nat)
    requires k < |ds| && ds[k].DecodeFailed?
    requires forall i :: 0 <= i < k ==> ds[i].Decoded?
    ensures |DecodedObjects(ds)| == k && FirstFailure(ds) == Some(ds[k].err)
    decreases k
  {
    if k > 0 {
      FirstFailureAt(ds[1..], k - 1);
    }
  }

  /** A `json.Decoder` over a stream of values. `rest` is the decoder's
      position: the answers its remaining `Decode` calls give before the
      input is used up. */
  class JsonStreamCodec {
    const path: string
    var rest: seq<Decoded>
    var value: Record
    var err: MaybeError
    var lineNumber: int

    /** The value is nil until the first decode, then the record of the
        last decode attempt. */
    ghost predicate Valid()
      reads this
    {
      lineNumber >= 0 &&
      (value.Empty? <==> lineNumber == 0) &&
      (value.JsonEvent? ==> value.line == lineNumber && value.path == path) &&
      !value.TextEvent?
    }

    /** The records the remaining true `Next` calls will produce. */
    ghost function Future(): seq<Record>
      reads this
    {
      if err.Some? then [] else JsonRecords(DecodedObjects(rest), path, lineNumber + 1)
    }

    /** What `Err` reports once `Next` has returned false. */
    ghost function Final(): MaybeError
      reads this
    {
      Mask(if err.Some? then err else Some(EndOf(rest)))
    }

    /** `NewJsonStreamCodec`: no read, and no error, at construction. */
    constructor (path: string, lib: JsonLibrary, input: Reader)
      ensures Valid()
      ensures this.path == path && lineNumber == 0 && value == Empty && rest == lib.values(input)
      ensures Err().None?
      ensures Future() == StreamDrain(path, lib, input).records && Final() == StreamDrain(path, lib, input).err
    {
      this.path := path;
      rest := lib.values(input);
      value := Empty;
      err := None;
      lineNumber := 0;
    }

    /** Stops on a recorded error (`io.EOF` included); otherwise decodes the
        next value into a fresh map and counts the attempt, the one that
        meets the end of the input too. */
    method Next() returns (more: bool)
      requires Valid()
      modifies this
      ensures Valid()
      ensures old(err).Some? ==>
        !more && err == old(err) && rest == old(rest) && value == old(value) && lineNumber == old(lineNumber)
      ensures old(err).None? && old(rest) == [] ==>
        !more && err == Some(EOF) && lineNumber == old(lineNumber) + 1 && value == JsonEvent(map[], lineNumber, path)
      ensures old(err).None? && old(rest) != [] ==>
        lineNumber == old(lineNumber) + 1 && rest == old(rest)[1..] &&
        err == (if old(rest)[0].DecodeFailed? then Some(old(rest)[0].err) else None) &&
        value == JsonEvent(if old(rest)[0].Decoded? then old(rest)[0].obj else map[], lineNumber, path) &&
        more == err.None?
      ensures more ==> Value() == old(Future())[0] && Future() == old(Future())[1..]
      ensures !more ==> Future() == [] && Err() == Final()
      ensures more == (old(Future()) != []) && Final() == old(Final())
    {
      if err.Some? {
        return false;
      }
      var d := if rest == [] then DecodeFailed(EOF) else rest[0];
      if rest != [] {
        rest := rest[1..];
      }
      var jsonData: JsonObject := map[];
      if d.Decoded? {
        jsonData := d.obj;
        err := None;
      } else {
        err := Some(d.err);
      }
      lineNumber := lineNumber + 1;
      value := JsonEvent(jsonData, lineNumber, path);
      more := err.None?;
    }

    /** The record of the last decode attempt; nil before any. */
    function Value(): (r: Record)
      requires Valid()
      reads this
      ensures r.Empty? <==> lineNumber == 0
      ensures !r.Empty? ==> r.Keys() == {"json", "line", "path"} && r.line == lineNumber && r.path == path
    {
      value
    }

    function Err(): (e: MaybeError)
      reads this
      ensures e.None? <==> err.None? || err == Some(EOF)
      ensures e.Some? ==> e == err
    {
      Mask(err)
    }
  }
}
