/** The whole-file binary codec (`blob`): the entire input, base 64
    encoded, as one record. */
module Blob {
  import opened Wrappers
  import opened Io
  import opened Records
  import Base64

  /** The record the constructor builds once: the input in standard padded
      base 64, or empty text when the read fails; always line 1. */
  function BlobEvent(path: string, input: Reader): (r: Record)
    ensures r.TextEvent? && r.file == path && r.line == 1
    ensures input.failure.Some? ==> r.event == ""
  {
    TextEvent(if input.ReadError().None? then Base64.Encode(input.data) else "", path, 1)
  }

  /** What the blob codec produces: exactly one record on a successful
      read, none and the read error otherwise. */
  function BlobDrain(path: string, input: Reader): (d: Drain)
    ensures input.failure.None? <==> |d.records| == 1
    ensures input.failure.Some? ==> d.records == [] && d.err == Some(Failed(input.failure.value))
    ensures input.failure.None? ==> d.err.None?
  {
    var err := input.ReadError();
    Drain(if err.None? then [BlobEvent(path, input)] else [], err)
  }

  /** The event text decodes back to exactly the bytes read. */
  lemma EventDecodesToInput(path: string, input: Reader)
    requires input.failure.None?
    ensures Base64.Decode(BlobDrain(path, input).records[0].event) == Some(input.data)
  {
    Base64.RoundTrip(input.data);
  }

  /** The event text is four characters per started group of three bytes. */
  lemma EventLength(path: string, input: Reader)
    requires input.failure.None?
    ensures |BlobDrain(path, input).records[0].event| == 4 * ((|input.data| + 2) / 3)
  {
    Base64.EncodeLength(input.data);
  }

  /** Empty input still yields one record, with empty text. */
  lemma EmptyInputIsOneRecord(path: string)
    ensures BlobDrain(path, Reader([], None)) == Drain([TextEvent("", path, 1)], None)
  {
  }

  class BlobCodec {
    const event: Record
    const err: MaybeError
    /** The one-shot latch: the record has not been handed out yet. */
    var hasMore: bool

    /** The event is a line-1 text record, whatever the read did. */
    ghost predicate Valid()
      reads this
    {
      event.TextEvent? && event.line == 1
    }

    ghost function Future(): seq<Record>
      reads this
    {
      if hasMore then [event] else []
    }

    ghost function Final(): MaybeError
      reads this
    {
      err
    }

    /** Reads and encodes the whole input at construction. */
    constructor (path: string, input: Reader)
      ensures Valid()
      ensures event == BlobEvent(path, input) && err == input.ReadError()
      ensures hasMore == input.failure.None?
      ensures Future() == BlobDrain(path, input).records && Final() == BlobDrain(path, input).err
    {
      event := BlobEvent(path, input);
      err := input.ReadError();
      hasMore := input.ReadError().None?;
    }

    /** True exactly once, and only if the read succeeded. */
    method Next() returns (more: bool)
      requires Valid()
      modifies this
      ensures Valid()
      ensures more == old(hasMore) && !hasMore
      ensures more ==> Value() == old(Future())[0] && Future() == old(Future())[1..]
      ensures !more ==> Future() == [] && Err() == Final()
      ensures more == (old(Future()) != []) && Final() == old(Final())
    {
      more := hasMore;
      hasMore := false;
    }

    /** The same event on every call, before and after `Next`. */
    function Value(): (r: Record)
      requires Valid()
      reads this
      ensures r.Keys() == {"event", "file", "line"} && r.line == 1
    {
      event
    }

    /** The read error, reported from construction on. */
    function Err(): (r: MaybeError)
      ensures r == err
    {
      err
    }
  }
}
