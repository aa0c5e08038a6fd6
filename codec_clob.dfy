/** The whole-file text codec (`clob`): the entire input as one record. */
module Clob {
  import opened Wrappers
  import opened Io
  import opened Records

  /** The record the constructor builds once: the whole input as text, or
      empty text when the read fails; always line 1. */
  function ClobEvent(path: string, input: Reader): (r: Record)
    ensures r.TextEvent? && r.file == path && r.line == 1
    ensures input.failure.None? ==> r.event == AsText(input.data)
    ensures input.failure.Some? ==> r.event == ""
  {
    TextEvent(if input.ReadError().None? then AsText(input.data) else "", path, 1)
  }

  /** What the clob codec produces: exactly one record on a successful
      read, none and the read error otherwise. */
  function ClobDrain(path: string, input: Reader): (d: Drain)
    ensures input.failure.None? ==> d == Drain([TextEvent(AsText(input.data), path, 1)], None)
    ensures input.failure.Some? ==> d.records == [] && d.err == Some(Failed(input.failure.value))
  {
    var err := input.ReadError();
    Drain(if err.None? then [ClobEvent(path, input)] else [], err)
  }

  /** Empty input still yields one record, with empty text, and no error. */
  lemma EmptyInputIsOneRecord(path: string)
    ensures ClobDrain(path, Reader([], None)) == Drain([TextEvent("", path, 1)], None)
  {
  }

  /** The event is the whole input unchanged, newlines included. */
  lemma WholeInputIsTheEvent(path: string)
    ensures ClobDrain(path, Reader(FromText("\tfoo\nbar \nba zz"), None)).records
         == [TextEvent("\tfoo\nbar \nba zz", path, 1)]
  {
  }

  class ClobCodec {
    const event: Record
    const err: MaybeError
    /** The one-shot latch: the record has not been handed out yet. */
    var hasMore: bool

    /** The event is a line-1 text record, whatever the read did. */
    ghost predicate Valid()
      reads this
    {
      event.TextEvent? && event.line == 1
    }

    ghost function Future(): seq<Record>
      reads this
    {
      if hasMore then [event] else []
    }

    ghost function Final(): MaybeError
      reads this
    {
      err
    }

    /** Reads the whole input at construction. */
    constructor (path: string, input: Reader)
      ensures Valid()
      ensures event == ClobEvent(path, input) && err == input.ReadError()
      ensures hasMore == input.failure.None?
      ensures Future() == ClobDrain(path, input).records && Final() == ClobDrain(path, input).err
    {
      event := ClobEvent(path, input);
      err := input.ReadError();
      hasMore := input.ReadError().None?;
    }

    /** True exactly once, and only if the read succeeded. */
    method Next() returns (more: bool)
      requires Valid()
      modifies this
      ensures Valid()
      ensures more == old(hasMore) && !hasMore
      ensures more ==> Value() == old(Future())[0] && Future() == old(Future())[1..]
      ensures !more ==> Future() == [] && Err() == Final()
      ensures more == (old(Future()) != []) && Final() == old(Final())
    {
      more := hasMore;
      hasMore := false;
    }

    /** The same event on every call, before and after `Next`. */
    function Value(): (r: Record)
      requires Valid()
      reads this
      ensures r.Keys() == {"event", "file", "line"} && r.line == 1
    {
      event
    }

    /** The read error, reported from construction on. */
    function Err(): (r: MaybeError)
      ensures r == err
    {
      err
    }
  }
}
