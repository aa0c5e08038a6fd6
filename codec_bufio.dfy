/** The line codec (`text`): a `bufio.Scanner` over the input, one record
    per line, numbered from 1. */
module Bufio {
  import opened Wrappers
  import opened Io
  import opened Records

  /** The length of the first line of `d`: the index of the first `\n`,
      or `|d|` when there is none. */
  function LineEnd(d: seq<byte>): (i: nat)
    ensures i <= |d|
    ensures i < |d| ==> d[i] == Newline
    ensures forall k :: 0 <= k < i ==> d[k] != Newline
    decreases |d|
  {
    if d == [] || d[0] == Newline then 0 else 1 + LineEnd(d[1..])
  }

  /** The tokens `bufio.ScanLines` splits `d` into: the text between
      newlines, the newline dropped; a last line without a newline still
      counts, and a final newline does not start an empty line. */
  function Lines(d: seq<byte>): seq<seq<byte>>
    decreases |d|
  {
    if d == [] then []
    else
      var i := LineEnd(d);
      if i == |d| then [d] else [d[..i]] + Lines(d[i + 1..])
  }

  /** The lines put back together, a newline between each two. */
  function Join(ls: seq<seq<byte>>): seq<byte>
    decreases |ls|
  {
    if ls == [] then []
    else if |ls| == 1 then ls[0]
    else ls[0] + [Newline] + Join(ls[1..])
  }

  predicate NoNewline(l: seq<byte>)
  {
    forall k :: 0 <= k < |l| ==> l[k] != Newline
  }

  /** No line holds a newline. */
  lemma {:induction false} LinesHaveNoNewline(d: seq<byte>)
    ensures forall j :: 0 <= j < |Lines(d)| ==> NoNewline(Lines(d)[j])
    decreases |d|
  {
    if d != [] && LineEnd(d) < |d| {
      LinesHaveNoNewline(d[LineEnd(d) + 1..]);
    }
  }

  /** Joining the lines gives the input back, less a final newline. */
  lemma {:induction false} JoinLines(d: seq<byte>)
    requires d != []
    ensures Join(Lines(d)) + (if d[|d| - 1] == Newline then [Newline] else []) == d
    decreases |d|
  {
    var i := LineEnd(d);
    if i < |d| {
      var rest := d[i + 1..];
      assert Lines(d) == [d[..i]] + Lines(rest);
      if rest == [] {
        SplitAt(d, i);
      } else {
        JoinLines(rest);
        JoinLinesStep(d, i, rest);
      }
    }
  }

  lemma JoinLinesStep(d: seq<byte>, i: nat, rest: seq<byte>)
    requires i < |d| && d[i] == Newline && rest == d[i + 1..] && rest != []
    requires Join(Lines(rest)) + (if rest[|rest| - 1] == Newline then [Newline] else []) == rest
    ensures Join([d[..i]] + Lines(rest)) + (if d[|d| - 1] == Newline then [Newline] else []) == d
  {
    var suffix: seq<byte> := if rest[|rest| - 1] == Newline then [Newline] else [];
    assert d[|d| - 1] == rest[|rest| - 1];
    JoinCons(d[..i], Lines(rest));
    Glue(d, i, Join(Lines(rest)), suffix);
  }

  lemma JoinCons(head: seq<byte>, tail: seq<seq<byte>>)
    requires tail != []
    ensures Join([head] + tail) == head + [Newline] + Join(tail)
  {
    assert ([head] + tail)[1..] == tail;
  }

  /** A line, its newline and what follows make up the whole input. */
  lemma Glue(d: seq<byte>, i: nat, t: seq<byte>, suffix: seq<byte>)
    requires i < |d| && d[i] == Newline && t + suffix == d[i + 1..]
    ensures d[..i] + [Newline] + t + suffix == d
  {
    assert d[..i] + [Newline] + t + suffix == d[..i] + [d[i]] + (t + suffix);
    SplitAt(d, i);
  }

  lemma SplitAt(d: seq<byte>, i: nat)
    requires i < |d|
    ensures d == d[..i] + [d[i]] + d[i + 1..]
  {
    assert d[..i] + [d[i]] == d[..i + 1];
  }

  /** Splitting joined lines gives them back, when none holds a newline and
      the last is not empty. */
  lemma {:induction false} LinesOfJoin(ls: seq<seq<byte>>)
    requires ls != [] && ls[|ls| - 1] != []
    requires forall j :: 0 <= j < |ls| ==> NoNewline(ls[j])
    ensures Lines(Join(ls)) == ls
    decreases |ls|
  {
    var d := Join(ls);
    if |ls| == 1 {
      assert LineEnd(d) == |d|;
    } else {
      var head := ls[0];
      assert d == head + [Newline] + Join(ls[1..]);
      LineEndOf(head, Join(ls[1..]));
      assert d[..|head|] == head;
      assert d[|head| + 1..] == Join(ls[1..]);
      LinesOfJoin(ls[1..]);
      JoinNonEmpty(ls[1..]);
      assert ls == [head] + ls[1..];
    }
  }

  lemma LineEndOf(head: seq<byte>, rest: seq<byte>)
    requires NoNewline(head)
    ensures LineEnd(head + [Newline] + rest) == |head|
  {
    var d := head + [Newline] + rest;
    assert d[|head|] == Newline;
    assert forall k :: 0 <= k < |head| ==> d[k] == head[k];
  }

  lemma {:induction false} JoinNonEmpty(ls: seq<seq<byte>>)
    requires ls != [] && ls[|ls| - 1] != []
    ensures Join(ls) != []
    decreases |ls|
  {
    if |ls| > 1 {
      JoinNonEmpty(ls[1..]);
    }
  }

  /** The records of a line cursor: line `first + i` for the i-th line. */
  function LineRecords(ls: seq<seq<byte>>, path: string, first: int): seq<Record>
  {
    seq(|ls|, i requires 0 <= i < |ls| => TextEvent(AsText(ls[i]), path, first + i))
  }

  /** What the line codec produces for `input`: one record per line,
      numbered 1, 2, ..., then the reader's error (none on a clean end). */
  function LineDrain(path: string, input: Reader): Drain
  {
    Drain(LineRecords(Lines(input.data), path, 1), input.ReadError())
  }

  /** The i-th record carries line i + 1, the construction path and the
      i-th line as its event. */
  lemma LineDrainRecords(path: string, input: Reader)
    ensures |LineDrain(path, input).records| == |Lines(input.data)|
    ensures forall i :: 0 <= i < |Lines(input.data)| ==>
      LineDrain(path, input).records[i] == TextEvent(AsText(Lines(input.data)[i]), path, i + 1)
    ensures LineDrain(path, input).err.None? <==> input.failure.None?
  {
  }

  /** Empty input yields no record and no error. */
  lemma EmptyInputHasNoLines(path: string)
    ensures LineDrain(path, Reader([], None)) == Drain([], None)
  {
  }

  /** `"foo\nbar"` yields the two records `foo` (line 1) and `bar` (line 2). */
  lemma TwoLines(path: string)
    ensures LineDrain(path, Reader(FromText("foo\nbar"), None))
         == Drain([TextEvent("foo", path, 1), TextEvent("bar", path, 2)], None)
  {
    var d := FromText("foo\nbar");
    assert LineEnd(d) == 3 by {
      assert d[3] == Newline;
      assert d[1..][2..] == d[3..];
    }
    assert d[..3] == FromText("foo");
    assert d[4..] == FromText("bar");
    assert LineEnd(d[4..]) == 3;
    assert Lines(d[4..]) == [d[4..]];
    assert Lines(d) == [FromText("foo"), FromText("bar")];
  }

  /** `bufio.Scanner` behind a cursor. `pending` is the scanner's position:
      the lines it has yet to return. */
  class BufioCodec {
    const path: string
    /** What `scanner.Err()` reports once the input is used up. */
    const readError: MaybeError
    var pending: seq<seq<byte>>
    /** `scanner.Text()`: the line of the last successful `Scan`. */
    var token: seq<byte>
    var lineNumber: int
    /** `Scan` has returned false. */
    var exhausted: bool

    ghost predicate Valid()
      reads this
    {
      exhausted ==> pending == []
    }

    /** The records the remaining true `Next` calls will produce. */
    ghost function Future(): seq<Record>
      reads this
    {
      LineRecords(pending, path, lineNumber + 1)
    }

    /** What `Err` reports once `Next` has returned false. */
    ghost function Final(): MaybeError
      reads this
    {
      readError
    }

    constructor (path: string, input: Reader)
      ensures Valid()
      ensures this.path == path && lineNumber == 0 && token == [] && !exhausted
      ensures pending == Lines(input.data) && readError == input.ReadError()
      ensures Future() == LineDrain(path, input).records && Final() == LineDrain(path, input).err
    {
      this.path := path;
      readError := input.ReadError();
      pending := Lines(input.data);
      token := [];
      lineNumber := 0;
      exhausted := false;
    }

    /** Counts the call, then scans the next line. */
    method Next() returns (more: bool)
      requires Valid()
      modifies this
      ensures Valid()
      ensures lineNumber == old(lineNumber) + 1
      ensures more == (old(pending) != [])
      ensures more ==> token == old(pending)[0] && pending == old(pending)[1..] && !exhausted
      ensures !more ==> token == [] && pending == [] && exhausted
      ensures more ==> Value() == old(Future())[0] && Future() == old(Future())[1..]
      ensures !more ==> Future() == [] && Err() == Final()
      ensures more == (old(Future()) != []) && Final() == old(Final())
    {
      lineNumber := lineNumber + 1;
      if pending != [] {
        token := pending[0];
        pending := pending[1..];
        more := true;
      } else {
        token := [];
        exhausted := true;
        more := false;
      }
    }

    function Value(): (r: Record)
      reads this
      ensures r.Keys() == {"event", "file", "line"}
    {
      TextEvent(AsText(token), path, lineNumber)
    }

    /** The scanner's error once the lines run out: the read error, or none
        on a clean read. The model reports nothing before then; Go's
        scanner may already report a read error while buffered lines
        remain. */
    function Err(): (r: MaybeError)
      reads this
      ensures !exhausted ==> r.None?
      ensures exhausted ==> r == readError
    {
      if exhausted then readError else None
    }
  }
}
