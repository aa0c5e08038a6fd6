/** Base 64 encoding with the standard alphabet and `=` padding, as in
    section 4 of RFC 4648 (Go's `base64.StdEncoding`), with the decoder
    that undoes it. */
module Base64 {
  import opened Wrappers
  import opened Io

  type Index = i: int | 0 <= i < 64

  const Pad: char := '='

  /** The character Table 1 of the RFC assigns to a 6-bit value:
      `A`-`Z` for 0-25, `a`-`z` for 26-51, `0`-`9` for 52-61, then `+`, `/`. */
  function CharOf(i: Index): (c: char)
  {
    if i < 26 then ('A' as int + i) as char
    else if i < 52 then ('a' as int + i - 26) as char
    else if i < 62 then ('0' as int + i - 52) as char
    else if i == 62 then '+'
    else '/'
  }

  /** The 6-bit value of an alphabet character; `None` for any other. */
  function IndexOf(c: char): (r: Option<Index>)
  {
    if 'A' <= c <= 'Z' then Some(c as int - 'A' as int)
    else if 'a' <= c <= 'z' then Some(c as int - 'a' as int + 26)
    else if '0' <= c <= '9' then Some(c as int - '0' as int + 52)
    else if c == '+' then Some(62)
    else if c == '/' then Some(63)
    else None
  }

  lemma CharOfIndexOf(i: Index)
    ensures IndexOf(CharOf(i)) == Some(i)
    ensures CharOf(i) != Pad
  {
  }

  /** The four 6-bit values of a 24-bit group `b0 b1 b2`, high bits first. */
  function Sextet0(b0: byte): Index { b0 as int / 4 }
  function Sextet1(b0: byte, b1: byte): Index { (b0 as int % 4) * 16 + b1 as int / 16 }
  function Sextet2(b1: byte, b2: byte): Index { (b1 as int % 16) * 4 + b2 as int / 64 }
  function Sextet3(b2: byte): Index { b2 as int % 64 }

  /** Three input bytes become four characters. */
  function EncodeGroup(b0: byte, b1: byte, b2: byte): string
  {
    [CharOf(Sextet0(b0)), CharOf(Sextet1(b0, b1)), CharOf(Sextet2(b1, b2)), CharOf(Sextet3(b2))]
  }

  /** `base64.StdEncoding.EncodeToString`: a final group of one or two
      bytes is padded with `=` to four characters. */
  function Encode(b: seq<byte>): (s: string)
    decreases |b|
  {
    if |b| == 0 then []
    else if |b| == 1 then
      [CharOf(Sextet0(b[0])), CharOf(Sextet1(b[0], 0)), Pad, Pad]
    else if |b| == 2 then
      [CharOf(Sextet0(b[0])), CharOf(Sextet1(b[0], b[1])), CharOf(Sextet2(b[1], 0)), Pad]
    else EncodeGroup(b[0], b[1], b[2]) + Encode(b[3..])
  }

  /** The encoded length is four characters per started group of three. */
  lemma {:induction false} EncodeLength(b: seq<byte>)
    ensures |Encode(b)| == 4 * ((|b| + 2) / 3)
    decreases |b|
  {
    if |b| > 2 {
      EncodeLength(b[3..]);
      assert |EncodeGroup(b[0], b[1], b[2])| == 4;
      assert (|b| + 2) / 3 == (|b[3..]| + 2) / 3 + 1;
    }
  }

  /** Every character of the encoding is in the alphabet or is padding,
      and padding only ends the text. */
  lemma {:induction false} EncodeAlphabet(b: seq<byte>)
    ensures forall i :: 0 <= i < |Encode(b)| ==>
      IndexOf(Encode(b)[i]).Some? || (Encode(b)[i] == Pad && i >= |Encode(b)| - 2)
    decreases |b|
  {
    if |b| > 2 {
      EncodeAlphabet(b[3..]);
      EncodeLength(b[3..]);
      var g := EncodeGroup(b[0], b[1], b[2]);
      forall k | 0 <= k < 4 ensures IndexOf(g[k]).Some? {
        CharOfIndexOf(Sextet0(b[0]));
        CharOfIndexOf(Sextet1(b[0], b[1]));
        CharOfIndexOf(Sextet2(b[1], b[2]));
        CharOfIndexOf(Sextet3(b[2]));
      }
    } else if |b| == 2 {
      CharOfIndexOf(Sextet0(b[0]));
      CharOfIndexOf(Sextet1(b[0], b[1]));
      CharOfIndexOf(Sextet2(b[1], 0));
    } else if |b| == 1 {
      CharOfIndexOf(Sextet0(b[0]));
      CharOfIndexOf(Sextet1(b[0], 0));
    }
  }

  /** Four characters back to three bytes. */
  function DecodeGroup(i0: Index, i1: Index, i2: Index, i3: Index): seq<byte>
  {
    [(i0 * 4 + i1 / 16) as byte,
     ((i1 % 16) * 16 + i2 / 4) as byte,
     ((i2 % 4) * 64 + i3) as byte]
  }

  /** Decodes one block of four characters, the last block allowing `=`. */
  function DecodeBlock(q: string, last: bool): Option<seq<byte>>
    requires |q| == 4
  {
    match (IndexOf(q[0]), IndexOf(q[1]), IndexOf(q[2]), IndexOf(q[3]))
    case (Some(i0), Some(i1), Some(i2), Some(i3)) => Some(DecodeGroup(i0, i1, i2, i3))
    case (Some(i0), Some(i1), Some(i2), None) =>
      if last && q[3] == Pad then Some(DecodeGroup(i0, i1, i2, 0)[..2]) else None
    case (Some(i0), Some(i1), None, None) =>
      if last && q[2] == Pad && q[3] == Pad then Some(DecodeGroup(i0, i1, 0, 0)[..1]) else None
    case _ => None
  }

  /** Padded standard decoding; `None` for text that is not an encoding. */
  function Decode(s: string): Option<seq<byte>>
    decreases |s|
  {
    if |s| == 0 then Some([])
    else if |s| < 4 then None
    else
      match DecodeBlock(s[..4], |s| == 4)
      case None => None
      case Some(head) =>
        match Decode(s[4..])
        case None => None
        case Some(tail) => Some(head + tail)
  }

  lemma GroupRoundTrip(b0: byte, b1: byte, b2: byte)
    ensures DecodeGroup(Sextet0(b0), Sextet1(b0, b1), Sextet2(b1, b2), Sextet3(b2)) == [b0, b1, b2]
  {
    var i1, i2 := Sextet1(b0, b1), Sextet2(b1, b2);
    assert i1 / 16 == b0 as int % 4 && i1 % 16 == b1 as int / 16;
    assert i2 / 4 == b1 as int % 16 && i2 % 4 == b2 as int / 64;
  }

  lemma PairRoundTrip(b0: byte, b1: byte)
    ensures DecodeGroup(Sextet0(b0), Sextet1(b0, b1), Sextet2(b1, 0), 0)[..2] == [b0, b1]
  {
    var i1, i2 := Sextet1(b0, b1), Sextet2(b1, 0);
    assert i1 / 16 == b0 as int % 4 && i1 % 16 == b1 as int / 16;
    assert i2 / 4 == b1 as int % 16;
  }

  lemma SingleRoundTrip(b0: byte)
    ensures DecodeGroup(Sextet0(b0), Sextet1(b0, 0), 0, 0)[..1] == [b0]
  {
    var i1 := Sextet1(b0, 0);
    assert i1 / 16 == b0 as int % 4;
  }

  lemma BlockOfFour(i0: Index, i1: Index, i2: Index, i3: Index, last: bool)
    ensures DecodeBlock([CharOf(i0), CharOf(i1), CharOf(i2), CharOf(i3)], last)
         == Some(DecodeGroup(i0, i1, i2, i3))
  {
    CharOfIndexOf(i0);
    CharOfIndexOf(i1);
    CharOfIndexOf(i2);
    CharOfIndexOf(i3);
  }

  lemma BlockOfThree(i0: Index, i1: Index, i2: Index)
    ensures DecodeBlock([CharOf(i0), CharOf(i1), CharOf(i2), Pad], true)
         == Some(DecodeGroup(i0, i1, i2, 0)[..2])
  {
    CharOfIndexOf(i0);
    CharOfIndexOf(i1);
    CharOfIndexOf(i2);
  }

  lemma BlockOfTwo(i0: Index, i1: Index)
    ensures DecodeBlock([CharOf(i0), CharOf(i1), Pad, Pad], true)
         == Some(DecodeGroup(i0, i1, 0, 0)[..1])
  {
    CharOfIndexOf(i0);
    CharOfIndexOf(i1);
  }

  lemma DecodeLastBlock(s: string)
    requires |s| == 4
    ensures Decode(s) == DecodeBlock(s, true)
  {
    assert s[..4] == s;
    assert Decode(s[4..]) == Some([]);
    match DecodeBlock(s, true)
    case None =>
    case Some(head) => assert head + [] == head;
  }

  lemma DecodeFirstBlock(head: seq<byte>, s: string, tail: seq<byte>)
    requires |s| > 4 && DecodeBlock(s[..4], false) == Some(head) && Decode(s[4..]) == Some(tail)
    ensures Decode(s) == Some(head + tail)
  {
  }

  lemma RoundTripOne(b: seq<byte>)
    requires |b| == 1
    ensures Decode(Encode(b)) == Some(b)
  {
    var i0, i1 := Sextet0(b[0]), Sextet1(b[0], 0);
    var s := Encode(b);
    assert s == [CharOf(i0), CharOf(i1), Pad, Pad];
    BlockOfTwo(i0, i1);
    SingleRoundTrip(b[0]);
    assert [b[0]] == b;
    DecodeLastBlock(s);
  }

  lemma RoundTripTwo(b: seq<byte>)
    requires |b| == 2
    ensures Decode(Encode(b)) == Some(b)
  {
    var i0, i1, i2 := Sextet0(b[0]), Sextet1(b[0], b[1]), Sextet2(b[1], 0);
    var s := Encode(b);
    assert s == [CharOf(i0), CharOf(i1), CharOf(i2), Pad];
    BlockOfThree(i0, i1, i2);
    PairRoundTrip(b[0], b[1]);
    assert [b[0], b[1]] == b;
    DecodeLastBlock(s);
  }

  lemma GroupDecodes(b0: byte, b1: byte, b2: byte, last: bool)
    ensures DecodeBlock(EncodeGroup(b0, b1, b2), last) == Some([b0, b1, b2])
  {
    BlockOfFour(Sextet0(b0), Sextet1(b0, b1), Sextet2(b1, b2), Sextet3(b2), last);
    GroupRoundTrip(b0, b1, b2);
  }

  lemma RoundTripThree(b: seq<byte>)
    requires |b| == 3
    ensures Decode(Encode(b)) == Some(b)
  {
    var s := Encode(b);
    assert Encode(b[3..]) == [];
    assert s == EncodeGroup(b[0], b[1], b[2]);
    GroupDecodes(b[0], b[1], b[2], true);
    DecodeLastBlock(s);
    assert [b[0], b[1], b[2]] == b;
  }

  lemma SplitHead(b: seq<byte>)
    requires |b| >= 3
    ensures [b[0], b[1], b[2]] + b[3..] == b
  {
    assert b[..3] == [b[0], b[1], b[2]];
    assert b[..3] + b[3..] == b;
  }

  lemma RoundTripLonger(b: seq<byte>)
    requires |b| > 3 && Decode(Encode(b[3..])) == Some(b[3..])
    ensures Decode(Encode(b)) == Some(b)
  {
    var s := Encode(b);
    var g := EncodeGroup(b[0], b[1], b[2]);
    assert s == g + Encode(b[3..]);
    assert s[..4] == g && s[4..] == Encode(b[3..]);
    EncodeLength(b[3..]);
    GroupDecodes(b[0], b[1], b[2], false);
    SplitHead(b);
    DecodeFirstBlock([b[0], b[1], b[2]], s, b[3..]);
  }

  /** Decoding an encoding returns the bytes encoded. */
  lemma {:induction false} RoundTrip(b: seq<byte>)
    ensures Decode(Encode(b)) == Some(b)
    decreases |b|
  {
    if |b| == 1 {
      RoundTripOne(b);
    } else if |b| == 2 {
      RoundTripTwo(b);
    } else if |b| == 3 {
      RoundTripThree(b);
    } else if |b| > 3 {
      RoundTrip(b[3..]);
      RoundTripLonger(b);
    }
  }
}
