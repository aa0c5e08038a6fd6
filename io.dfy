/** Bytes and readers: the `io.Reader` values the codecs consume. */
module Io {
  import opened Wrappers

  newtype byte = b: int | 0 <= b < 256

  /** The byte `\n`. */
  const Newline: byte := 10

  /** An `io.Reader` as the codecs observe it: the bytes it delivers, and
      the error (other than `io.EOF`) it reports after them, if any. */
  datatype Reader = Reader(data: seq<byte>, failure: Option<string>)
  {
    /** The error `ioutil.ReadAll` and `bufio.Scanner` report for this reader. */
    function ReadError(): MaybeError
    {
      if failure.Some? then Some(Failed(failure.value)) else None
    }
  }

  /** Go's `string(bytes)`: a Go string is a byte string, so each byte
      becomes the character with the same code. */
  function AsText(b: seq<byte>): (s: string)
    ensures |s| == |b|
    ensures forall i :: 0 <= i < |b| ==> s[i] as int == b[i] as int
  {
    seq(|b|, i requires 0 <= i < |b| => b[i] as int as char)
  }

  /** The bytes of a string whose characters are all below 256. */
  function FromText(s: string): (b: seq<byte>)
    requires forall i :: 0 <= i < |s| ==> s[i] as int < 256
    ensures AsText(b) == s
  {
    seq(|s|, i requires 0 <= i < |s| => s[i] as int as byte)
  }
}
