/** The part of Go's `encoding/json` the JSON codecs rely on. The grammar
    and the decoder are a foreign library, so they enter the model as a
    `JsonLibrary`: the answers the decoder gives for a reader. */
module JsonLib {
  import opened Wrappers
  import opened Io

  datatype JsonValue =
    | Null
    | Bool(b: bool)
    | Number(literal: string)
    | String(s: string)
    | Array(items: seq<JsonValue>)
    | Object(members: map<string, JsonValue>)

  /** What `Decode(&map[string]interface{})` fills in. */
  type JsonObject = map<string, JsonValue>

  /** A token as returned by `Decoder.Token`: a delimiter or a scalar. */
  datatype Token = Delim(c: char) | Literal(v: JsonValue)

  /** The answer of one `Decode` call: an object, or an error. */
  datatype Decoded = Decoded(obj: JsonObject) | DecodeFailed(err: Error)

  /** The decoder's behaviour on a reader:
      - `firstToken`: the first `Token()` call;
      - `arrayElements`: after that token, the answers of successive
        `Decode` calls while `More()` holds; `More()` is false once they
        are used up;
      - `values`: the answers of successive `Decode` calls from the start
        of the input; once they are used up `Decode` reports `io.EOF`. */
  datatype JsonLibrary = JsonLibrary(
    firstToken: Reader -> Result<Token, Error>,
    arrayElements: Reader -> seq<Decoded>,
    values: Reader -> seq<Decoded>)

  /** `fmt.Sprintf("%s", token)` for the result of `Token()`; a failed
      `Token()` returns a nil token. */
  function TokenText(t: Result<Token, Error>): string
  {
    match t
    case Failure(_) => "%!s(<nil>)"
    case Success(Delim(c)) => [c]
    case Success(Literal(String(s))) => s
    case Success(Literal(Bool(b))) => if b then "%!s(bool=true)" else "%!s(bool=false)"
    case Success(Literal(Number(n))) => "%!s(float64=" + n + ")"
    case Success(Literal(_)) => "%!s(<nil>)"
  }
}
