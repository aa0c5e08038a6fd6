/** The beat's configuration: defaults, whitespace trimming of the metadata
    key, and the four validation rules. */
module Config {
  import opened Wrappers
  import opened Glob

  /** One second, in the nanoseconds of a Go `time.Duration`. */
  const Second: int := 1000000000

  /** The configuration. `codec`, `unpackGzip` and `processedDbPath` are
      read by the beat and the storage setup but are not among the fields
      of the configuration struct; they are kept here with Go's zero values
      as defaults. */
  datatype Config = Config(
    interval: int,
    bucketId: string,
    jsonKeyFile: string,
    delete: bool,
    fileMatches: string,
    fileExclude: string,
    metadataKey: string,
    codec: string,
    unpackGzip: bool,
    processedDbPath: string)

  const DefaultConfig := Config(60 * Second, "", "", false, "*", "", "x-goog-meta-gcsbeat", "", false, "")

  /** `unicode.IsSpace`: the Latin-1 spaces `\t \n \v \f \r`, space, U+0085
      and U+00A0, and the other characters of Unicode's White_Space
      property. */
  predicate IsSpace(c: char)
  {
    c == '\t' || c == '\n' || c == '\U{000B}' || c == '\U{000C}' || c == '\r' || c == ' ' ||
    c == '\U{0085}' || c == '\U{00A0}' || c == '\U{1680}' ||
    ('\U{2000}' <= c <= '\U{200A}') ||
    c == '\U{2028}' || c == '\U{2029}' || c == '\U{202F}' || c == '\U{205F}' || c == '\U{3000}'
  }

  /** The index of the first non-space at or after i, or |s|. */
  function SkipSpaces(s: string, i: nat): (j: nat)
    requires i <= |s|
    ensures i <= j <= |s|
    ensures forall k :: i <= k < j ==> IsSpace(s[k])
    ensures j < |s| ==> !IsSpace(s[j])
    decreases |s| - i
  {
    if i < |s| && IsSpace(s[i]) then SkipSpaces(s, i + 1) else i
  }

  /** The index just past the last non-space before j, scanning back no
      further than lo. */
  function BackSpaces(s: string, lo: nat, j: nat): (e: nat)
    requires lo <= j <= |s|
    ensures lo <= e <= j
    ensures forall k :: e <= k < j ==> IsSpace(s[k])
    ensures lo < e ==> !IsSpace(s[e - 1])
    decreases j
  {
    if lo < j && IsSpace(s[j - 1]) then BackSpaces(s, lo, j - 1) else j
  }

  /** `strings.TrimSpace`: the string between its leading and its trailing
      spaces. */
  function TrimSpace(s: string): string
  {
    var a := SkipSpaces(s, 0);
    s[a..BackSpaces(s, a, |s|)]
  }

  /** The trimmed string is the stretch of the original between its
      leading and its trailing spaces, with no space at either end. */
  lemma TrimSpaceCuts(s: string)
    ensures var a := SkipSpaces(s, 0);
      a + |TrimSpace(s)| <= |s| && TrimSpace(s) == s[a..a + |TrimSpace(s)|] &&
      (forall i :: 0 <= i < a ==> IsSpace(s[i])) &&
      (forall i :: a + |TrimSpace(s)| <= i < |s| ==> IsSpace(s[i]))
    ensures TrimSpace(s) != [] ==> !IsSpace(TrimSpace(s)[0]) && !IsSpace(TrimSpace(s)[|TrimSpace(s)| - 1])
  {
  }

  /** Trimming twice is trimming once. */
  lemma TrimSpaceIdempotent(s: string)
    ensures TrimSpace(TrimSpace(s)) == TrimSpace(s)
  {
    var t := TrimSpace(s);
    TrimSpaceCuts(s);
    if t != [] {
      assert SkipSpaces(t, 0) == 0;
      assert BackSpaces(t, 0, |t|) == |t|;
    }
  }

  /** A key of spaces only trims to nothing: `"\r\n\t "` is blank; a key
      with text keeps just the text. */
  lemma BlankKey()
    ensures TrimSpace("\r\n\t ") == ""
    ensures TrimSpace(" gcsbeat\n") == "gcsbeat"
  {
    var blank := "\r\n\t ";
    assert SkipSpaces(blank, 3) == 4;
    assert SkipSpaces(blank, 1) == 4;
    assert SkipSpaces(blank, 0) == 4;
    var k := " gcsbeat\n";
    assert SkipSpaces(k, 0) == 1 by { assert !IsSpace(k[1]); }
    assert BackSpaces(k, 1, |k|) == |k| - 1 by { assert !IsSpace(k[|k| - 2]); }
  }

  const NonPositiveInterval := Failed("Interval must be positive.")
  const BadMatchGlob := Failed("The matches parameter is not a valid glob.")
  const BadExcludeGlob := Failed("The exclude parameter is not a valid glob.")
  const BlankMetadataKey := Failed("The metadata key must not be blank.")

  /** The text of an error, as `%v` prints it. */
  function ErrorText(e: Error): string
  {
    match e
    case EOF => "EOF"
    case Failed(message) => message
  }

  /** The settings as loaded: `unpack` applies the user's configuration to
      the defaults (the configuration library is not part of this model). */
  datatype Settings = Settings(unpack: Config -> Result<Config, Error>)

  /** The checks in their order; the first that fails gives the error. */
  function Validate(c: Config, glob: GlobEngine): MaybeError
  {
    if c.interval <= 0 then Some(NonPositiveInterval)
    else if !glob.compiles(c.fileMatches) then Some(BadMatchGlob)
    else if !glob.compiles(c.fileExclude) then Some(BadExcludeGlob)
    else if c.metadataKey == "" then Some(BlankMetadataKey)
    else None
  }

  /** `GetAndValidateConfig`: the defaults overlaid with the user's
      settings, the metadata key trimmed, then validated. */
  function GetAndValidateConfig(settings: Settings, glob: GlobEngine): (r: Result<Config, Error>)
    ensures settings.unpack(DefaultConfig).Failure? ==>
      r == Failure(Failed("error in config file: " + ErrorText(settings.unpack(DefaultConfig).error)))
    ensures r.Success? ==>
      r.value.interval > 0 && glob.compiles(r.value.fileMatches) && glob.compiles(r.value.fileExclude) &&
      r.value.metadataKey != "" && r.value.metadataKey == TrimSpace(r.value.metadataKey)
  {
    match settings.unpack(DefaultConfig)
    case Failure(e) => Failure(Failed("error in config file: " + ErrorText(e)))
    case Success(c) =>
      var trimmed := c.(metadataKey := TrimSpace(c.metadataKey));
      match Validate(trimmed, glob)
      case Some(e) => Failure(e)
      case None => Success(trimmed)
  }

  /** For unpacked settings, the result is exactly the checked, trimmed
      configuration, or the error of the first check it fails, in the
      order interval, match, exclude, key. */
  lemma ValidationOrder(settings: Settings, glob: GlobEngine)
    requires settings.unpack(DefaultConfig).Success?
    ensures var c := settings.unpack(DefaultConfig).value;
      var key := TrimSpace(c.metadataKey);
      GetAndValidateConfig(settings, glob) ==
        if c.interval <= 0 then Failure(NonPositiveInterval)
        else if !glob.compiles(c.fileMatches) then Failure(BadMatchGlob)
        else if !glob.compiles(c.fileExclude) then Failure(BadExcludeGlob)
        else if key == "" then Failure(BlankMetadataKey)
        else Success(c.(metadataKey := key))
  {
  }

  /** A configuration the checks accept is returned with only its key
      trimmed, which no further trimming changes; every other field is
      what was unpacked. */
  lemma AcceptedKeepsFields(settings: Settings, glob: GlobEngine)
    requires GetAndValidateConfig(settings, glob).Success?
    ensures settings.unpack(DefaultConfig).Success?
    ensures GetAndValidateConfig(settings, glob).value ==
      settings.unpack(DefaultConfig).value.(metadataKey := TrimSpace(settings.unpack(DefaultConfig).value.metadataKey))
    ensures TrimSpace(GetAndValidateConfig(settings, glob).value.metadataKey) == GetAndValidateConfig(settings, glob).value.metadataKey
  {
    TrimSpaceIdempotent(settings.unpack(DefaultConfig).value.metadataKey);
  }

  /** The defaults pass every check that does not involve a glob. */
  lemma DefaultsAreValid(glob: GlobEngine)
    requires glob.compiles("*") && glob.compiles("")
    ensures Validate(DefaultConfig, glob).None?
    ensures TrimSpace(DefaultConfig.metadataKey) == DefaultConfig.metadataKey
  {
    var k := DefaultConfig.metadataKey;
    assert !IsSpace(k[0]) && !IsSpace(k[|k| - 1]);
  }
}
