/** The gateway's settings (`config.py`): the provider's base URL, the
    account login and key, and the list of origins allowed to call the
    gateway. Construction rejects missing credentials and normalises the
    origins value into a list. */
module Config {
  import opened Results
  import opened Text

  const DefaultBaseUrl: string := "https://api.streamtape.com"
  const Wildcard: string := "*"

  /** `ALLOWED_ORIGINS` as it arrives: a string, or already a list. */
  datatype OriginsValue = OriginsText(text: string) | OriginsList(items: seq<string>)

  /** The field values before `model_post_init` runs. */
  datatype RawSettings = RawSettings(
    baseUrl: string,
    login: Option<string>,
    key: Option<string>,
    allowedOrigins: OriginsValue)

  /** The settings after construction succeeded. */
  datatype Settings = Settings(
    baseUrl: string,
    login: string,
    key: string,
    allowedOrigins: seq<string>)

  /** The `ValueError` raised when a credential is missing or empty. */
  datatype ConfigError = MissingCredentials

  /** The field defaults, used for every value the environment does not
      supply. */
  const Defaults: RawSettings := RawSettings(DefaultBaseUrl, None, None, OriginsText(Wildcard))

  /** Python truthiness of an `Optional[str]`: `None` and `""` are false. */
  predicate Truthy(v: Option<string>) {
    v.Some? && v.value != ""
  }

  /** What every parsed origins list looks like: no origin contains a comma
      or has whitespace at either end. */
  predicate CleanOrigins(origins: seq<string>) {
    forall i :: 0 <= i < |origins| ==> ',' !in origins[i] && Stripped(origins[i])
  }

  /** The reference meaning of parsing a string other than the wildcard: one
      origin per comma-separated piece of `text`, origin `i` being piece `i`
      stripped. */
  ghost predicate IsOriginList(text: string, origins: seq<string>) {
    && |origins| == |Split(text, ',')|
    && forall i :: 0 <= i < |origins| ==> IsStripOf(Split(text, ',')[i], origins[i])
  }

  /** The string branch of the origins normalisation: the exact wildcard
      becomes `["*"]`, anything else is split on commas and each piece is
      stripped of surrounding whitespace. */
  function ParseOrigins(text: string): (origins: seq<string>)
    ensures text == Wildcard ==> origins == [Wildcard]
    ensures |origins| >= 1
    ensures text != Wildcard ==> |origins| == Count(text, ',') + 1
    ensures CleanOrigins(origins)
  {
    if text == Wildcard then [Wildcard]
    else
      var parts := Split(text, ',');
      seq(|parts|, i requires 0 <= i < |parts| => Strip(parts[i]))
  }

  /** `ALLOWED_ORIGINS` after construction: a list is kept as it is, a string
      is parsed. */
  function NormaliseOrigins(v: OriginsValue): (origins: seq<string>)
    ensures v.OriginsList? ==> origins == v.items
    ensures v.OriginsText? ==> origins == ParseOrigins(v.text)
  {
    match v
    case OriginsText(text) => ParseOrigins(text)
    case OriginsList(items) => items
  }

  /** `Settings()`: fails exactly when the login or the key is missing or the
      empty string; otherwise copies the fields and normalises the origins. */
  function Validate(raw: RawSettings): (r: Result<Settings, ConfigError>)
    ensures r.Failure? <==> !Truthy(raw.login) || !Truthy(raw.key)
    ensures r.Success? ==>
      && r.value.baseUrl == raw.baseUrl
      && Some(r.value.login) == raw.login && r.value.login != ""
      && Some(r.value.key) == raw.key && r.value.key != ""
      && r.value.allowedOrigins == NormaliseOrigins(raw.allowedOrigins)
  {
    if !Truthy(raw.login) || !Truthy(raw.key) then Failure(MissingCredentials)
    else Success(Settings(raw.baseUrl, raw.login.value, raw.key.value, NormaliseOrigins(raw.allowedOrigins)))
  }

  /** Origin `i` is the stripped `i`-th comma-separated piece of the text,
      in the sense of the reference definition of `strip()`. */
  lemma ParseOriginsPieces(text: string)
    requires text != Wildcard
    ensures IsOriginList(text, ParseOrigins(text))
  {
    var parts := Split(text, ',');
    var origins := ParseOrigins(text);
    forall i | 0 <= i < |origins| ensures IsStripOf(parts[i], origins[i]) {
      assert origins[i] == Strip(parts[i]);
      StripIsStripOf(parts[i]);
    }
  }

  /** Parsing the comma-join of comma-free origins without edge whitespace
      gives back those origins. */
  lemma ParseJoin(origins: seq<string>)
    requires |origins| >= 1
    requires CleanOrigins(origins)
    ensures ParseOrigins(Join(origins, ',')) == origins
  {
    var joined := Join(origins, ',');
    SplitJoin(origins, ',');
    if joined == Wildcard {
      assert Split(Wildcard, ',') == [Wildcard];
    } else {
      var again := ParseOrigins(joined);
      forall i | 0 <= i < |origins| ensures again[i] == origins[i] {
        StripStripped(origins[i]);
      }
    }
  }

  /** Parsing the comma-join of a parsed origins list gives the same list. */
  lemma ReparseJoined(text: string)
    ensures ParseOrigins(Join(ParseOrigins(text), ',')) == ParseOrigins(text)
  {
    ParseJoin(ParseOrigins(text));
  }

  /** With nothing but the two credentials supplied, the settings carry the
      default base URL and the wildcard origin list. */
  lemma DefaultsWithCredentials(login: string, key: string)
    requires login != "" && key != ""
    ensures Validate(Defaults.(login := Some(login), key := Some(key)))
         == Success(Settings(DefaultBaseUrl, login, key, ["*"]))
  {
  }

  /** With no environment at all, construction fails. */
  lemma DefaultsRejected()
    ensures Validate(Defaults) == Failure(MissingCredentials)
  {
  }

  /** A credential made only of whitespace is truthy, so it is accepted. */
  lemma WhitespaceCredentialsAccepted()
    ensures Validate(Defaults.(login := Some(" "), key := Some("\t"))).Success?
  {
  }

  /** The empty string yields one empty origin. */
  lemma ParseEmptyOrigins()
    ensures ParseOrigins("") == [""]
  {
    StripStripped("");
  }

  /** Empty pieces survive: `"a,,b"` gives three origins. */
  lemma ParseOriginsKeepsEmptyPieces()
    ensures ParseOrigins("a,,b") == ["a", "", "b"]
  {
    var pieces := ["a", "", "b"];
    assert Join(pieces, ',') == "a,,b";
    SplitJoin(pieces, ',');
    StripStripped("a");
    StripStripped("");
    StripStripped("b");
  }

  /** Whitespace around each origin is removed: `" a , b"` gives `[a, b]`
      for any two comma-free origins without whitespace at their ends. */
  lemma ParseOriginsTrims(a: string, b: string)
    requires Stripped(a) && Stripped(b) && ',' !in a && ',' !in b
    ensures ParseOrigins(" " + a + " , " + b) == [a, b]
  {
    var p0, p1 := " " + a + " ", " " + b + "";
    assert Join([p0, p1], ',') == " " + a + " , " + b;
    SplitJoin([p0, p1], ',');
    StripSurrounded(a, " ", " ");
    StripSurrounded(b, " ", "");
    assert " " + a + " , " + b != Wildcard;
  }
}
