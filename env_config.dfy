/**
 * The environment configuration of the pipeline (src/utils/config.py):
 * `PipelineConfig.from_env` as a function of the environment map, Python's
 * `int()` on the two numeric settings, and the `get_config` singleton.
 */
module EnvConfig {
  import opened Optional
  import opened PyValue
  import opened Strings
  import opened Environ

  const DefaultEsIndex: string := "mb_blends_v1"
  const DefaultMaxUploadSizeMb: int := 500
  const DefaultUploadTimeoutSeconds: int := 300

  /** `PipelineConfig`. */
  datatype PipelineConfig = PipelineConfig(
    gcsBucket: string,
    bqProject: string,
    bqDataset: string,
    elasticsearchUrl: Option<string>,
    esApiKey: Option<string>,
    esIndex: Option<string>,
    googleCredentialsPath: Option<string>,
    maxUploadSizeMb: int,
    uploadTimeoutSeconds: int)

  predicate IsDigitOrUnderscore(c: char) {
    IsDigit(c) || c == '_'
  }

  /** `digit (["_"] digit)*`: the decimal literal `int()` accepts after its sign. */
  predicate DigitGroups(s: string) {
    && |s| >= 1
    && IsDigit(s[0]) && IsDigit(s[|s| - 1])
    && (forall i :: 0 <= i < |s| ==> IsDigitOrUnderscore(s[i]))
    && NoDoubleUnderscore(s)
  }

  /** No two underscores in a row. */
  predicate NoDoubleUnderscore(s: string) {
    |s| < 2 || (!(s[0] == '_' && s[1] == '_') && NoDoubleUnderscore(s[1..]))
  }

  /** A string of digits is a literal without underscores. */
  lemma {:induction false} DigitsAreGroups(s: string)
    requires |s| > 0 && forall i :: 0 <= i < |s| ==> IsDigit(s[i])
    ensures DigitGroups(s)
  {
    if |s| >= 2 {
      DigitsAreGroups(s[1..]);
    }
  }

  /** The digits of `s`, with its underscores removed. */
  function DropUnderscores(s: string): (r: string)
    requires forall i :: 0 <= i < |s| ==> IsDigitOrUnderscore(s[i])
    ensures forall i :: 0 <= i < |r| ==> IsDigit(r[i])
  {
    if s == [] then []
    else if s[0] == '_' then DropUnderscores(s[1..])
    else
      assert IsDigitOrUnderscore(s[0]);
      [s[0]] + DropUnderscores(s[1..])
  }

  /** A string of digits has no underscores to drop. */
  lemma {:induction false} DropUnderscoresOfDigits(s: string)
    requires forall i :: 0 <= i < |s| ==> IsDigit(s[i])
    ensures DropUnderscores(s) == s
  {
    if s != [] {
      DropUnderscoresOfDigits(s[1..]);
    }
  }

  /** A leading sign: whether it is a minus, and what follows it. */
  function SplitSign(t: string): (r: (bool, string))
    ensures |t| > 0 && (t[0] == '-' || t[0] == '+') ==> r.1 == t[1..] && (r.0 <==> t[0] == '-')
    ensures !(|t| > 0 && (t[0] == '-' || t[0] == '+')) ==> r == (false, t)
  {
    if |t| > 0 && t[0] == '-' then (true, t[1..])
    else if |t| > 0 && t[0] == '+' then (false, t[1..])
    else (false, t)
  }

  /**
   * CPython's default `sys.get_int_max_str_digits()`: `int()` refuses a
   * decimal literal with more digits than this.
   */
  const MaxStrDigits: nat := 4300

  /**
   * The whitespace `int()` skips around a literal. CPython first maps every
   * non-ASCII whitespace character to a space and keeps ASCII unchanged, then
   * skips C's `isspace` set. So all of `IsSpace` counts except U+001C to
   * U+001F, which `str.isspace()` accepts and C's `isspace` does not.
   */
  predicate IntSpace(c: char) {
    IsSpace(c) && !('\U{001C}' <= c <= '\U{001F}')
  }

  predicate AllIntSpace(s: string) {
    forall i :: 0 <= i < |s| ==> IntSpace(s[i])
  }

  /** `s` after the whitespace `int()` skips at its start. */
  function SkipSpace(s: string): (r: string)
    ensures |r| <= |s|
  {
    if s != [] && IntSpace(s[0]) then SkipSpace(s[1..]) else s
  }

  /** `SkipSpace` drops a whitespace prefix and stops at the first other character. */
  lemma {:induction false} SkipSpaceSuffix(s: string)
    ensures var r := SkipSpace(s);
      && r == s[|s| - |r|..] && AllIntSpace(s[..|s| - |r|])
      && (r == [] || !IntSpace(r[0]))
  {
    if s != [] && IntSpace(s[0]) {
      var r := SkipSpace(s[1..]);
      SkipSpaceSuffix(s[1..]);
      assert s[1..][|s| - 1 - |r|..] == s[|s| - |r|..];
      assert s[..|s| - |r|] == [s[0]] + s[1..][..|s| - 1 - |r|];
    }
  }

  /** Whitespace in front of a text that starts otherwise is skipped, and nothing more. */
  lemma {:induction false} SkipSpaceLead(lead: string, t: string)
    requires AllIntSpace(lead) && (t == [] || !IntSpace(t[0]))
    ensures SkipSpace(lead + t) == t
  {
    if lead == [] {
      assert lead + t == t;
    } else {
      assert (lead + t)[1..] == lead[1..] + t;
      SkipSpaceLead(lead[1..], t);
    }
  }

  /** The run of digits and underscores at the start of `s`: what CPython scans as the number. */
  function DigitRun(s: string): (r: string)
    ensures |r| <= |s|
    ensures forall i :: 0 <= i < |r| ==> IsDigitOrUnderscore(r[i])
    ensures |r| < |s| ==> !IsDigitOrUnderscore(s[|r|])
  {
    if s != [] && IsDigitOrUnderscore(s[0]) then [s[0]] + DigitRun(s[1..]) else []
  }

  /** The run is a prefix of the text. */
  lemma {:induction false} DigitRunPrefix(s: string)
    ensures DigitRun(s) == s[..|DigitRun(s)|]
  {
    if s != [] && IsDigitOrUnderscore(s[0]) {
      DigitRunPrefix(s[1..]);
      assert s[..|DigitRun(s)|] == [s[0]] + s[1..][..|DigitRun(s[1..])|];
    }
  }

  /** Text after a run that has already stopped, or that starts with no digit or underscore, does not extend it. */
  lemma {:induction false} DigitRunAppend(s: string, t: string)
    requires |DigitRun(s)| < |s| || t == [] || !IsDigitOrUnderscore(t[0])
    ensures DigitRun(s + t) == DigitRun(s)
  {
    if s == [] {
      assert s + t == t;
    } else if IsDigitOrUnderscore(s[0]) {
      assert (s + t)[1..] == s[1..] + t;
      DigitRunAppend(s[1..], t);
    }
  }

  /** What `int(s)` reads: the sign after the leading whitespace, the digit run after it, and the text after the run. */
  datatype Scanned = Scanned(negative: bool, run: string, rest: string)

  function Scan(s: string): (r: Scanned)
    ensures forall i :: 0 <= i < |r.run| ==> IsDigitOrUnderscore(r.run[i])
  {
    var signed := SplitSign(SkipSpace(s));
    var run := DigitRun(signed.1);
    Scanned(signed.0, run, signed.1[|run|..])
  }

  /** The number of digits in a run, underscores not counted. */
  function DigitCount(run: string): nat
    requires forall i :: 0 <= i < |run| ==> IsDigitOrUnderscore(run[i])
  {
    |DropUnderscores(run)|
  }

  /** The whole text is whitespace, a sign, digit groups and whitespace. */
  predicate IntLiteral(s: string) {
    DigitGroups(Scan(s).run) && AllIntSpace(Scan(s).rest)
  }

  /** The digit run is well formed and longer than the limit, whatever follows it. */
  predicate OverLimit(s: string) {
    DigitGroups(Scan(s).run) && DigitCount(Scan(s).run) > MaxStrDigits
  }

  /** `repr(s)` for a string that needs no escaping. */
  function Quoted(s: string): string {
    "'" + s + "'"
  }

  /** The first `n` characters of `t`, as `%.<n>R` cuts a repr. */
  function Truncated(t: string, n: nat): (r: string)
    ensures |r| <= n && |r| <= |t| && r == t[..|r|]
    ensures |t| <= n ==> r == t
  {
    if |t| <= n then t else t[..n]
  }

  const InvalidLiteralPrefix: string := "invalid literal for int() with base 10: "

  /** The `ValueError` message of `int(s)` for a text that is no literal: at most 200 characters of its repr. */
  function InvalidLiteralMessage(s: string): (m: string)
    ensures |m| <= |InvalidLiteralPrefix| + 200
    ensures |s| <= 198 ==> m == InvalidLiteralPrefix + Quoted(s)
  {
    InvalidLiteralPrefix + Truncated(Quoted(s), 200)
  }

  /** The `ValueError` message of `int()` for a literal of `digits` digits over the limit. */
  function LimitMessage(digits: nat): string {
    "Exceeds the limit (" + NatToString(MaxStrDigits) + " digits) for integer string conversion: value has "
    + NatToString(digits) + " digits; use sys.set_int_max_str_digits() to increase the limit"
  }

  /** The value of a literal's digits, underscores ignored. */
  function LiteralValue(body: string): nat
    requires DigitGroups(body)
  {
    DigitsValue(DropUnderscores(body))
  }

  /**
   * `int(s)` for a string (ASCII digits only), in CPython's order: skip
   * whitespace, read the sign and the run of digits and underscores, refuse
   * a well-formed run over the digit limit, then demand that only
   * whitespace follows a well-formed run.
   */
  function ParseInt(s: string): (r: Outcome<int>)
    ensures r.Ok? <==> IntLiteral(s) && !OverLimit(s)
    ensures OverLimit(s) ==> r == Raised(Error(ValueError, LimitMessage(DigitCount(Scan(s).run))))
    ensures !OverLimit(s) && !IntLiteral(s) ==> r == Raised(Error(ValueError, InvalidLiteralMessage(s)))
    ensures r.Ok? && r.value < 0 ==> Scan(s).negative
  {
    var scanned := Scan(s);
    if DigitGroups(scanned.run) && DigitCount(scanned.run) > MaxStrDigits then
      Raised(Error(ValueError, LimitMessage(DigitCount(scanned.run))))
    else if DigitGroups(scanned.run) && AllIntSpace(scanned.rest) then
      var magnitude: int := LiteralValue(scanned.run);
      Ok(if scanned.negative then -magnitude else magnitude)
    else Raised(Error(ValueError, InvalidLiteralMessage(s)))
  }

  predicate IsSign(sign: string) {
    sign == "" || sign == "+" || sign == "-"
  }

  /** How `int()` scans whitespace, a sign, a digit run and the text after it. */
  lemma ScanParts(lead: string, sign: string, digits: string, rest: string)
    requires AllIntSpace(lead) && IsSign(sign)
    requires |digits| > 0 && forall i :: 0 <= i < |digits| ==> IsDigitOrUnderscore(digits[i])
    requires rest == [] || !IsDigitOrUnderscore(rest[0])
    ensures Scan(lead + sign + digits + rest) == Scanned(sign == "-", digits, rest)
  {
    var t := sign + digits + rest;
    assert lead + sign + digits + rest == lead + t;
    assert t[0] == (if sign == "" then digits[0] else sign[0]);
    SkipSpaceLead(lead, t);
    assert SplitSign(t).1 == digits + rest by {
      if sign != "" {
        assert t[1..] == digits + rest;
      }
    }
    DigitRunAppend(digits, rest);
    assert DigitRun(digits) == digits by {
      assert digits == digits + [];
      DigitRunAppend(digits, []);
      DigitRunWhole(digits);
    }
    assert (digits + rest)[|digits|..] == rest;
  }

  /** A text of digits and underscores only is its own run. */
  lemma {:induction false} DigitRunWhole(s: string)
    requires forall i :: 0 <= i < |s| ==> IsDigitOrUnderscore(s[i])
    ensures DigitRun(s) == s
  {
    if s != [] {
      DigitRunWhole(s[1..]);
      assert s == [s[0]] + s[1..];
    }
  }

  /**
   * `int()` accepts whitespace, an optional sign, digit groups of at most
   * 4300 digits and whitespace, and reads their value.
   */
  lemma ParseIntOfParts(lead: string, sign: string, digits: string, trail: string)
    requires AllIntSpace(lead) && AllIntSpace(trail) && IsSign(sign)
    requires DigitGroups(digits) && DigitCount(digits) <= MaxStrDigits
    ensures ParseInt(lead + sign + digits + trail) == Ok(if sign == "-" then -(LiteralValue(digits) as int) else LiteralValue(digits))
  {
    ScanParts(lead, sign, digits, trail);
  }

  /** The pieces `Scan` finds put back together give the text, with whitespace in front and a sign. */
  lemma ScanDecomposes(s: string) returns (lead: string, sign: string, run: string, rest: string)
    ensures s == lead + sign + run + rest
    ensures Scan(s) == Scanned(sign == "-", run, rest)
    ensures AllIntSpace(lead) && IsSign(sign)
  {
    var t := SkipSpace(s);
    lead := SkipSplit(s);
    var body := SplitSign(t).1;
    sign := SignSplit(t);
    run := DigitRun(body);
    rest := body[|run|..];
    RunSplit(body);
    Reassemble(s, lead, t, sign, body, run, rest);
  }

  lemma Reassemble(s: string, lead: string, t: string, sign: string, body: string, run: string, rest: string)
    requires s == lead + t && t == sign + body && body == run + rest
    ensures s == lead + sign + run + rest
  {
  }

  lemma SkipSplit(s: string) returns (lead: string)
    ensures s == lead + SkipSpace(s) && AllIntSpace(lead)
  {
    SkipSpaceSuffix(s);
    lead := s[..|s| - |SkipSpace(s)|];
    assert s == lead + s[|s| - |SkipSpace(s)|..];
  }

  lemma SignSplit(t: string) returns (sign: string)
    ensures t == sign + SplitSign(t).1 && IsSign(sign) && (sign == "-" <==> SplitSign(t).0)
  {
    if |t| > 0 && (t[0] == '-' || t[0] == '+') {
      sign := [t[0]];
      assert t == [t[0]] + t[1..];
    } else {
      sign := "";
      assert t == "" + t;
    }
  }

  lemma RunSplit(body: string)
    ensures body == DigitRun(body) + body[|DigitRun(body)|..]
  {
    var run := DigitRun(body);
    DigitRunPrefix(body);
    assert body == body[..|run|] + body[|run|..];
  }

  /** Conversely, every text `int()` accepts is made of those parts. */
  lemma ParseIntOkParts(s: string) returns (lead: string, sign: string, digits: string, trail: string)
    requires ParseInt(s).Ok?
    ensures s == lead + sign + digits + trail
    ensures AllIntSpace(lead) && AllIntSpace(trail) && IsSign(sign)
    ensures DigitGroups(digits) && DigitCount(digits) <= MaxStrDigits
    ensures ParseInt(s).value == if sign == "-" then -(LiteralValue(digits) as int) else LiteralValue(digits)
  {
    lead, sign, digits, trail := ScanDecomposes(s);
  }

  /**
   * A well-formed run of more than 4300 digits raises the limit error,
   * even when text that is no whitespace follows it.
   */
  lemma ParseIntOverLimit(lead: string, sign: string, digits: string, rest: string)
    requires AllIntSpace(lead) && IsSign(sign)
    requires DigitGroups(digits) && DigitCount(digits) > MaxStrDigits
    requires rest == [] || !IsDigitOrUnderscore(rest[0])
    ensures ParseInt(lead + sign + digits + rest) == Raised(Error(ValueError, LimitMessage(DigitCount(digits))))
  {
    ScanParts(lead, sign, digits, rest);
  }

  /** A digit string is its own digit groups, and no underscore changes its value. */
  lemma DigitsLiteralValue(digits: string)
    requires |digits| > 0 && forall i :: 0 <= i < |digits| ==> IsDigit(digits[i])
    ensures DigitGroups(digits) && LiteralValue(digits) == DigitsValue(digits)
    ensures DigitCount(digits) == |digits|
  {
    DigitsAreGroups(digits);
    DropUnderscoresOfDigits(digits);
  }

  /** `str(n)` stays within the digit limit: `int()` can read it back. */
  predicate FitsDigitLimit(n: int) {
    |NatToString(if n < 0 then -n else n)| <= MaxStrDigits
  }

  /** `int()` of a signed digit string: its value within the limit, the limit error beyond it. */
  lemma ParseIntOfSigned(sign: string, digits: string)
    requires IsSign(sign) && DigitGroups(digits)
    ensures DigitCount(digits) <= MaxStrDigits ==>
      ParseInt(sign + digits) == Ok(if sign == "-" then -(LiteralValue(digits) as int) else LiteralValue(digits))
    ensures DigitCount(digits) > MaxStrDigits ==>
      ParseInt(sign + digits) == Raised(Error(ValueError, LimitMessage(DigitCount(digits))))
  {
    ScanSigned(sign, digits);
  }

  /** How `int()` scans a signed digit string with nothing around it. */
  lemma ScanSigned(sign: string, digits: string)
    requires IsSign(sign) && |digits| > 0 && forall i :: 0 <= i < |digits| ==> IsDigitOrUnderscore(digits[i])
    ensures Scan(sign + digits) == Scanned(sign == "-", digits, "")
  {
    ScanParts("", sign, digits, "");
    assert "" + sign + digits + "" == sign + digits;
  }

  /** `int(str(n)) == n` within the digit limit; beyond it, the limit error. */
  lemma ParseIntOfIntToString(n: int)
    ensures FitsDigitLimit(n) ==> ParseInt(IntToString(n)) == Ok(n)
    ensures !FitsDigitLimit(n) ==>
      ParseInt(IntToString(n)) == Raised(Error(ValueError, LimitMessage(|NatToString(if n < 0 then -n else n)|)))
  {
    var magnitude: nat := if n < 0 then -n else n;
    var digits := NatToString(magnitude);
    NatToStringRoundTrip(magnitude);
    DigitsLiteralValue(digits);
    if n < 0 {
      ParseIntOfSigned("-", digits);
    } else {
      assert IntToString(n) == "" + digits;
      ParseIntOfSigned("", digits);
    }
  }

  /** `int()` of an empty or all-whitespace string raises the invalid-literal `ValueError`. */
  lemma ParseIntOfBlank(s: string)
    requires AllSpace(s)
    ensures ParseInt(s) == Raised(Error(ValueError, InvalidLiteralMessage(s)))
  {
    var t := SkipSpace(s);
    SkipSpaceSuffix(s);
    if t != [] {
      assert IsSpace(s[|s| - |t|]);
      assert SplitSign(t) == (false, t);
    }
    assert Scan(s).run == [];
  }

  /**
   * Whitespace around a text does not change what `int()` makes of it,
   * except that an invalid-literal message quotes the text it was given.
   */
  lemma ParseIntIgnoresSpaces(lead: string, s: string, trail: string)
    requires AllIntSpace(lead) && AllIntSpace(trail)
    requires |s| > 0 && !IntSpace(s[0]) && !IntSpace(s[|s| - 1])
    ensures ParseInt(lead + s + trail).Ok? <==> ParseInt(s).Ok?
    ensures ParseInt(lead + s + trail) == ParseInt(s)
         || (ParseInt(s) == Raised(Error(ValueError, InvalidLiteralMessage(s)))
             && ParseInt(lead + s + trail) == Raised(Error(ValueError, InvalidLiteralMessage(lead + s + trail))))
  {
    var padded := lead + s + trail;
    ScanPadded(lead, s, trail);
    RestPadded(Scan(s).rest, s, trail);
    assert IntLiteral(padded) <==> IntLiteral(s);
    assert OverLimit(padded) <==> OverLimit(s);
  }

  /** Whitespace around a text leaves its sign and digit run alone and only lengthens the text after the run. */
  lemma ScanPadded(lead: string, s: string, trail: string)
    requires AllIntSpace(lead) && AllIntSpace(trail)
    requires |s| > 0 && !IntSpace(s[0])
    ensures Scan(lead + s + trail) == Scanned(Scan(s).negative, Scan(s).run, Scan(s).rest + trail)
  {
    SkipPadded(lead, s, trail);
    SignPadded(s, trail);
    RunPadded(SplitSign(s).1, trail);
  }

  /** Leading whitespace is skipped up to the text. */
  lemma SkipPadded(lead: string, s: string, trail: string)
    requires AllIntSpace(lead) && |s| > 0 && !IntSpace(s[0])
    ensures SkipSpace(lead + s + trail) == s + trail && SkipSpace(s) == s
  {
    assert lead + s + trail == lead + (s + trail);
    SkipSpaceLead(lead, s + trail);
  }

  /** The sign is read from the text's first character alone. */
  lemma SignPadded(s: string, trail: string)
    requires |s| > 0
    ensures SplitSign(s + trail) == (SplitSign(s).0, SplitSign(s).1 + trail)
  {
    if s[0] == '-' || s[0] == '+' {
      assert (s + trail)[1..] == s[1..] + trail;
    }
  }

  /** Trailing whitespace neither extends the digit run nor changes what precedes it. */
  lemma RunPadded(body: string, trail: string)
    requires AllIntSpace(trail)
    ensures DigitRun(body + trail) == DigitRun(body)
    ensures (body + trail)[|DigitRun(body)|..] == body[|DigitRun(body)|..] + trail
  {
    DigitRunAppend(body, trail);
  }

  /** Trailing whitespace does not change whether the text after the run is all whitespace. */
  lemma RestPadded(rest: string, s: string, trail: string)
    requires AllIntSpace(trail) && |s| > 0 && !IntSpace(s[|s| - 1])
    requires |rest| > 0 ==> rest[|rest| - 1] == s[|s| - 1]
    ensures AllIntSpace(rest + trail) <==> AllIntSpace(rest)
  {
    if rest == [] {
      assert rest + trail == trail;
    } else {
      assert (rest + trail)[|rest| - 1] == rest[|rest| - 1];
    }
  }

  /** `int("　5") == 5`: the ideographic space (U+3000) is skipped like any other whitespace. */
  lemma ParseIntOfWideSpaced()
    ensures ParseInt("\U{3000}5") == Ok(5)
  {
    assert "\U{3000}5" == "\U{3000}" + "" + "5" + "";
    DigitsLiteralValue("5");
    ParseIntOfParts("\U{3000}", "", "5", "");
  }

  /** `int("\x1c5")` raises: the information separators U+001C to U+001F are not skipped. */
  lemma ParseIntOfSeparatorSpaced()
    ensures ParseInt("\U{001C}5") == Raised(Error(ValueError, InvalidLiteralMessage("\U{001C}5")))
  {
    var s := "\U{001C}5";
    assert SkipSpace(s) == s;
    assert SplitSign(s) == (false, s);
    assert DigitRun(s) == [];
  }

  /** The message of a missing required variable. */
  function RequiredMessage(key: string): string {
    key + " environment variable is required. Set it in .env or export it."
  }

  /** `os.getenv(key)` tested with `not`: a missing and an empty variable both fail. */
  predicate Present(env: Environment, key: string) {
    key in env && env[key] != ""
  }

  /** The value of a required variable, or the `ValueError` naming it. */
  function Required(env: Environment, key: string): (r: Outcome<string>)
    ensures r.Ok? <==> Present(env, key)
    ensures r.Ok? ==> r.value == env[key]
    ensures r.Raised? ==> r.exc == Error(ValueError, RequiredMessage(key))
  {
    if Present(env, key) then Ok(env[key]) else Raised(Error(ValueError, RequiredMessage(key)))
  }

  /**
   * `PipelineConfig.from_env()` over the environment: the three required
   * variables in order, then the optional ones, then the two integers in
   * argument order.
   */
  function FromEnv(env: Environment): (r: Outcome<PipelineConfig>)
    ensures r.Ok? <==> Present(env, "GCS_BUCKET") && Present(env, "BQ_PROJECT") && Present(env, "BQ_DATASET")
                       && ParseInt(GetEnvOr(env, "MAX_UPLOAD_SIZE_MB", "500")).Ok?
                       && ParseInt(GetEnvOr(env, "UPLOAD_TIMEOUT_SECONDS", "300")).Ok?
    ensures r.Raised? ==> r.exc.kind == ValueError
  {
    match Required(env, "GCS_BUCKET")
    case Raised(e) => Raised(e)
    case Ok(gcsBucket) =>
      match Required(env, "BQ_PROJECT")
      case Raised(e) => Raised(e)
      case Ok(bqProject) =>
        match Required(env, "BQ_DATASET")
        case Raised(e) => Raised(e)
        case Ok(bqDataset) =>
          match ParseInt(GetEnvOr(env, "MAX_UPLOAD_SIZE_MB", "500"))
          case Raised(e) => Raised(e)
          case Ok(maxUpload) =>
            match ParseInt(GetEnvOr(env, "UPLOAD_TIMEOUT_SECONDS", "300"))
            case Raised(e) => Raised(e)
            case Ok(timeout) =>
              Ok(PipelineConfig(
                gcsBucket, bqProject, bqDataset,
                GetEnv(env, "ELASTICSEARCH_URL"),
                GetEnv(env, "ES_API_KEY"),
                Some(GetEnvOr(env, "ES_INDEX", DefaultEsIndex)),
                GetEnv(env, "GOOGLE_APPLICATION_CREDENTIALS"),
                maxUpload, timeout))
  }

  /** The required variables are checked in the order GCS_BUCKET, BQ_PROJECT, BQ_DATASET. */
  lemma RequiredInOrder(env: Environment)
    ensures !Present(env, "GCS_BUCKET") ==> FromEnv(env) == Raised(Error(ValueError, RequiredMessage("GCS_BUCKET")))
    ensures Present(env, "GCS_BUCKET") && !Present(env, "BQ_PROJECT") ==>
      FromEnv(env) == Raised(Error(ValueError, RequiredMessage("BQ_PROJECT")))
    ensures Present(env, "GCS_BUCKET") && Present(env, "BQ_PROJECT") && !Present(env, "BQ_DATASET") ==>
      FromEnv(env) == Raised(Error(ValueError, RequiredMessage("BQ_DATASET")))
  {
  }

  /** A loaded configuration copies the environment: required values, optional ones or None, and the parsed integers. */
  lemma FromEnvFields(env: Environment)
    requires FromEnv(env).Ok?
    ensures var c := FromEnv(env).value;
      && c.gcsBucket == env["GCS_BUCKET"] && c.bqProject == env["BQ_PROJECT"] && c.bqDataset == env["BQ_DATASET"]
      && (c.elasticsearchUrl.None? <==> "ELASTICSEARCH_URL" !in env)
      && (c.esApiKey.None? <==> "ES_API_KEY" !in env)
      && (c.googleCredentialsPath.None? <==> "GOOGLE_APPLICATION_CREDENTIALS" !in env)
      && c.esIndex == Some(GetEnvOr(env, "ES_INDEX", DefaultEsIndex))
      && Ok(c.maxUploadSizeMb) == ParseInt(GetEnvOr(env, "MAX_UPLOAD_SIZE_MB", "500"))
      && Ok(c.uploadTimeoutSeconds) == ParseInt(GetEnvOr(env, "UPLOAD_TIMEOUT_SECONDS", "300"))
  {
  }

  /** With only the required variables set, every other setting takes its default. */
  lemma FromEnvDefaults(env: Environment)
    requires Present(env, "GCS_BUCKET") && Present(env, "BQ_PROJECT") && Present(env, "BQ_DATASET")
    requires "ELASTICSEARCH_URL" !in env && "ES_API_KEY" !in env && "ES_INDEX" !in env
    requires "GOOGLE_APPLICATION_CREDENTIALS" !in env
    requires "MAX_UPLOAD_SIZE_MB" !in env && "UPLOAD_TIMEOUT_SECONDS" !in env
    ensures FromEnv(env).Ok?
    ensures var c := FromEnv(env).value;
      && c.elasticsearchUrl.None? && c.esApiKey.None? && c.googleCredentialsPath.None?
      && c.esIndex == Some(DefaultEsIndex)
      && c.maxUploadSizeMb == DefaultMaxUploadSizeMb && c.uploadTimeoutSeconds == DefaultUploadTimeoutSeconds
  {
    ParseDefaults();
  }

  /** `int("500") == 500` and `int("300") == 300`. */
  lemma ParseDefaults()
    ensures ParseInt("500") == Ok(500) && ParseInt("300") == Ok(300)
  {
    ParseThreeDigits('5', '0', '0');
    ParseThreeDigits('3', '0', '0');
  }

  /** `int()` of a three-digit string. */
  lemma ParseThreeDigits(a: char, b: char, c: char)
    requires IsDigit(a) && IsDigit(b) && IsDigit(c)
    ensures ParseInt([a, b, c]) == Ok(((a as int - '0' as int) * 10 + (b as int - '0' as int)) * 10 + (c as int - '0' as int))
  {
    var s := [a, b, c];
    assert s[..2] == [a, b] && [a, b][..1] == [a] && [a][..0] == [];
    assert DigitsValue([a]) == a as int - '0' as int;
    assert DigitsValue([a, b]) == DigitsValue([a]) * 10 + (b as int - '0' as int);
    assert DigitsValue(s) == DigitsValue([a, b]) * 10 + (c as int - '0' as int);
    DigitsLiteralValue(s);
    assert s == "" + "" + s + "";
    ParseIntOfParts("", "", s, "");
  }

  /** The numeric settings are read with `int()`: `str(n)` in the environment gives back `n` within the digit limit. */
  lemma FromEnvParsesIntegers(env: Environment, maxUpload: int, timeout: int)
    requires Present(env, "GCS_BUCKET") && Present(env, "BQ_PROJECT") && Present(env, "BQ_DATASET")
    requires "MAX_UPLOAD_SIZE_MB" in env && env["MAX_UPLOAD_SIZE_MB"] == IntToString(maxUpload)
    requires "UPLOAD_TIMEOUT_SECONDS" in env && env["UPLOAD_TIMEOUT_SECONDS"] == IntToString(timeout)
    ensures FromEnv(env).Ok? <==> FitsDigitLimit(maxUpload) && FitsDigitLimit(timeout)
    ensures FromEnv(env).Ok? ==>
      FromEnv(env).value.maxUploadSizeMb == maxUpload && FromEnv(env).value.uploadTimeoutSeconds == timeout
  {
    ParseIntOfIntToString(maxUpload);
    ParseIntOfIntToString(timeout);
  }

  /** The module-level `_config` of `get_config`, as an object holding the loaded configuration. */
  class ConfigSingleton {
    var config: Option<PipelineConfig>

    /** At import time nothing is loaded. */
    constructor()
      ensures config == None
    {
      config := None;
    }

    /**
     * `get_config()`: the stored configuration once one is loaded (the
     * environment is then not read again); otherwise `from_env()`, stored
     * only when it succeeds.
     */
    method GetConfig(env: Environment) returns (r: Outcome<PipelineConfig>)
      modifies this
      ensures old(config).Some? ==> r == Ok(old(config).value) && config == old(config)
      ensures old(config).None? ==> r == FromEnv(env) && config == (if r.Ok? then Some(r.value) else None)
      ensures r.Ok? ==> config == Some(r.value)
    {
      if config.None? {
        var loaded := FromEnv(env);
        if loaded.Raised? {
          return loaded;
        }
        config := Some(loaded.value);
      }
      r := Ok(config.value);
    }
  }
}
