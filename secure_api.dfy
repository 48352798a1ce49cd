/**
 * The two checks of templates/miscellaneous/api_2.py that raise instead of
 * returning: `sanitize_input` and `Config.validate`. The HTTP exceptions
 * and the ValueErrors become the error side of a Result. Environment
 * variables are given already read: None where unset.
 */
module SecureApi {
  import opened Wrappers
  import opened Text

  // ------------------------------------------------------------ sanitize_input

  /** Substrings that mark an input as a script injection, after lower-casing. */
  const DangerousPatterns: seq<string> := ["<script", "javascript:", "data:", "vbscript:"]

  datatype SanitizeError = TooLong(maxLength: int) | InvalidInput

  predicate Dangerous(text: string)
  {
    exists p | p in DangerousPatterns :: Contains(Lower(text), p)
  }

  /** `max_length and len(text) > max_length`: 0 and None mean no limit, a negative limit refuses everything. */
  predicate OverLimit(text: string, maxLength: Option<int>)
  {
    maxLength.Some? && maxLength.value != 0 && |text| > maxLength.value
  }

  /**
   * `sanitize_input`: too long (measured before stripping), then dangerous,
   * else the text stripped of surrounding whitespace.
   */
  function SanitizeInput(text: string, maxLength: Option<int>): (r: Result<string, SanitizeError>)
    ensures OverLimit(text, maxLength) <==> r == Err(TooLong(maxLength.GetOr(0)))
    ensures !OverLimit(text, maxLength) && Dangerous(text) <==> r == Err(InvalidInput)
    ensures r.Ok? <==> !OverLimit(text, maxLength) && !Dangerous(text)
    ensures r.Ok? ==> r.value == Strip(text)
  {
    if OverLimit(text, maxLength) then Err(TooLong(maxLength.value))
    else if Dangerous(text) then Err(InvalidInput)
    else Ok(Strip(text))
  }

  /** A pattern found in a piece of `text` is found in `text`, with both lower-cased. */
  lemma ContainsInSlice(text: string, i: nat, n: nat, p: string)
    requires i + n <= |text| && Contains(Lower(text[i..i + n]), p)
    ensures Contains(Lower(text), p)
  {
    var low := Lower(text);
    LowerOfSlice(text, i, n);
    var j := ContainsWitness(low[i..i + n], p);
    assert low[i + j..i + j + |p|] == low[i..i + n][j..j + |p|];
    ContainsAt(low, p, i + j);
  }

  /** Lower-casing a piece is taking the same piece of the lower-cased text. */
  lemma LowerOfSlice(text: string, i: nat, n: nat)
    requires i + n <= |text|
    ensures Lower(text[i..i + n]) == Lower(text)[i..i + n]
  {
    var piece, low := text[i..i + n], Lower(text);
    var lp := Lower(piece);
    forall k | 0 <= k < n ensures lp[k] == low[i..i + n][k] {
      assert piece[k] == text[i + k];
      assert lp[k] == LowerChar(piece[k]) && low[i + k] == LowerChar(text[i + k]);
    }
    assert |lp| == |low[i..i + n]| == n;
    assert lp == low[i..i + n];
  }

  /** Stripping cannot create a dangerous pattern. */
  lemma StrippedStaysClean(text: string)
    requires !Dangerous(text)
    ensures !Dangerous(Strip(text))
  {
    var i := StripIsSlice(text);
    SliceStaysClean(text, i, Strip(text));
  }

  lemma SliceStaysClean(text: string, i: nat, piece: string)
    requires i + |piece| <= |text| && piece == text[i..i + |piece|] && !Dangerous(text)
    ensures !Dangerous(piece)
  {
    forall p | p in DangerousPatterns ensures !Contains(Lower(piece), p) {
      if Contains(Lower(piece), p) {
        ContainsInSlice(text, i, |piece|, p);
      }
    }
  }

  /** What `sanitize_input` returns carries no dangerous pattern and passes it again unchanged. */
  lemma SanitizedIsClean(text: string, maxLength: Option<int>)
    requires SanitizeInput(text, maxLength).Ok?
    ensures !Dangerous(Strip(text))
    ensures SanitizeInput(Strip(text), maxLength) == Ok(Strip(text))
  {
    StrippedStaysClean(text);
    StripIdempotent(text);
  }

  // ------------------------------------------------------------ Config.validate

  /** The settings `Config.validate` looks at. */
  datatype ApiSettings = ApiSettings(
    databaseUrl: Option<string>, aiApiKey: Option<string>, aiBaseUrl: Option<string>,
    secretKey: string, adminApiKey: string, redisSentinels: seq<string>)

  datatype ConfigError = MissingVariables(names: seq<string>) | InvalidSentinels

  /** Python truthiness of an optional string. */
  predicate Set(v: Option<string>)
  {
    v.Some? && v.value != ""
  }

  /** The required variables, by name, in declared order. */
  function Required(s: ApiSettings): seq<(string, Option<string>)>
  {
    [("DATABASE_URL", s.databaseUrl), ("AI_API_KEY", s.aiApiKey), ("AI_BASE_URL", s.aiBaseUrl),
     ("SECRET_KEY", Some(s.secretKey)), ("ADMIN_API_KEY", Some(s.adminApiKey))]
  }

  /** `[var for var in required_vars if not getattr(cls, var)]`. */
  function Unset(vars: seq<(string, Option<string>)>): (r: seq<string>)
    ensures |r| <= |vars|
    ensures forall n :: n in r <==> exists i :: 0 <= i < |vars| && vars[i].0 == n && !Set(vars[i].1)
  {
    if vars == [] then []
    else
      var rest := Unset(vars[1..]);
      assert forall i :: 1 <= i < |vars| ==> vars[1..][i - 1] == vars[i];
      (if Set(vars[0].1) then [] else [vars[0].0]) + rest
  }

  /** `int(port)` succeeds: optional sign, then decimal digits with single underscores between them, whitespace around. */
  predicate IntLiteral(t: string)
  {
    var b := if t != [] && (t[0] == '+' || t[0] == '-') then t[1..] else t;
    && b != [] && IsDigit(b[0]) && IsDigit(b[|b| - 1])
    && (forall i :: 0 <= i < |b| ==> IsDigit(b[i]) || b[i] == '_')
    && (forall i :: 0 <= i < |b| - 1 ==> b[i] == '_' ==> b[i + 1] != '_')
  }

  /** `host, port = sentinel.split(":")` and `int(port)` both succeed. */
  predicate SentinelOk(sentinel: string)
  {
    var parts := SplitOn(sentinel, ':');
    |parts| == 2 && IntLiteral(Strip(parts[1]))
  }

  /**
   * `Config.validate`: the unset required variables, in declared order,
   * are reported first; only when there are none are the sentinels
   * checked, and any malformed one fails the whole list.
   */
  function ValidateConfig(s: ApiSettings): (r: Result<(), ConfigError>)
    ensures r.Ok? <==> (forall i :: 0 <= i < |Required(s)| ==> Set(Required(s)[i].1))
                       && forall x | x in s.redisSentinels :: SentinelOk(x)
    ensures r.Err? && r.error.MissingVariables? ==>
      r.error.names == Unset(Required(s)) && r.error.names != []
    ensures r == Err(InvalidSentinels) ==> Unset(Required(s)) == []
  {
    var missing := Unset(Required(s));
    forall i | 0 <= i < |Required(s)| && missing == [] ensures Set(Required(s)[i].1) {
      var v := Required(s)[i];
      assert !Set(v.1) ==> v.0 in missing;
    }
    if missing != [] then
      assert missing[0] in missing;
      Err(MissingVariables(missing))
    else if exists x | x in s.redisSentinels :: !SentinelOk(x) then Err(InvalidSentinels)
    else Ok(())
  }
}
