/**
 * The prompt-engineering service (api_1.py): the technique-combination
 * validator and the other request validators, template rendering with its
 * brace sanitiser, the phrase-based safety check, the token estimate, and
 * the in-memory store (TTL cache, per-minute request counters, usage
 * totals, the per-user history cap and the library star toggle).
 */
module PromptStore {
  import opened Wrappers
  import opened Text

  // ------------------------------------------------------------ techniques

  /** The keys of the technique table, in declaration order. */
  const Techniques: seq<string> := ["chain_of_thought", "tree_of_thought", "react", "few_shot", "zero_shot",
    "role_prompting", "constraint_based", "iterative_refinement", "meta_prompting", "safety_first"]

  /** Each technique's `combinable_with` list; unknown names have none. */
  function Combinable(t: string): seq<string>
  {
    match t
    case "chain_of_thought" => ["few_shot", "role_prompting", "constraint_based", "safety_first"]
    case "tree_of_thought" => ["chain_of_thought", "constraint_based", "safety_first"]
    case "react" => ["chain_of_thought", "constraint_based", "role_prompting"]
    case "few_shot" => ["chain_of_thought", "role_prompting", "constraint_based", "zero_shot"]
    case "zero_shot" => ["role_prompting", "constraint_based", "safety_first"]
    case "role_prompting" => ["chain_of_thought", "few_shot", "constraint_based", "meta_prompting"]
    case "constraint_based" => ["chain_of_thought", "role_prompting", "safety_first", "react"]
    case "iterative_refinement" => ["chain_of_thought", "tree_of_thought", "constraint_based"]
    case "meta_prompting" => ["role_prompting", "constraint_based", "safety_first"]
    case "safety_first" => ["chain_of_thought", "constraint_based", "role_prompting", "zero_shot"]
    case _ => []
  }

  datatype TechniqueError = InvalidTechniques(names: seq<string>) | CannotCombine(technique: string, other: string)

  /** The names in `v` that are not techniques, in order and with repeats. */
  function UnknownTechniques(v: seq<string>): (r: seq<string>)
    ensures forall t :: t in r <==> t in v && t !in Techniques
  {
    if v == [] then []
    else (if v[0] in Techniques then [] else [v[0]]) + UnknownTechniques(v[1..])
  }

  /** Some pair (i, j) with i != j whose second technique is not combinable with the first. */
  predicate Clash(v: seq<string>, i: int, j: int)
  {
    0 <= i < |v| && 0 <= j < |v| && i != j && v[j] !in Combinable(v[i])
  }

  /** The first clashing column of row `i`, scanning columns from `j`. */
  function ClashInRow(v: seq<string>, i: nat, j: nat): (r: Option<nat>)
    requires i < |v| && j <= |v|
    ensures r.Some? ==> j <= r.value && Clash(v, i, r.value)
                        && forall k :: j <= k < r.value ==> !Clash(v, i, k)
    ensures r.None? ==> forall k :: j <= k < |v| ==> !Clash(v, i, k)
    decreases |v| - j
  {
    if j == |v| then None
    else if Clash(v, i, j) then Some(j)
    else ClashInRow(v, i, j + 1)
  }

  /** The first clashing pair in row-major order, scanning rows from `i`, as the nested loop does. */
  function FirstClash(v: seq<string>, i: nat): (r: Option<(nat, nat)>)
    requires i <= |v|
    ensures r.Some? ==> i <= r.value.0 && Clash(v, r.value.0, r.value.1)
    ensures r.None? ==> forall a, b :: i <= a < |v| && 0 <= b < |v| ==> !Clash(v, a, b)
    decreases |v| - i
  {
    if i == |v| then None
    else match ClashInRow(v, i, 0)
      case Some(j) => Some((i, j))
      case None => FirstClash(v, i + 1)
  }

  /**
   * The `techniques` validator: an empty list becomes the default
   * technique; unknown names are reported together; then the first clashing
   * pair is reported.
   */
  function ValidateTechniques(v: seq<string>): (r: Result<seq<string>, TechniqueError>)
    ensures v == [] ==> r == Ok(["chain_of_thought"])
    ensures v != [] && r.Ok? ==> r.value == v
    ensures r.Err? && r.error.InvalidTechniques? ==>
              r.error.names != [] && forall t :: t in r.error.names <==> t in v && t !in Techniques
    ensures r.Err? && r.error.CannotCombine? ==>
              exists i, j :: Clash(v, i, j) && r.error == CannotCombine(v[i], v[j])
  {
    if v == [] then Ok(["chain_of_thought"])
    else
      var unknown := UnknownTechniques(v);
      if unknown != [] then Err(InvalidTechniques(unknown))
      else match FirstClash(v, 0)
        case Some((i, j)) => Err(CannotCombine(v[i], v[j]))
        case None => Ok(v)
  }

  /**
   * A non-empty list is accepted exactly when every name is a technique and
   * every ordered pair of distinct positions is combinable.
   */
  lemma ValidateTechniquesAccepts(v: seq<string>)
    requires v != []
    ensures ValidateTechniques(v).Ok? <==>
              (forall t :: t in v ==> t in Techniques)
              && (forall i, j :: 0 <= i < |v| && 0 <= j < |v| && i != j ==> v[j] in Combinable(v[i]))
  {
    if UnknownTechniques(v) == [] {
      if FirstClash(v, 0).Some? {
        var c := FirstClash(v, 0).value;
        assert Clash(v, c.0, c.1);
      } else {
        forall i, j | 0 <= i < |v| && 0 <= j < |v| && i != j
          ensures v[j] in Combinable(v[i])
        {
          assert !Clash(v, i, j);
        }
      }
    } else {
      assert UnknownTechniques(v)[0] in UnknownTechniques(v);
    }
  }

  /** No technique lists itself, so naming a technique twice is always refused. */
  lemma RepeatedTechniqueRejected(v: seq<string>, i: nat, j: nat)
    requires i < |v| && j < |v| && i != j && v[i] == v[j]
    ensures ValidateTechniques(v).Err?
  {
    assert forall t :: t in Techniques ==> t !in Combinable(t);
    assert !Clash(v, i, j) ==> v[i] !in Techniques;
    ValidateTechniquesAccepts(v);
  }

  /** Combinability is not symmetric: react lists chain_of_thought but not the reverse. */
  lemma ReactWithChainOfThoughtRejected()
    ensures ValidateTechniques(["react", "chain_of_thought"]) == Err(CannotCombine("chain_of_thought", "react"))
    ensures ValidateTechniques(["chain_of_thought", "react"]) == Err(CannotCombine("chain_of_thought", "react"))
  {
    var v := ["react", "chain_of_thought"];
    assert ClashInRow(v, 0, 0) == None;
    assert ClashInRow(v, 1, 0) == Some(0);
    var w := ["chain_of_thought", "react"];
    assert ClashInRow(w, 0, 0) == Some(1);
  }

  datatype FieldError = InvalidSafetyLevel | InvalidAiModel

  const SafetyLevels: seq<string> := ["low", "medium", "high", "maximum"]
  const AiModels: seq<string> := ["llama-3.3-70b-instruct", "gpt-4", "claude-3"]

  /** The `safetyLevel` validator: one of the four levels, returned unchanged. */
  function ValidateSafetyLevel(v: string): (r: Result<string, FieldError>)
    ensures r.Ok? <==> v in SafetyLevels
    ensures r.Ok? ==> r.value == v
    ensures r.Err? ==> r.error == InvalidSafetyLevel
  {
    if v in SafetyLevels then Ok(v) else Err(InvalidSafetyLevel)
  }

  /** The `aiModel` validator: a key of the model table, returned unchanged. */
  function ValidateAiModel(v: string): (r: Result<string, FieldError>)
    ensures r.Ok? <==> v in AiModels
    ensures r.Ok? ==> r.value == v
    ensures r.Err? ==> r.error == InvalidAiModel
  {
    if v in AiModels then Ok(v) else Err(InvalidAiModel)
  }

  // ------------------------------------------------------------ template rendering

  function Placeholder(key: string): (p: string)
    ensures |p| == |key| + 4 && p[|p| - 2..] == "}}"
  {
    "{{" + key + "}}"
  }

  /** `str(value).replace("{{", "").replace("}}", "")`. */
  function SafeValue(v: string): string
  {
    ReplaceAll(ReplaceAll(v, "{{", ""), "}}", "")
  }

  /** The template after substituting the first `|kwargs|` arguments, in order. */
  function Substitute(template: string, kwargs: seq<(string, string)>): string
  {
    if kwargs == [] then template
    else
      var last := kwargs[|kwargs| - 1];
      ReplaceAll(Substitute(template, kwargs[..|kwargs| - 1]), Placeholder(last.0), SafeValue(last.1))
  }

  /**
   * `render_template`: None for an unknown template; otherwise each
   * keyword argument's placeholder is replaced, in argument order, by its
   * sanitised value.
   */
  method RenderTemplate(templates: map<string, string>, name: string, kwargs: seq<(string, string)>)
    returns (r: Option<string>)
    ensures r.None? <==> name !in templates
    ensures r.Some? ==> r.value == Substitute(templates[name], kwargs)
  {
    if name !in templates {
      return None;
    }
    var content := templates[name];
    var i := 0;
    while i < |kwargs|
      invariant 0 <= i <= |kwargs|
      invariant content == Substitute(templates[name], kwargs[..i])
    {
      var (key, value) := kwargs[i];
      assert kwargs[..i + 1][..i] == kwargs[..i];
      content := ReplaceAll(content, Placeholder(key), SafeValue(value));
      i := i + 1;
    }
    assert kwargs[..i] == kwargs;
    return Some(content);
  }

  /** Arguments whose placeholders do not occur leave the template as it is. */
  lemma {:induction false} SubstituteUntouched(template: string, kwargs: seq<(string, string)>)
    requires forall k :: 0 <= k < |kwargs| ==> !Contains(template, Placeholder(kwargs[k].0))
    ensures Substitute(template, kwargs) == template
  {
    if kwargs != [] {
      var init := kwargs[..|kwargs| - 1];
      assert forall k :: 0 <= k < |init| ==> init[k] == kwargs[k];
      SubstituteUntouched(template, init);
      ReplaceAbsent(template, Placeholder(kwargs[|kwargs| - 1].0), SafeValue(kwargs[|kwargs| - 1].1));
    }
  }

  predicate NoDoubleClose(s: string)
  {
    forall i :: 0 <= i < |s| - 1 ==> !(s[i] == '}' && s[i + 1] == '}')
  }

  lemma {:induction false} DeleteCloseLeavesNoPair(s: string)
    ensures NoDoubleClose(ReplaceAll(s, "}}", ""))
    decreases |s|
  {
    var r := ReplaceAll(s, "}}", "");
    if |s| < 2 {
    } else if s[..2] == "}}" {
      DeleteCloseLeavesNoPair(s[2..]);
    } else {
      var t := s[1..];
      var rt := ReplaceAll(t, "}}", "");
      DeleteCloseLeavesNoPair(t);
      assert r == [s[0]] + rt;
      if s[0] == '}' {
        assert t[0] != '}' by { assert s[..2] == [s[0], s[1]]; }
        if |t| >= 2 {
          assert t[..2] != "}}";
        }
        assert rt[0] == t[0];
      }
    }
  }

  /** A sanitised value never contains "}}". */
  lemma SafeValueHasNoClose(v: string)
    ensures !Contains(SafeValue(v), "}}")
  {
    var s := SafeValue(v);
    DeleteCloseLeavesNoPair(ReplaceAll(v, "{{", ""));
    NoPairNoClose(s);
  }

  lemma {:induction false} NoPairNoClose(s: string)
    requires NoDoubleClose(s)
    ensures !Contains(s, "}}")
    decreases |s|
  {
    if |s| >= 2 {
      assert s[..2] == [s[0], s[1]];
    }
    if s != [] {
      NoPairNoClose(s[1..]);
    }
  }

  /** Hence no complete placeholder can come from a value. */
  lemma SafeValueHasNoPlaceholder(v: string, key: string)
    ensures !Contains(SafeValue(v), Placeholder(key))
  {
    var s := SafeValue(v);
    var p := Placeholder(key);
    SafeValueHasNoClose(v);
    if Contains(s, p) {
      var i := ContainsWitness(s, p);
      assert s[i + |p| - 2..i + |p|] == p[|p| - 2..];
      ContainsAt(s, "}}", i + |p| - 2);
      assert false;
    }
  }

  /** The opening pair can survive: the two deletions can bring braces together. */
  lemma SafeValueCanKeepOpen()
    ensures SafeValue("{}}{") == "{{"
  {
    var open, close, v := "{{", "}}", "{}}{";
    assert ReplaceAll(v[3..], open, "") == v[3..];
    assert v[2..][..2] != open && v[2..][1..] == v[3..];
    assert ReplaceAll(v[2..], open, "") == v[2..];
    assert v[1..][..2] != open && v[1..][1..] == v[2..];
    assert ReplaceAll(v[1..], open, "") == v[1..];
    assert v[..2] != open && v[1..] == [v[1]] + v[2..];
    assert ReplaceAll(v, open, "") == v;
    assert v[1..][..2] == close && v[1..][2..] == v[3..];
    assert ReplaceAll(v[1..], close, "") == v[3..];
    assert v[..2] != close;
    assert ReplaceAll(v, close, "") == [v[0]] + v[3..];
  }

  // ------------------------------------------------------------ safety check

  /** The harmful patterns, each a phrase of words separated by `\s+`. */
  const HarmfulPatterns: seq<seq<string>> := [
    ["ignore", "previous", "instructions"], ["ignore", "all", "safety"], ["bypass", "safety"],
    ["generate", "harmful"], ["create", "malicious"], ["hack", "into"], ["exploit", "vulnerability"]]

  /** Lower-case ASCII letters: every word of every pattern is made of them. */
  predicate IsLowerWord(w: string)
  {
    w != [] && forall k :: 0 <= k < |w| ==> 'a' <= w[k] <= 'z'
  }

  /** `w` occurs at `i`, ignoring case. */
  predicate WordAt(s: string, i: nat, w: string)
  {
    i + |w| <= |s| && Lower(s[i..i + |w|]) == w
  }

  /** The phrase matches at `i`, each gap consuming the whole whitespace run. */
  predicate PhraseAt(s: string, i: nat, words: seq<string>)
    requires i <= |s|
    decreases |words|
  {
    words != [] && WordAt(s, i, words[0])
    && (|words| == 1
        || (var j := SpaceEnd(s, i + |words[0]|);
            j > i + |words[0]| && PhraseAt(s, j, words[1..])))
  }

  /** The regular-expression reading: each gap is any non-empty run of whitespace. */
  predicate RegexPhraseAt(s: string, i: nat, words: seq<string>)
    requires i <= |s|
    decreases |words|
  {
    words != [] && WordAt(s, i, words[0])
    && (|words| == 1
        || exists j :: i + |words[0]| < j <= |s| && Spaces(s, i + |words[0]|, j) && RegexPhraseAt(s, j, words[1..]))
  }

  /** A word of letters cannot start inside a whitespace run, so only the whole run fits. */
  lemma OnlyWholeRun(s: string, a: nat, j: nat, w: string)
    requires a < j <= |s| && Spaces(s, a, j) && IsLowerWord(w) && WordAt(s, j, w)
    ensures j == SpaceEnd(s, a)
  {
    var e := SpaceEnd(s, a);
    assert Lower(s[j..j + |w|])[0] == w[0];
    assert !IsSpace(s[j]);
  }

  /** For phrases of letter words the greedy reading is the regular-expression one. */
  lemma GreedyPhraseMatchesRegex(s: string, i: nat, words: seq<string>)
    requires i <= |s|
    requires forall k :: 0 <= k < |words| ==> IsLowerWord(words[k])
    ensures PhraseAt(s, i, words) <==> RegexPhraseAt(s, i, words)
  {
    if PhraseAt(s, i, words) {
      GreedyIsRegex(s, i, words);
    }
    if RegexPhraseAt(s, i, words) {
      RegexIsGreedy(s, i, words);
    }
  }

  /** A greedy match is a regular-expression match: the whole run is one of the runs it allows. */
  lemma {:induction false} GreedyIsRegex(s: string, i: nat, words: seq<string>)
    requires i <= |s| && PhraseAt(s, i, words)
    ensures RegexPhraseAt(s, i, words)
    decreases |words|
  {
    if |words| > 1 {
      var a := i + |words[0]|;
      var e := SpaceEnd(s, a);
      GreedyIsRegex(s, e, words[1..]);
      assert a < e <= |s| && Spaces(s, a, e) && RegexPhraseAt(s, e, words[1..]);
    }
  }

  /** A regular-expression match of letter words is the greedy one: only the whole run can precede a word. */
  lemma {:induction false} RegexIsGreedy(s: string, i: nat, words: seq<string>)
    requires i <= |s| && RegexPhraseAt(s, i, words)
    requires forall k :: 0 <= k < |words| ==> IsLowerWord(words[k])
    ensures PhraseAt(s, i, words)
    decreases |words|
  {
    if |words| > 1 {
      var a := i + |words[0]|;
      var rest := words[1..];
      assert forall k :: 0 <= k < |rest| ==> IsLowerWord(rest[k]) by {
        assert forall k :: 0 <= k < |rest| ==> rest[k] == words[k + 1];
      }
      var j :| a < j <= |s| && Spaces(s, a, j) && RegexPhraseAt(s, j, rest);
      assert WordAt(s, j, rest[0]);
      OnlyWholeRun(s, a, j, rest[0]);
      RegexIsGreedy(s, j, rest);
      assert WordAt(s, i, words[0]) && SpaceEnd(s, a) == j > a && PhraseAt(s, j, words[1..]);
    }
  }

  /** Every harmful pattern is a phrase of lower-case letter words, so the greedy reading applies. */
  lemma HarmfulPatternsAreLetterWords()
    ensures forall n, k :: 0 <= n < |HarmfulPatterns| && 0 <= k < |HarmfulPatterns[n]| ==>
              IsLowerWord(HarmfulPatterns[n][k])
  {
  }

  predicate Matches(s: string, words: seq<string>)
  {
    exists i :: 0 <= i <= |s| && PhraseAt(s, i, words)
  }

  /** Pattern `n` of `patterns` occurs in `s`. */
  predicate PatternFound(s: string, patterns: seq<seq<string>>, n: nat)
  {
    n < |patterns| && Matches(s, patterns[n])
  }

  /** The indices of the patterns found in `s`, in pattern order, from `k` on. */
  function MatchedPatterns(s: string, patterns: seq<seq<string>>, k: nat): (r: seq<nat>)
    requires k <= |patterns|
    ensures |r| <= |patterns| - k
    ensures forall n: nat :: n in r <==> k <= n && PatternFound(s, patterns, n)
    decreases |patterns| - k
  {
    if k == |patterns| then []
    else (if PatternFound(s, patterns, k) then [k] else []) + MatchedPatterns(s, patterns, k + 1)
  }

  datatype SafetyIssue = PromptInjection(pattern: nat) | UnusuallyLong

  function InjectionIssues(matched: seq<nat>): (r: seq<SafetyIssue>)
    ensures |r| == |matched| && UnusuallyLong !in r
    ensures forall n :: PromptInjection(n) in r <==> n in matched
  {
    if matched == [] then [] else [PromptInjection(matched[0])] + InjectionIssues(matched[1..])
  }
  datatype SafetyReport = SafetyReport(safe: bool, riskScore: real, issues: seq<SafetyIssue>)

  function Risk(matched: nat, long: bool): real
  {
    0.2 * matched as real + (if long then 0.1 else 0.0)
  }

  lemma RiskThreshold(matched: nat, long: bool)
    ensures Risk(matched, long) >= 0.0
    ensures Risk(matched, long) < 0.3 <==> 2 * matched + (if long then 1 else 0) < 3
  {
  }

  /**
   * `validate_prompt_safety`: 0.2 per matched pattern plus 0.1 for a prompt
   * over 10000 characters; safe below 0.3, the score capped at 1.0.
   */
  function ValidatePromptSafety(prompt: string): (r: SafetyReport)
    ensures var m := |MatchedPatterns(prompt, HarmfulPatterns, 0)|;
            r.safe <==> 2 * m + (if |prompt| > 10000 then 1 else 0) < 3
    ensures 0.0 <= r.riskScore <= 1.0
    ensures |r.issues| == |MatchedPatterns(prompt, HarmfulPatterns, 0)| + (if |prompt| > 10000 then 1 else 0)
    ensures forall n: nat :: PromptInjection(n) in r.issues <==> PatternFound(prompt, HarmfulPatterns, n)
    ensures UnusuallyLong in r.issues <==> |prompt| > 10000
  {
    var matched := MatchedPatterns(prompt, HarmfulPatterns, 0);
    var long := |prompt| > 10000;
    var issues := InjectionIssues(matched) + (if long then [UnusuallyLong] else []);
    var risk := Risk(|matched|, long);
    RiskThreshold(|matched|, long);
    assert forall n :: PromptInjection(n) in issues <==> PromptInjection(n) in InjectionIssues(matched);
    assert forall n: nat :: PromptInjection(n) in issues <==> n in matched;
    SafetyReport(risk < 0.3, if risk < 1.0 then risk else 1.0, issues)
  }

  /** `estimate_token_count`: the length divided by four, rounded down. */
  function EstimateTokenCount(text: string): (n: nat)
    ensures 4 * n <= |text| < 4 * n + 4
  {
    |text| / 4
  }

  // ------------------------------------------------------------ in-memory store

  datatype CacheEntry<V> = CacheEntry(value: V, expiresAt: real)
  datatype Usage = Usage(requests: nat, cost: real)
  datatype PromptSession = PromptSession(id: string, userId: string, text: string, createdAt: string,
                                         estimatedTokens: nat, safetyValidated: bool)
  datatype LibraryEntry = LibraryEntry(id: string, text: string, stars: Option<int>)

  /** The configured universities' `rate_limit_per_minute`. */
  function RateLimitPerMinute(code: string): Option<nat>
  {
    match code
    case "ufl" => Some(20)
    case "fsu" => Some(15)
    case "ucf" => Some(15)
    case _ => None
  }

  /** `int(t / 60)`: truncation toward zero. */
  function MinuteOf(t: real): (m: int)
    ensures t >= 0.0 ==> m as real <= t / 60.0 < m as real + 1.0
  {
    if t >= 0.0 then (t / 60.0).Floor else -((-t / 60.0).Floor)
  }

  /** The `usage_stats` key `"{university_code}:{date_key}:{endpoint}"`. */
  function UsageKey(university: string, date: string, endpoint: string): string
  {
    university + ":" + date + ":" + endpoint
  }

  /** The `request_counts` key `"{university_code}:{endpoint}:{current_minute}"`. */
  function CounterKey(university: string, endpoint: string, minute: int): string
  {
    university + ":" + endpoint + ":" + IntToString(minute)
  }

  /** The text of a key before its first `:`. */
  function UniversityOf(key: string): (r: string)
    ensures ':' !in r
  {
    if key == [] || key[0] == ':' then [] else [key[0]] + UniversityOf(key[1..])
  }

  /** A university code without a colon is what its keys start with. */
  lemma {:induction false} UniversityOfKey(university: string, rest: string)
    requires ':' !in university
    ensures UniversityOf(university + ":" + rest) == university
  {
    var key := university + ":" + rest;
    if university == [] {
      assert key[0] == ':';
    } else {
      assert key[0] == university[0] && key[1..] == university[1..] + ":" + rest;
      UniversityOfKey(university[1..], rest);
    }
  }

  /** What `get_cache` answers for `key` at time `now`. */
  function Lookup<V>(cache: map<string, CacheEntry<V>>, enabled: bool, key: string, now: real): Option<V>
  {
    if enabled && key in cache && cache[key].expiresAt > now then Some(cache[key].value) else None
  }

  /** The prompts of one user, in store order. */
  function UserPrompts(ps: seq<PromptSession>, user: string): (r: seq<PromptSession>)
    ensures |r| <= |ps|
    ensures forall p :: p in r <==> p in ps && p.userId == user
  {
    if ps == [] then []
    else (if ps[0].userId == user then [ps[0]] else []) + UserPrompts(ps[1..], user)
  }

  /** `min(ps, key=created_at)`: the first prompt with the least creation time. */
  function Oldest(ps: seq<PromptSession>): (i: nat)
    requires ps != []
    ensures i < |ps|
    ensures forall k :: 0 <= k < |ps| ==> !LexLess(ps[k].createdAt, ps[i].createdAt)
    ensures forall k :: 0 <= k < i ==> LexLess(ps[i].createdAt, ps[k].createdAt)
  {
    if |ps| == 1 then LexLessIrreflexive(ps[0].createdAt); 0
    else
      var init := ps[..|ps| - 1];
      var k := Oldest(init);
      var last := ps[|ps| - 1].createdAt;
      if LexLess(last, ps[k].createdAt) then
        assert forall n :: 0 <= n < |ps| - 1 ==> LexLess(last, ps[n].createdAt) by {
          forall n | 0 <= n < |ps| - 1
            ensures LexLess(last, ps[n].createdAt)
          {
            assert init[n] == ps[n];
            LexLessTotal(ps[k].createdAt, ps[n].createdAt);
            if LexLess(ps[k].createdAt, ps[n].createdAt) {
              LexLessTransitive(last, ps[k].createdAt, ps[n].createdAt);
            }
          }
        }
        assert forall n :: 0 <= n < |ps| - 1 ==> !LexLess(ps[n].createdAt, last) by {
          forall n | 0 <= n < |ps| - 1
            ensures !LexLess(ps[n].createdAt, last)
          {
            if LexLess(ps[n].createdAt, last) {
              LexLessTransitive(ps[n].createdAt, last, ps[n].createdAt);
              LexLessIrreflexive(ps[n].createdAt);
            }
          }
        }
        LexLessIrreflexive(last);
        |ps| - 1
      else
        assert forall n :: 0 <= n < |ps| - 1 ==> ps[n] == init[n];
        k
  }

  /** `list.remove(x)`: drops the first element equal to `x`. */
  function RemoveFirst(ps: seq<PromptSession>, x: PromptSession): (r: seq<PromptSession>)
    ensures x in ps ==> |r| == |ps| - 1 && multiset(r) + multiset{x} == multiset(ps)
    ensures x !in ps ==> r == ps
  {
    if ps == [] then []
    else if ps[0] == x then assert ps == [x] + ps[1..]; ps[1..]
    else
      assert ps == [ps[0]] + ps[1..];
      [ps[0]] + RemoveFirst(ps[1..], x)
  }

  /** The history after adding `p`: over 20 prompts for its user drops that user's oldest. */
  function CappedHistory(sessions: seq<PromptSession>, p: PromptSession): seq<PromptSession>
  {
    var all := sessions + [p];
    var mine := UserPrompts(all, p.userId);
    if |mine| > 20 then RemoveFirst(all, mine[Oldest(mine)]) else all
  }

  /** The toggle: no stars becomes one, any other count becomes none. */
  function Toggled(stars: int): (r: int)
    ensures r == 0 || r == 1
    ensures r > 0 <==> stars == 0
  {
    if stars == 0 then stars + 1 else 0
  }

  /** The position of the first library entry with this id. */
  function FindEntry(entries: seq<LibraryEntry>, id: string): (r: Option<nat>)
    ensures r.Some? ==> r.value < |entries| && entries[r.value].id == id
                        && forall k :: 0 <= k < r.value ==> entries[k].id != id
    ensures r.None? ==> forall k :: 0 <= k < |entries| ==> entries[k].id != id
  {
    if entries == [] then None
    else if entries[0].id == id then Some(0)
    else match FindEntry(entries[1..], id)
      case None => None
      case Some(k) => Some(k + 1)
  }

  class InMemoryStore<V> {
    const enableCaching: bool
    var cache: map<string, CacheEntry<V>>
    var usageStats: map<string, Usage>
    var requestCounts: map<string, int>
    var promptSessions: seq<PromptSession>
    var evaluations: seq<LibraryEntry>

    /**
     * Every counter lies between 0 and the limit of the university its key
     * starts with (0 when that is no configured university).
     */
    ghost predicate Valid()
      reads this
    {
      forall k :: k in requestCounts ==>
        0 <= requestCounts[k] <= RateLimitPerMinute(UniversityOf(k)).GetOr(0)
    }

    constructor (enableCaching: bool)
      ensures Valid()
      ensures this.enableCaching == enableCaching
      ensures cache == map[] && usageStats == map[] && requestCounts == map[]
      ensures promptSessions == [] && evaluations == []
    {
      this.enableCaching := enableCaching;
      cache := map[];
      usageStats := map[];
      requestCounts := map[];
      promptSessions := [];
      evaluations := [];
    }

    /** `set_cache`: stores the value to expire `ttl` seconds from now; nothing when caching is off. */
    method SetCache(key: string, value: V, ttl: real, now: real)
      modifies this`cache
      ensures enableCaching ==> cache == old(cache)[key := CacheEntry(value, now + ttl)]
      ensures !enableCaching ==> cache == old(cache)
    {
      if enableCaching {
        cache := cache[key := CacheEntry(value, now + ttl)];
      }
    }

    /** `get_cache`: the value while it has not expired; an expired entry is deleted. */
    method GetCache(key: string, now: real) returns (r: Option<V>)
      modifies this`cache
      ensures r == Lookup(old(cache), enableCaching, key, now)
      ensures r.Some? <==> enableCaching && key in old(cache) && old(cache)[key].expiresAt > now
      ensures r.None? && enableCaching ==> cache == old(cache) - {key}
      ensures r.Some? || !enableCaching ==> cache == old(cache)
    {
      if !enableCaching {
        return None;
      }
      if key in cache && cache[key].expiresAt > now {
        return Some(cache[key].value);
      } else if key in cache {
        cache := cache - {key};
      }
      return None;
    }

    /** `track_usage`: one more request and `cost` more for the day's key. */
    method TrackUsage(university: string, date: string, endpoint: string, cost: real)
      modifies this`usageStats
      ensures var k := UsageKey(university, date, endpoint);
              var before := if k in old(usageStats) then old(usageStats)[k] else Usage(0, 0.0);
              usageStats == old(usageStats)[k := Usage(before.requests + 1, before.cost + cost)]
    {
      var k := UsageKey(university, date, endpoint);
      if k !in usageStats {
        usageStats := usageStats[k := Usage(0, 0.0)];
      }
      usageStats := usageStats[k := Usage(usageStats[k].requests + 1, usageStats[k].cost + cost)];
    }

    /**
     * `check_rate_limit`: the counter for (university, endpoint, minute) is
     * created at zero; an unknown university or a counter at its limit is
     * refused; otherwise the counter is incremented and the call allowed.
     */
    method CheckRateLimit(university: string, endpoint: string, now: real) returns (allowed: bool)
      requires Valid()
      modifies this`requestCounts
      ensures Valid()
      ensures var k := CounterKey(university, endpoint, MinuteOf(now));
              var before := if k in old(requestCounts) then old(requestCounts)[k] else 0;
              && (allowed <==> RateLimitPerMinute(university).Some? && before < RateLimitPerMinute(university).value)
              && requestCounts == old(requestCounts)[k := before + (if allowed then 1 else 0)]
    {
      var k := CounterKey(university, endpoint, MinuteOf(now));
      if k !in requestCounts {
        requestCounts := requestCounts[k := 0];
      }
      var limit := RateLimitPerMinute(university);
      if limit.None? {
        return false;
      }
      if requestCounts[k] >= limit.value {
        return false;
      }
      assert university in {"ufl", "fsu", "ucf"};
      assert k == university + ":" + (endpoint + ":" + IntToString(MinuteOf(now)));
      UniversityOfKey(university, endpoint + ":" + IntToString(MinuteOf(now)));
      requestCounts := requestCounts[k := requestCounts[k] + 1];
      return true;
    }

    /**
     * `add_history_prompt` without a database: the new prompt is appended,
     * and when its user then has more than 20 the user's oldest is removed.
     */
    method AddHistoryPrompt(id: string, userId: string, text: string, createdAt: string)
      returns (p: PromptSession)
      modifies this`promptSessions
      ensures p == PromptSession(id, userId, text, createdAt, EstimateTokenCount(text), ValidatePromptSafety(text).safe)
      ensures promptSessions == CappedHistory(old(promptSessions), p)
    {
      p := PromptSession(id, userId, text, createdAt, EstimateTokenCount(text), ValidatePromptSafety(text).safe);
      promptSessions := promptSessions + [p];
      var mine := UserPrompts(promptSessions, userId);
      if |mine| > 20 {
        promptSessions := RemoveFirst(promptSessions, mine[Oldest(mine)]);
      }
    }

    /**
     * The library star toggle: the first entry with the id gets its star
     * count toggled (a missing count reads as 0) and whether it is now
     * starred is returned; None when no entry has the id.
     */
    method ToggleStar(promptId: string) returns (r: Option<bool>)
      modifies this`evaluations
      ensures r.None? <==> FindEntry(old(evaluations), promptId).None?
      ensures r.None? ==> evaluations == old(evaluations)
      ensures r.Some? ==>
                var i := FindEntry(old(evaluations), promptId).value;
                var stars := Toggled(old(evaluations)[i].stars.GetOr(0));
                && evaluations == old(evaluations)[i := old(evaluations)[i].(stars := Some(stars))]
                && (r.value <==> stars > 0)
    {
      var i := 0;
      while i < |evaluations|
        invariant 0 <= i <= |evaluations| && evaluations == old(evaluations)
        invariant forall k :: 0 <= k < i ==> evaluations[k].id != promptId
      {
        if evaluations[i].id == promptId {
          var stars := Toggled(evaluations[i].stars.GetOr(0));
          evaluations := evaluations[i := evaluations[i].(stars := Some(stars))];
          return Some(stars > 0);
        }
        i := i + 1;
      }
      return None;
    }
  }

  /** A stored value is returned until, and only until, it expires. */
  lemma SetThenLookup<V>(cache: map<string, CacheEntry<V>>, key: string, value: V, ttl: real, setAt: real, now: real)
    ensures Lookup(cache[key := CacheEntry(value, setAt + ttl)], true, key, now) == Some(value) <==> now < setAt + ttl
  {
  }

  /**
   * Adding a prompt that takes its user above 20 removes exactly one
   * prompt: one of that user's, with no earlier creation time among them.
   */
  lemma HistoryCapRemovesOldest(sessions: seq<PromptSession>, p: PromptSession)
    requires |UserPrompts(sessions + [p], p.userId)| > 20
    ensures var r := CappedHistory(sessions, p);
            exists x: PromptSession :: x.userId == p.userId && x in sessions + [p]
                        && multiset(r) + multiset{x} == multiset(sessions + [p])
                        && forall q :: q in sessions + [p] && q.userId == p.userId ==> !LexLess(q.createdAt, x.createdAt)
    ensures |CappedHistory(sessions, p)| == |sessions|
  {
    var mine := UserPrompts(sessions + [p], p.userId);
    var x := mine[Oldest(mine)];
    assert x in mine;
    forall q | q in sessions + [p] && q.userId == p.userId
      ensures !LexLess(q.createdAt, x.createdAt)
    {
      assert q in mine;
    }
  }

  lemma {:induction false} UserPromptsRemoveFirst(ps: seq<PromptSession>, x: PromptSession, user: string)
    ensures x.userId == user && x in ps ==> |UserPrompts(RemoveFirst(ps, x), user)| == |UserPrompts(ps, user)| - 1
    ensures x.userId != user ==> UserPrompts(RemoveFirst(ps, x), user) == UserPrompts(ps, user)
  {
    if ps != [] && ps[0] != x {
      UserPromptsRemoveFirst(ps[1..], x, user);
      assert RemoveFirst(ps, x)[1..] == RemoveFirst(ps[1..], x);
    }
  }

  lemma {:induction false} UserPromptsAppend(ps: seq<PromptSession>, p: PromptSession, user: string)
    ensures UserPrompts(ps + [p], user) == UserPrompts(ps, user) + (if p.userId == user then [p] else [])
  {
    if ps != [] {
      assert (ps + [p])[1..] == ps[1..] + [p];
      UserPromptsAppend(ps[1..], p, user);
    }
  }

  /**
   * The cap holds as an invariant: a user with at most 20 prompts still has
   * at most 20 after an add, and other users' prompts are untouched.
   */
  lemma HistoryCapKept(sessions: seq<PromptSession>, p: PromptSession, user: string)
    requires |UserPrompts(sessions, p.userId)| <= 20
    ensures |UserPrompts(CappedHistory(sessions, p), p.userId)| <= 20
    ensures user != p.userId ==> UserPrompts(CappedHistory(sessions, p), user) == UserPrompts(sessions, user)
  {
    var all := sessions + [p];
    var mine := UserPrompts(all, p.userId);
    UserPromptsAppend(sessions, p, p.userId);
    UserPromptsAppend(sessions, p, user);
    if |mine| > 20 {
      var x := mine[Oldest(mine)];
      assert x in mine;
      UserPromptsRemoveFirst(all, x, p.userId);
      UserPromptsRemoveFirst(all, x, user);
    }
  }
}
