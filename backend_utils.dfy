/**
 * The helpers of backend/utils.py: the retry decorator, the response schema
 * check, prompt-input sanitising, DSPy example formatting and training-data
 * validation, word-overlap similarity, the quality grade, and the DSPy
 * operation metrics collector.
 */
module BackendUtils {
  import opened Wrappers
  import opened Text
  import opened JsonValue
  import opened Retry

  // ------------------------------------------------------------ retry

  /** What the decorated call does: return, raise the last error, or raise on `raise None`. */
  datatype CallResult<T, E> = Returns(value: T) | Raises(error: E) | RaisesTypeError

  /**
   * `retry_on_failure` (its sync and async wrappers alike): the attempt loop, and after an empty
   * `range` the final `raise last_exception` with no exception recorded,
   * which Python turns into a TypeError.
   */
  method RetryOnFailure<T, E>(maxRetries: int, initialDelay: real, backoff: real, call: nat -> Attempt<T, E>)
    returns (r: CallResult<T, E>, attempts: nat, sleeps: seq<real>)
    ensures attempts <= if maxRetries < 0 then 0 else maxRetries + 1
    ensures forall k :: 0 <= k < attempts - 1 ==> call(k).Failure?
    ensures r.Returns? <==> exists k :: 0 <= k <= maxRetries && call(k).Success?
    ensures r.Returns? ==> attempts >= 1 && call(attempts - 1) == Success(r.value)
    ensures r.Raises? ==> attempts >= 1 && attempts == maxRetries + 1 && call(attempts - 1) == Failure(r.error)
    ensures r.RaisesTypeError? <==> maxRetries < 0
    ensures BackoffDelays(sleeps, initialDelay, backoff, if attempts == 0 then 0 else attempts - 1)
  {
    var end;
    end, attempts, sleeps := AttemptLoop(maxRetries, initialDelay, backoff, call);
    match end
    case Returned(v) => r := Returns(v);
    case Raised(e) => r := Raises(e);
    case Exhausted => r := RaisesTypeError;
  }

  // ------------------------------------------------------------ schema check

  /** The required keys absent from `fields`, in required order. */
  function MissingKeys(fields: map<string, Json>, required: seq<string>): (r: seq<string>)
    ensures |r| <= |required|
    ensures forall k :: k in r <==> k in required && k !in fields
  {
    if required == [] then []
    else (if required[0] in fields then [] else [required[0]]) + MissingKeys(fields, required[1..])
  }

  /**
   * `validate_response_against_schema`: a non-dictionary fails with every
   * required key; a dictionary is valid exactly when no key is missing.
   */
  function ValidateResponseAgainstSchema(response: Json, required: seq<string>): (r: (bool, seq<string>))
    ensures !response.JDict? ==> r == (false, required)
    ensures response.JDict? ==> r.1 == MissingKeys(response.fields, required)
    ensures response.JDict? ==> (r.0 <==> forall k :: k in required ==> k in response.fields)
  {
    if !response.JDict? then (false, required)
    else
      var missing := MissingKeys(response.fields, required);
      assert |missing| > 0 ==> missing[0] in missing;
      (|missing| == 0, missing)
  }

  // ------------------------------------------------------------ prompt sanitising

  /** `re.sub(r'\s+', ' ', s)`: every whitespace run becomes one space. */
  function CollapseSpaces(s: string): (r: string)
    ensures |r| <= |s|
    ensures s != [] ==> r != [] && (IsSpace(s[0]) ==> r[0] == ' ') && (!IsSpace(s[0]) ==> r[0] == s[0])
    ensures forall i :: 0 <= i < |r| && IsSpace(r[i]) ==> r[i] == ' '
    ensures forall i :: 0 <= i < |r| - 1 ==> !(r[i] == ' ' && r[i + 1] == ' ')
    decreases |s|
  {
    if s == [] then []
    else if IsSpace(s[0]) then [' '] + CollapseSpaces(LStrip(s[1..]))
    else [s[0]] + CollapseSpaces(s[1..])
  }

  /** `pat` (lower case) occurs at `i`, ignoring ASCII case. */
  predicate CaseInsensitiveAt(s: string, i: nat, pat: string)
  {
    i + |pat| <= |s| && Lower(s[i..i + |pat|]) == pat
  }

  /** The first position from `i` on where `pat` occurs, ignoring case. */
  function FindFrom(s: string, pat: string, i: nat): (r: Option<nat>)
    ensures r.Some? ==> i <= r.value && CaseInsensitiveAt(s, r.value, pat)
    ensures r.None? ==> forall k :: i <= k <= |s| ==> !CaseInsensitiveAt(s, k, pat)
    decreases |s| - i
  {
    if i > |s| then None
    else if CaseInsensitiveAt(s, i, pat) then Some(i)
    else FindFrom(s, pat, i + 1)
  }

  /**
   * Where `<script[^>]*>.*?</script>` (case-insensitive, dot matching
   * newlines) ends when it starts at `i`: the opening tag runs to the first
   * `>`, and the element to the first closing tag after it.
   */
  function ScriptEnd(s: string, i: nat): (r: Option<nat>)
    ensures r.Some? ==> i < r.value <= |s|
  {
    if !CaseInsensitiveAt(s, i, "<script") then None
    else match IndexFrom(s, '>', i + 7)
      case None => None
      case Some(g) =>
        match FindFrom(s, "</script>", g + 1)
        case None => None
        case Some(c) => Some(c + 9)
  }

  /** `re.sub` of the script pattern: leftmost matches deleted, scanning on after each. */
  function RemoveScripts(s: string, i: nat): (r: string)
    requires i <= |s|
    ensures |r| <= |s| - i
    decreases |s| - i
  {
    if i == |s| then []
    else match ScriptEnd(s, i)
      case Some(e) => RemoveScripts(s, e)
      case None => [s[i]] + RemoveScripts(s, i + 1)
  }

  /** `re.sub` of a literal pattern with IGNORECASE: each occurrence deleted, left to right. */
  function RemoveCaseInsensitive(s: string, pat: string): (r: string)
    requires pat != []
    ensures |r| <= |s|
    decreases |s|
  {
    if |s| < |pat| then s
    else if CaseInsensitiveAt(s, 0, pat) then RemoveCaseInsensitive(s[|pat|..], pat)
    else [s[0]] + RemoveCaseInsensitive(s[1..], pat)
  }

  /** Text holding no occurrence of the pattern, in any case, passes through unchanged. */
  lemma {:induction false} RemoveAbsentUnchanged(s: string, pat: string)
    requires pat != []
    requires forall k :: 0 <= k <= |s| ==> !CaseInsensitiveAt(s, k, pat)
    ensures RemoveCaseInsensitive(s, pat) == s
    decreases |s|
  {
    if |s| >= |pat| {
      assert !CaseInsensitiveAt(s, 0, pat);
      forall k | 0 <= k <= |s[1..]| ensures !CaseInsensitiveAt(s[1..], k, pat) {
        if k + |pat| <= |s[1..]| {
          assert s[1..][k..k + |pat|] == s[k + 1..k + 1 + |pat|];
        }
        assert !CaseInsensitiveAt(s, k + 1, pat);
      }
      RemoveAbsentUnchanged(s[1..], pat);
    }
  }

  /** The text after stripping, whitespace collapsing and removal of the four harmful patterns. */
  function Cleaned(text: string): (r: string)
    ensures |r| <= |text|
  {
    var collapsed := CollapseSpaces(Strip(text));
    var noScripts := RemoveScripts(collapsed, 0);
    RemoveCaseInsensitive(RemoveCaseInsensitive(RemoveCaseInsensitive(noScripts, "javascript:"), "data:text/html"), "vbscript:")
  }

  /** Python `s[:n]`: a negative `n` counts from the end. */
  function PyPrefix(s: string, n: int): (r: string)
    ensures n >= 0 ==> r == Take(s, n)
    ensures n < 0 ==> r == s[..if |s| + n > 0 then |s| + n else 0]
  {
    if n >= 0 then Take(s, n) else s[..if |s| + n > 0 then |s| + n else 0]
  }

  /**
   * `sanitize_prompt_input`: the cleaned text, cut to `max_length` and
   * marked with "..." when it is longer.
   */
  function SanitizePromptInput(text: string, maxLength: int): (r: string)
    ensures var c := Cleaned(text);
            && (|c| <= maxLength ==> r == c)
            && (|c| > maxLength ==>
                  EndsWith(r, "...") && StartsWith(c, r[..|r| - 3])
                  && |r| - 3 == (if maxLength >= 0 then maxLength else if |c| + maxLength > 0 then |c| + maxLength else 0))
    ensures maxLength >= 0 ==> |r| <= maxLength + 3
  {
    var c := Cleaned(text);
    if |c| > maxLength then
      var r := PyPrefix(c, maxLength) + "...";
      assert r[..|r| - 3] == PyPrefix(c, maxLength);
      r
    else c
  }

  // ------------------------------------------------------------ DSPy examples

  /** `names` copied from `fields` into `acc`, in order, each converted by `conv`. */
  function Pick(acc: map<string, string>, fields: map<string, Json>, names: seq<string>, conv: Json -> string): map<string, string>
  {
    if names == [] then acc
    else
      var m := Pick(acc, fields, names[..|names| - 1], conv);
      var f := names[|names| - 1];
      if f in fields then m[f := conv(fields[f])] else m
  }

  lemma {:induction false} PickKeys(acc: map<string, string>, fields: map<string, Json>, names: seq<string>, conv: Json -> string)
    ensures Pick(acc, fields, names, conv).Keys == acc.Keys + (set f | f in names && f in fields)
  {
    if names != [] {
      var init := names[..|names| - 1];
      PickKeys(acc, fields, init, conv);
      assert forall f :: f in names <==> f in init || f == names[|names| - 1];
    }
  }

  /** The field names an example must have: the inputs and the outputs. */
  function RequiredFields(inputs: seq<string>, outputs: seq<string>): set<string>
  {
    set f | f in inputs + outputs
  }

  function Sanitizer(show: Json -> string): Json -> string
  {
    v => SanitizePromptInput(show(v), 10000)
  }

  /** The formatted example: inputs sanitised, then outputs as strings (an output overrides an input of the same name). */
  function Formatted(fields: map<string, Json>, inputs: seq<string>, outputs: seq<string>, show: Json -> string): map<string, string>
  {
    Pick(Pick(map[], fields, inputs, Sanitizer(show)), fields, outputs, show)
  }

  lemma FormattedKeys(fields: map<string, Json>, inputs: seq<string>, outputs: seq<string>, show: Json -> string)
    ensures Formatted(fields, inputs, outputs, show).Keys == RequiredFields(inputs, outputs) * fields.Keys
  {
    PickKeys(map[], fields, inputs, Sanitizer(show));
    PickKeys(Pick(map[], fields, inputs, Sanitizer(show)), fields, outputs, show);
  }

  /** The examples `format_dspy_examples` keeps, formatted, in order. */
  function FormatAll(examples: seq<Json>, inputs: seq<string>, outputs: seq<string>, show: Json -> string): seq<map<string, string>>
  {
    if examples == [] then []
    else
      var init := FormatAll(examples[..|examples| - 1], inputs, outputs, show);
      var e := examples[|examples| - 1];
      if e.JDict? && RequiredFields(inputs, outputs) <= e.fields.Keys then init + [Formatted(e.fields, inputs, outputs, show)]
      else init
  }

  /** Every kept example has exactly the input and output fields. */
  lemma {:induction false} FormatAllShape(examples: seq<Json>, inputs: seq<string>, outputs: seq<string>, show: Json -> string)
    ensures |FormatAll(examples, inputs, outputs, show)| <= |examples|
    ensures forall k :: 0 <= k < |FormatAll(examples, inputs, outputs, show)| ==>
              FormatAll(examples, inputs, outputs, show)[k].Keys == RequiredFields(inputs, outputs)
  {
    if examples != [] {
      var e := examples[|examples| - 1];
      FormatAllShape(examples[..|examples| - 1], inputs, outputs, show);
      if e.JDict? {
        FormattedKeys(e.fields, inputs, outputs, show);
      }
    }
  }

  /** The field loop of `format_dspy_examples` for one list of names. */
  method PickFields(acc: map<string, string>, fields: map<string, Json>, names: seq<string>, conv: Json -> string)
    returns (formatted: map<string, string>)
    ensures formatted == Pick(acc, fields, names, conv)
  {
    formatted := acc;
    var i := 0;
    while i < |names|
      invariant 0 <= i <= |names|
      invariant formatted == Pick(acc, fields, names[..i], conv)
    {
      assert names[..i + 1][..i] == names[..i];
      if names[i] in fields {
        formatted := formatted[names[i] := conv(fields[names[i]])];
      }
      i := i + 1;
    }
    assert names[..i] == names;
  }

  /**
   * `format_dspy_examples`: non-dictionaries are skipped, and an example is
   * kept, in order, exactly when it has every input and output field.
   */
  method FormatDspyExamples(examples: seq<Json>, inputs: seq<string>, outputs: seq<string>, show: Json -> string)
    returns (out: seq<map<string, string>>)
    ensures out == FormatAll(examples, inputs, outputs, show)
  {
    out := [];
    var i := 0;
    while i < |examples|
      invariant 0 <= i <= |examples|
      invariant out == FormatAll(examples[..i], inputs, outputs, show)
    {
      assert examples[..i + 1][..i] == examples[..i];
      var e := examples[i];
      if e.JDict? {
        var fromInputs := PickFields(map[], e.fields, inputs, Sanitizer(show));
        var formatted := PickFields(fromInputs, e.fields, outputs, show);
        FormattedKeys(e.fields, inputs, outputs, show);
        if forall f :: f in inputs + outputs ==> f in formatted {
          out := out + [formatted];
        }
      }
      i := i + 1;
    }
    assert examples[..i] == examples;
  }

  // ------------------------------------------------------------ similarity

  function WordSet(s: string): set<string>
  {
    set w | w in Words(s)
  }

  /** The Jaccard index of two non-empty sets. */
  function Jaccard(w1: set<string>, w2: set<string>): (r: real)
    requires w1 != {} && w2 != {}
    ensures 0.0 <= r <= 1.0
  {
    SubsetCard(w1 * w2, w1 + w2);
    SubsetCard(w1, w1 + w2);
    |w1 * w2| as real / |w1 + w2| as real
  }

  /** `calculate_text_similarity`: the Jaccard index of the two word sets, 0 when either is empty. */
  function TextSimilarity(t1: string, t2: string): (r: real)
    ensures 0.0 <= r <= 1.0
  {
    if t1 == [] || t2 == [] then 0.0
    else
      var w1, w2 := WordSet(t1), WordSet(t2);
      if w1 == {} || w2 == {} then 0.0 else Jaccard(w1, w2)
  }

  lemma SubsetCard<T>(a: set<T>, b: set<T>)
    requires a <= b
    ensures |a| <= |b|
  {
    assert b == a + (b - a);
  }

  lemma EmptyTextNoWords(t: string)
    ensures t == [] ==> WordSet(t) == {}
  {
    if t == [] {
      assert Words(t) == [];
    }
  }

  /**
   * The similarity is symmetric; texts with the same non-empty word set are
   * fully similar; disjoint or empty word sets give 0.
   */
  lemma SimilarityProperties(t1: string, t2: string)
    ensures TextSimilarity(t1, t2) == TextSimilarity(t2, t1)
    ensures WordSet(t1) == WordSet(t2) && WordSet(t1) != {} ==> TextSimilarity(t1, t2) == 1.0
    ensures WordSet(t1) * WordSet(t2) == {} ==> TextSimilarity(t1, t2) == 0.0
  {
    EmptyTextNoWords(t1);
    EmptyTextNoWords(t2);
    var w1, w2 := WordSet(t1), WordSet(t2);
    assert w1 * w2 == w2 * w1 && w1 + w2 == w2 + w1;
    if w1 == w2 {
      assert w1 * w2 == w1 && w1 + w2 == w1;
    }
  }

  // ------------------------------------------------------------ training data

  datatype FieldIssue = NotDictionary | Missing(output: bool, field: string) | Empty(output: bool, field: string)
  datatype ExampleReport = ExampleReport(exampleIndex: nat, issues: seq<FieldIssue>)
  datatype TrainingReport = TrainingReport(valid: bool, totalExamples: nat, validExamples: nat,
                                           issues: seq<ExampleReport>, validationRate: real)

  /** The issues of one dictionary's required fields: missing, or present but falsy. */
  function FieldIssues(fields: map<string, Json>, names: seq<string>, output: bool): seq<FieldIssue>
  {
    if names == [] then []
    else
      (if names[0] !in fields then [Missing(output, names[0])]
       else if !Truthy(fields[names[0]]) then [Empty(output, names[0])] else [])
      + FieldIssues(fields, names[1..], output)
  }

  lemma {:induction false} FieldIssuesNone(fields: map<string, Json>, names: seq<string>, output: bool)
    ensures FieldIssues(fields, names, output) == [] <==> forall f :: f in names ==> f in fields && Truthy(fields[f])
  {
    if names != [] {
      FieldIssuesNone(fields, names[1..], output);
      assert forall f :: f in names ==> f == names[0] || f in names[1..];
    }
  }

  function ExampleIssues(example: Json, inputs: seq<string>, outputs: seq<string>): seq<FieldIssue>
  {
    if !example.JDict? then [NotDictionary]
    else FieldIssues(example.fields, inputs, false) + FieldIssues(example.fields, outputs, true)
  }

  /** An example has no issues exactly when it is a dictionary whose every required field is present and truthy. */
  lemma ExampleIssuesNone(example: Json, inputs: seq<string>, outputs: seq<string>)
    ensures ExampleIssues(example, inputs, outputs) == [] <==>
              example.JDict? && forall f :: f in inputs + outputs ==> f in example.fields && Truthy(example.fields[f])
  {
    if example.JDict? {
      FieldIssuesNone(example.fields, inputs, false);
      FieldIssuesNone(example.fields, outputs, true);
    }
  }

  /** The per-example reports for the examples with issues, in order. */
  function IssueList(examples: seq<Json>, inputs: seq<string>, outputs: seq<string>): (r: seq<ExampleReport>)
  {
    if examples == [] then []
    else
      var n := |examples| - 1;
      var issues := ExampleIssues(examples[n], inputs, outputs);
      IssueList(examples[..n], inputs, outputs) + (if issues != [] then [ExampleReport(n, issues)] else [])
  }

  /** The number of examples without issues. */
  function ValidCount(examples: seq<Json>, inputs: seq<string>, outputs: seq<string>): nat
  {
    if examples == [] then 0
    else
      var n := |examples| - 1;
      ValidCount(examples[..n], inputs, outputs) + (if ExampleIssues(examples[n], inputs, outputs) == [] then 1 else 0)
  }

  /** Each example is counted valid or reported, never both; each report names an example with issues. */
  lemma {:induction false} EveryExampleAccountedFor(examples: seq<Json>, inputs: seq<string>, outputs: seq<string>)
    ensures ValidCount(examples, inputs, outputs) + |IssueList(examples, inputs, outputs)| == |examples|
    ensures forall k :: 0 <= k < |IssueList(examples, inputs, outputs)| ==>
              var e := IssueList(examples, inputs, outputs)[k];
              e.exampleIndex < |examples| && e.issues == ExampleIssues(examples[e.exampleIndex], inputs, outputs) != []
  {
    if examples != [] {
      var n := |examples| - 1;
      var prev := IssueList(examples[..n], inputs, outputs);
      var issues := ExampleIssues(examples[n], inputs, outputs);
      var all := prev + (if issues != [] then [ExampleReport(n, issues)] else []);
      assert IssueList(examples, inputs, outputs) == all;
      EveryExampleAccountedFor(examples[..n], inputs, outputs);
      forall k | 0 <= k < |all|
        ensures all[k].exampleIndex < |examples|
        ensures all[k].issues == ExampleIssues(examples[all[k].exampleIndex], inputs, outputs) != []
      {
        if k < |prev| {
          assert all[k] == prev[k] && examples[..n][prev[k].exampleIndex] == examples[prev[k].exampleIndex];
        }
      }
    }
  }

  lemma RatioBounds(a: nat, b: nat)
    requires 0 < b && a <= b
    ensures 0.0 <= a as real / b as real <= 1.0
  {
  }

  /**
   * `validate_dspy_training_data`: every example is either counted valid or
   * reported with its issues; the data is valid exactly when nothing was
   * reported, and the rate is 0 for no examples.
   */
  method ValidateDspyTrainingData(examples: seq<Json>, inputs: seq<string>, outputs: seq<string>)
    returns (r: TrainingReport)
    ensures r.totalExamples == |examples|
    ensures r.issues == IssueList(examples, inputs, outputs)
    ensures r.validExamples == ValidCount(examples, inputs, outputs)
    ensures r.validExamples + |r.issues| == r.totalExamples
    ensures r.valid <==> r.issues == []
    ensures r.totalExamples == 0 ==> r.validationRate == 0.0
    ensures r.totalExamples > 0 ==> r.validationRate == r.validExamples as real / r.totalExamples as real
    ensures 0.0 <= r.validationRate <= 1.0
  {
    var issues: seq<ExampleReport> := [];
    var valid := 0;
    var i := 0;
    while i < |examples|
      invariant 0 <= i <= |examples|
      invariant issues == IssueList(examples[..i], inputs, outputs)
      invariant valid == ValidCount(examples[..i], inputs, outputs)
    {
      assert examples[..i + 1][..i] == examples[..i];
      var exampleIssues := ExampleIssues(examples[i], inputs, outputs);
      if exampleIssues != [] {
        issues := issues + [ExampleReport(i, exampleIssues)];
      } else {
        valid := valid + 1;
      }
      i := i + 1;
    }
    assert examples[..i] == examples;
    EveryExampleAccountedFor(examples, inputs, outputs);
    var rate := 0.0;
    if |examples| > 0 {
      RatioBounds(valid, |examples|);
      rate := valid as real / |examples| as real;
    }
    r := TrainingReport(issues == [], |examples|, valid, issues, rate);
  }

  // ------------------------------------------------------------ quality grade

  function GradeRank(g: char): nat
  {
    match g
    case 'A' => 4
    case 'B' => 3
    case 'C' => 2
    case 'D' => 1
    case _ => 0
  }

  /** `_get_quality_grade`: the letter's rank is the number of thresholds 0.6, 0.7, 0.8, 0.9 the score reaches. */
  function QualityGrade(score: real): (g: char)
    ensures g in "ABCDF"
    ensures GradeRank(g) == (if score >= 0.9 then 1 else 0) + (if score >= 0.8 then 1 else 0)
                            + (if score >= 0.7 then 1 else 0) + (if score >= 0.6 then 1 else 0)
  {
    if score >= 0.9 then 'A'
    else if score >= 0.8 then 'B'
    else if score >= 0.7 then 'C'
    else if score >= 0.6 then 'D'
    else 'F'
  }

  /** A higher score never gets a worse grade. */
  lemma QualityGradeMonotone(s1: real, s2: real)
    requires s1 <= s2
    ensures GradeRank(QualityGrade(s1)) <= GradeRank(QualityGrade(s2))
  {
  }

  // ------------------------------------------------------------ metrics collector

  datatype OperationRecord = OperationRecord(timestamp: real, operationType: string, moduleName: string,
                                             executionTime: real, success: bool)
  datatype OperationStats = OperationStats(total: nat, successful: nat, totalTime: real)
  datatype OperationSummary = OperationSummary(successRate: real, averageExecutionTime: real, totalOperations: nat)

  /** The most recent `n` entries. */
  function Recent<T>(xs: seq<T>, n: nat): (r: seq<T>)
    ensures |r| == if |xs| > n then n else |xs|
    ensures r == xs[|xs| - |r|..]
  {
    if |xs| > n then xs[|xs| - n..] else xs
  }

  function Count(h: seq<OperationRecord>, t: string): nat
  {
    if h == [] then 0 else Count(h[..|h| - 1], t) + (if h[|h| - 1].operationType == t then 1 else 0)
  }

  function Successes(h: seq<OperationRecord>, t: string): (r: nat)
    ensures r <= Count(h, t)
  {
    if h == [] then 0
    else Successes(h[..|h| - 1], t) + (if h[|h| - 1].operationType == t && h[|h| - 1].success then 1 else 0)
  }

  function TotalTime(h: seq<OperationRecord>, t: string): real
  {
    if h == [] then 0.0 else TotalTime(h[..|h| - 1], t) + (if h[|h| - 1].operationType == t then h[|h| - 1].executionTime else 0.0)
  }

  function TypeSet(h: seq<OperationRecord>): set<string>
  {
    set k | 0 <= k < |h| :: h[k].operationType
  }

  lemma TypeSetStep(h: seq<OperationRecord>, m: OperationRecord)
    ensures TypeSet(h + [m]) == TypeSet(h) + {m.operationType}
  {
    assert forall k :: 0 <= k < |h| ==> (h + [m])[k] == h[k];
    assert (h + [m])[|h|] == m;
  }

  /** The operation types in order of first appearance. */
  function Types(h: seq<OperationRecord>): (r: seq<string>)
    ensures forall t :: t in r <==> t in TypeSet(h)
    ensures forall i, j :: 0 <= i < j < |r| ==> r[i] != r[j]
  {
    if h == [] then []
    else
      var init := Types(h[..|h| - 1]);
      var t := h[|h| - 1].operationType;
      TypeSetStep(h[..|h| - 1], h[|h| - 1]);
      assert h[..|h| - 1] + [h[|h| - 1]] == h;
      if t in init then init else init + [t]
  }

  function SumCounts(ts: seq<string>, h: seq<OperationRecord>): nat
  {
    if ts == [] then 0 else Count(h, ts[0]) + SumCounts(ts[1..], h)
  }

  lemma {:induction false} SumCountsStep(ts: seq<string>, h: seq<OperationRecord>, m: OperationRecord)
    requires forall i, j :: 0 <= i < j < |ts| ==> ts[i] != ts[j]
    ensures SumCounts(ts, h + [m]) == SumCounts(ts, h) + (if m.operationType in ts then 1 else 0)
  {
    assert (h + [m])[..|h|] == h;
    if ts != [] {
      SumCountsStep(ts[1..], h, m);
      assert m.operationType in ts <==> m.operationType == ts[0] || m.operationType in ts[1..];
      if m.operationType == ts[0] {
        assert forall k :: 0 <= k < |ts| - 1 ==> ts[1..][k] == ts[k + 1] && ts[k + 1] != ts[0];
      }
    }
  }

  lemma {:induction false} SumCountsAppend(ts: seq<string>, t: string, h: seq<OperationRecord>)
    ensures SumCounts(ts + [t], h) == SumCounts(ts, h) + Count(h, t)
  {
    if ts != [] {
      assert (ts + [t])[1..] == ts[1..] + [t];
      SumCountsAppend(ts[1..], t, h);
    }
  }

  lemma {:induction false} CountAbsent(h: seq<OperationRecord>, t: string)
    requires t !in TypeSet(h)
    ensures Count(h, t) == 0 && TotalTime(h, t) == 0.0
  {
    if h != [] {
      TypeSetStep(h[..|h| - 1], h[|h| - 1]);
      assert h[..|h| - 1] + [h[|h| - 1]] == h;
      CountAbsent(h[..|h| - 1], t);
    }
  }

  /** The per-type totals add up to the number of recorded operations. */
  lemma {:induction false} TotalsSumToHistory(h: seq<OperationRecord>)
    ensures SumCounts(Types(h), h) == |h|
  {
    if h != [] {
      var init := h[..|h| - 1];
      var m := h[|h| - 1];
      assert h == init + [m];
      TotalsSumToHistory(init);
      SumCountsStep(Types(init), init, m);
      if m.operationType !in Types(init) {
        SumCountsAppend(Types(init), m.operationType, h);
        CountAbsent(init, m.operationType);
      }
    }
  }

  /** The per-type counters after the operations in `h`. */
  function StatsOf(h: seq<OperationRecord>): map<string, OperationStats>
  {
    map t | t in TypeSet(h) :: OperationStats(Count(h, t), Successes(h, t), TotalTime(h, t))
  }

  /** The counters after one more operation `m`. */
  function Counted(stats: map<string, OperationStats>, m: OperationRecord): map<string, OperationStats>
  {
    var prev := if m.operationType in stats then stats[m.operationType] else OperationStats(0, 0, 0.0);
    stats[m.operationType := OperationStats(prev.total + 1, prev.successful + (if m.success then 1 else 0),
                                            prev.totalTime + m.executionTime)]
  }

  lemma StatsOfStep(h: seq<OperationRecord>, m: OperationRecord)
    ensures StatsOf(h + [m]) == Counted(StatsOf(h), m)
  {
    var h' := h + [m];
    assert h'[..|h'| - 1] == h;
    TypeSetStep(h, m);
    if m.operationType !in TypeSet(h) {
      CountAbsent(h, m.operationType);
    }
    var after, counted := StatsOf(h'), Counted(StatsOf(h), m);
    assert after.Keys == counted.Keys;
    forall t | t in after ensures after[t] == counted[t] {
    }
  }

  /** The counters after the first `i + 1` operations are those after `i`, counted once more. */
  lemma StatsOfPrefix(h: seq<OperationRecord>, i: nat)
    requires i < |h|
    ensures StatsOf(h[..i + 1]) == Counted(StatsOf(h[..i]), h[i])
  {
    assert h[..i + 1] == h[..i] + [h[i]];
    StatsOfStep(h[..i], h[i]);
  }

  lemma StatsOfPositive(h: seq<OperationRecord>, t: string)
    requires t in TypeSet(h)
    ensures Count(h, t) > 0
    decreases |h|
  {
    var init := h[..|h| - 1];
    TypeSetStep(init, h[|h| - 1]);
    assert init + [h[|h| - 1]] == h;
    if h[|h| - 1].operationType != t {
      StatsOfPositive(init, t);
    }
  }

  /** One type's summary; the rates are 0 for a type with no operations. */
  function Summarize(s: OperationStats): (r: OperationSummary)
    ensures r.totalOperations == s.total
    ensures s.total > 0 ==> r.successRate == s.successful as real / s.total as real
    ensures s.total > 0 && s.successful <= s.total ==> 0.0 <= r.successRate <= 1.0
    ensures s.total > 0 ==> r.averageExecutionTime == s.totalTime / s.total as real
    ensures s.total == 0 ==> r.successRate == 0.0 && r.averageExecutionTime == 0.0
  {
    if s.total > 0 then
      RatioBounds(s.successful, if s.successful <= s.total then s.total else s.successful);
      OperationSummary(s.successful as real / s.total as real, s.totalTime / s.total as real, s.total)
    else OperationSummary(0.0, 0.0, 0)
  }

  function SummaryOf(h: seq<OperationRecord>): map<string, OperationSummary>
  {
    var stats := StatsOf(h);
    map t | t in stats :: Summarize(stats[t])
  }

  /**
   * One entry per recorded type: its operation count (never 0), its success
   * rate (successes over count, within [0, 1]) and its mean execution time.
   */
  lemma SummaryOfCounts(h: seq<OperationRecord>, t: string)
    requires t in SummaryOf(h)
    ensures t in TypeSet(h)
    ensures SummaryOf(h)[t].totalOperations == Count(h, t) > 0
    ensures SummaryOf(h)[t].successRate == Successes(h, t) as real / Count(h, t) as real
    ensures 0.0 <= SummaryOf(h)[t].successRate <= 1.0
    ensures SummaryOf(h)[t].averageExecutionTime == TotalTime(h, t) / Count(h, t) as real
  {
    StatsOfPositive(h, t);
    var st := StatsOf(h)[t];
    assert st == OperationStats(Count(h, t), Successes(h, t), TotalTime(h, t));
    assert SummaryOf(h)[t] == Summarize(st);
  }

  class MetricsCollector {
    var history: seq<OperationRecord>

    ghost predicate Valid()
      reads this
    {
      |history| <= 1000
    }

    constructor ()
      ensures Valid() && history == []
    {
      history := [];
    }

    /** `record_dspy_operation`: appends the record and keeps the 1000 most recent. */
    method RecordOperation(operationType: string, moduleName: string, executionTime: real, success: bool, now: real)
      requires Valid()
      modifies this
      ensures Valid()
      ensures history == Recent(old(history) + [OperationRecord(now, operationType, moduleName, executionTime, success)], 1000)
      ensures history != [] && history[|history| - 1] == OperationRecord(now, operationType, moduleName, executionTime, success)
    {
      history := Recent(history + [OperationRecord(now, operationType, moduleName, executionTime, success)], 1000);
    }

    /**
     * The operation statistics of `get_performance_summary`: None when
     * nothing was recorded; otherwise one entry per operation type with its
     * count, success rate and mean execution time.
     */
    method OperationStatistics() returns (r: Option<map<string, OperationSummary>>)
      ensures r.None? <==> history == []
      ensures r.Some? ==> r.value == SummaryOf(history)
    {
      if history == [] {
        return None;
      }
      var stats: map<string, OperationStats> := map[];
      var i := 0;
      while i < |history|
        invariant 0 <= i <= |history|
        invariant stats == StatsOf(history[..i])
      {
        var m := history[i];
        StatsOfPrefix(history, i);
        stats := Counted(stats, m);
        i := i + 1;
      }
      assert history[..i] == history;
      r := Some(map t | t in stats :: Summarize(stats[t]));
    }
  }
}
