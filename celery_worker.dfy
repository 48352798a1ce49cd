/**
 * The two pieces of logic in prompt_api/celery_worker.py that do not talk
 * to the broker, the database or the language model: cutting the JSON
 * object out of a model reply, and reading the `professional_grade` flag
 * of the parsed analysis.
 *
 * The extraction is written twice. `ExtractJson` follows the search the
 * regular-expression engine performs (scan for the start, then take the
 * first or last closing brace); `FenceMatch` and `BraceMatch` say what a
 * match of each pattern is, position by position, and the lemmas prove that
 * `ExtractJson` returns the leftmost match with the lazy or greedy end the
 * pattern asks for.
 */
module CeleryWorker {
  import opened Wrappers
  import opened Text

  /** The opening of a fenced block, "```json". */
  const Fence: string := "```json"
  /** The closing of a fenced block. */
  const Ticks: string := "```"

  // ------------------------------------------------------------ the patterns, declaratively

  /** `\}\s*```` matches with the brace at j and the ticks at k. */
  predicate ClosedBy(s: string, j: nat, k: nat)
  {
    j < k && k + 3 <= |s| && s[j] == '}' && Spaces(s, j + 1, k) && s[k..k + 3] == Ticks
  }

  /**
   * "```json\s*(\{.*?\})\s*```" matches from `at`, group 1 being s[b..j+1]
   * and the closing ticks starting at k.
   */
  predicate FenceMatch(s: string, at: nat, b: nat, j: nat, k: nat)
  {
    && ClosedBy(s, j, k)
    && at + 7 <= b < j && s[at..at + 7] == Fence && Spaces(s, at + 7, b) && s[b] == '{'
  }

  /** `\{.*\}` (dot matching newlines too) matches s[f..l+1]. */
  predicate BraceMatch(s: string, f: nat, l: nat)
  {
    f < l < |s| && s[f] == '{' && s[l] == '}'
  }

  // ------------------------------------------------------------ the search

  /** A closing brace at j followed by the closing ticks, after the longest whitespace run. */
  predicate ClosesAt(s: string, j: nat)
  {
    j < |s| && s[j] == '}' && var k := SpaceEnd(s, j + 1); k + 3 <= |s| && s[k..k + 3] == Ticks
  }

  /** `.*?`: the first position from `from` on where the fenced block can close. */
  function FirstClose(s: string, from: nat): (r: Option<nat>)
    requires from <= |s|
    ensures r.Some? ==> from <= r.value < |s| && ClosesAt(s, r.value)
    ensures r.Some? ==> forall t :: from <= t < r.value ==> !ClosesAt(s, t)
    ensures r.None? ==> forall t :: from <= t < |s| ==> !ClosesAt(s, t)
    decreases |s| - from
  {
    if from == |s| then None
    else if ClosesAt(s, from) then Some(from)
    else FirstClose(s, from + 1)
  }

  /** The fenced pattern tried at `at`: the opening brace and the closing brace of group 1. */
  function FenceAt(s: string, at: nat): (r: Option<(nat, nat)>)
    requires at <= |s|
  {
    if at + 7 <= |s| && s[at..at + 7] == Fence then
      var b := SpaceEnd(s, at + 7);
      if b < |s| && s[b] == '{' then
        match FirstClose(s, b + 1)
        case Some(j) => Some((b, j))
        case None => None
      else None
    else None
  }

  /** `re.search` of the fenced pattern: the first start position from `from` on where it matches. */
  function FirstFence(s: string, from: nat): (r: Option<nat>)
    requires from <= |s|
    ensures r.Some? ==> from <= r.value <= |s| && FenceAt(s, r.value).Some?
    ensures r.Some? ==> forall t :: from <= t < r.value ==> FenceAt(s, t).None?
    ensures r.None? ==> forall t :: from <= t <= |s| ==> FenceAt(s, t).None?
    decreases |s| - from
  {
    if FenceAt(s, from).Some? then Some(from)
    else if from == |s| then None
    else FirstFence(s, from + 1)
  }

  /** The last index below n holding c. */
  function LastIndex(s: string, c: char, n: nat): (r: Option<nat>)
    requires n <= |s|
    ensures r.Some? ==> r.value < n && s[r.value] == c
    ensures r.Some? ==> forall t :: r.value < t < n ==> s[t] != c
    ensures r.None? ==> forall t :: 0 <= t < n ==> s[t] != c
  {
    if n == 0 then None
    else if s[n - 1] == c then Some(n - 1)
    else LastIndex(s, c, n - 1)
  }

  /** A fenced find is a brace pair: `{` at `b`, and the `}` at `j` after it. */
  lemma FenceAtBraces(s: string, at: nat)
    requires at <= |s| && FenceAt(s, at).Some?
    ensures var (b, j) := FenceAt(s, at).value; b < j < |s| && s[b] == '{' && s[j] == '}'
  {
  }

  /**
   * `extract_json_from_response`: group 1 of the first fenced block, else
   * everything from the first opening brace to the last closing brace,
   * else the reply unchanged.
   */
  function ExtractJson(s: string): (r: string)
    ensures r == s || (2 <= |r| && r[0] == '{' && r[|r| - 1] == '}' && Contains(s, r))
  {
    match FirstFence(s, 0)
    case Some(at) =>
      var (b, j) := FenceAt(s, at).value;
      FenceAtBraces(s, at);
      ContainsAt(s, s[b..j + 1], b);
      assert s[b..j + 1][0] == s[b] && s[b..j + 1][j - b] == s[j];
      s[b..j + 1]
    case None =>
      match (IndexFrom(s, '{', 0), LastIndex(s, '}', |s|))
      case (Some(f), Some(l)) =>
        if f < l then
          ContainsAt(s, s[f..l + 1], f);
          s[f..l + 1]
        else s
      case _ => s
  }

  // ------------------------------------------------------------ the search finds the matches

  /** A whitespace run ended by a non-whitespace character is the longest run. */
  lemma SpaceEndAt(s: string, k: nat, m: nat)
    requires Spaces(s, k, m) && m < |s| && !IsSpace(s[m])
    ensures SpaceEnd(s, k) == m
  {
  }

  /** The search's closing test is the pattern's. */
  lemma ClosesAtIff(s: string, j: nat)
    ensures ClosesAt(s, j) ==> ClosedBy(s, j, SpaceEnd(s, j + 1))
    ensures forall k: nat :: ClosedBy(s, j, k) ==> ClosesAt(s, j) && k == SpaceEnd(s, j + 1)
  {
    forall k: nat | ClosedBy(s, j, k) ensures ClosesAt(s, j) && k == SpaceEnd(s, j + 1) {
      assert s[k] == s[k..k + 3][0] == '`';
      SpaceEndAt(s, j + 1, k);
    }
  }

  /** What the fenced search finds at `at` is a match, and the one with the earliest closing brace. */
  lemma FenceAtSound(s: string, at: nat, b: nat, j: nat)
    requires at <= |s| && FenceAt(s, at) == Some((b, j))
    ensures FenceMatch(s, at, b, j, SpaceEnd(s, j + 1))
    ensures forall b': nat, j': nat, k': nat :: FenceMatch(s, at, b', j', k') ==> b' == b && j <= j'
  {
    forall b': nat, j': nat, k': nat | FenceMatch(s, at, b', j', k') ensures b' == b && j <= j' {
      MatchNoEarlier(s, at, b, j, b', j', k');
    }
    FoundIsMatch(s, at, b, j);
  }

  /** The search's find at `at` is a match of the pattern. */
  lemma FoundIsMatch(s: string, at: nat, b: nat, j: nat)
    requires at <= |s| && FenceAt(s, at) == Some((b, j))
    ensures FenceMatch(s, at, b, j, SpaceEnd(s, j + 1))
  {
    assert at + 7 <= |s| && s[at..at + 7] == Fence;
    assert b == SpaceEnd(s, at + 7) && s[b] == '{';
    assert FirstClose(s, b + 1) == Some(j);
    ClosesAtIff(s, j);
  }

  /** A match at `at` opens at the brace the search found there and closes no earlier than it. */
  lemma MatchNoEarlier(s: string, at: nat, b: nat, j: nat, b': nat, j': nat, k': nat)
    requires at <= |s| && FenceAt(s, at) == Some((b, j)) && FenceMatch(s, at, b', j', k')
    ensures b' == b && j <= j'
  {
    assert b == SpaceEnd(s, at + 7) && FirstClose(s, b + 1) == Some(j);
    SpaceEndAt(s, at + 7, b');
    ClosesAtIff(s, j');
    assert ClosesAt(s, j');
  }

  /** Every match from `at` is found by the fenced search there. */
  lemma FenceAtComplete(s: string, at: nat, b: nat, j: nat, k: nat)
    requires at <= |s| && FenceMatch(s, at, b, j, k)
    ensures FenceAt(s, at).Some?
  {
    SpaceEndAt(s, at + 7, b);
    ClosesAtIff(s, j);
  }

  /**
   * With a fenced block in the reply, the result is group 1 of the leftmost
   * match, closed at the earliest brace the pattern allows.
   */
  lemma ExtractFenced(s: string, at: nat, b: nat, j: nat, k: nat)
    requires FenceMatch(s, at, b, j, k)
    requires forall at': nat, b': nat, j': nat, k': nat :: FenceMatch(s, at', b', j', k') ==> at < at' || (at == at' && j <= j')
    ensures ExtractJson(s) == s[b..j + 1]
  {
    FirstFenceIsLeftmost(s, at, b, j, k);
    var at0 := FirstFence(s, 0).value;
    var (b0, j0) := FenceAt(s, at0).value;
    FoundIsMatch(s, at0, b0, j0);
    assert FenceMatch(s, at0, b0, j0, SpaceEnd(s, j0 + 1));
    assert at0 == at && j0 == j;
    MatchNoEarlier(s, at0, b0, j0, b, j, k);
    FoundFenceExtracted(s);
  }

  /** When the fenced search succeeds, its group is what is returned. */
  lemma FoundFenceExtracted(s: string)
    requires FirstFence(s, 0).Some?
    ensures var (b, j) := FenceAt(s, FirstFence(s, 0).value).value; ExtractJson(s) == s[b..j + 1]
  {
  }

  /** The fenced search stops at or before any match, and at the same start no later than its closing brace. */
  lemma FirstFenceIsLeftmost(s: string, at': nat, b': nat, j': nat, k': nat)
    requires FenceMatch(s, at', b', j', k')
    ensures FirstFence(s, 0).Some?
    ensures var at := FirstFence(s, 0).value;
      at < at' || (at == at' && FenceAt(s, at).value.1 <= j')
  {
    FenceAtComplete(s, at', b', j', k');
    var at := FirstFence(s, 0).value;
    if at == at' {
      var (b, j) := FenceAt(s, at).value;
      MatchNoEarlier(s, at, b, j, b', j', k');
    }
  }

  /** No fenced match exists when the fenced search fails everywhere. */
  lemma NoFence(s: string)
    requires !exists at: nat, b: nat, j: nat, k: nat :: FenceMatch(s, at, b, j, k)
    ensures FirstFence(s, 0).None?
  {
    if FirstFence(s, 0).Some? {
      var at := FirstFence(s, 0).value;
      var (b, j) := FenceAt(s, at).value;
      FoundIsMatch(s, at, b, j);
    }
  }

  /**
   * Without a fenced block but with an opening brace before a closing one,
   * the result runs from the leftmost opening brace to the rightmost closing
   * brace: the leftmost match, extended as far as the greedy `.*` reaches.
   */
  lemma ExtractBraces(s: string)
    requires !exists at: nat, b: nat, j: nat, k: nat :: FenceMatch(s, at, b, j, k)
    requires exists f: nat, l: nat :: BraceMatch(s, f, l)
    ensures exists f: nat, l: nat ::
      && BraceMatch(s, f, l) && ExtractJson(s) == s[f..l + 1]
      && forall f': nat, l': nat :: BraceMatch(s, f', l') ==> f <= f' && l' <= l
  {
    NoFence(s);
    var f0, l0 :| BraceMatch(s, f0, l0);
    var f := IndexFrom(s, '{', 0).value;
    var l := LastIndex(s, '}', |s|).value;
    assert BraceMatch(s, f, l);
  }

  /** A reply with neither pattern comes back unchanged. */
  lemma ExtractUnchanged(s: string)
    requires !exists at: nat, b: nat, j: nat, k: nat :: FenceMatch(s, at, b, j, k)
    requires !exists f: nat, l: nat :: BraceMatch(s, f, l)
    ensures ExtractJson(s) == s
  {
    NoFence(s);
    match (IndexFrom(s, '{', 0), LastIndex(s, '}', |s|))
    case (Some(f), Some(l)) =>
      if f < l {
        assert BraceMatch(s, f, l);
      }
    case _ =>
  }

  // ------------------------------------------------------------ extracting twice

  /** A slice of a piece of s is the slice of s shifted by where the piece starts. */
  lemma SliceShift(s: string, o: nat, r: string, i: nat, n: nat)
    requires o + |r| <= |s| && r == s[o..o + |r|] && i + n <= |r|
    ensures s[o + i..o + i + n] == r[i..i + n]
  {
    forall t | i <= t < i + n ensures r[t] == s[o + t] {
    }
  }

  /** A closing of a piece of s is a closing of s, shifted by where the piece starts. */
  lemma ShiftClosed(s: string, o: nat, r: string, j: nat, k: nat)
    requires o + |r| <= |s| && r == s[o..o + |r|] && ClosedBy(r, j, k)
    ensures ClosedBy(s, o + j, o + k)
  {
    SliceShift(s, o, r, k, 3);
    forall t | o + j + 1 <= t < o + k ensures IsSpace(s[t]) {
      assert s[t] == r[t - o];
    }
  }

  /** A fenced match in a piece of s is a fenced match in s. */
  lemma ShiftFence(s: string, o: nat, r: string, at: nat, b: nat, j: nat, k: nat)
    requires o + |r| <= |s| && r == s[o..o + |r|] && FenceMatch(r, at, b, j, k)
    ensures FenceMatch(s, o + at, o + b, o + j, o + k)
  {
    ShiftClosed(s, o, r, j, k);
    SliceShift(s, o, r, at, 7);
    forall t | o + at + 7 <= t < o + b ensures IsSpace(s[t]) {
      assert s[t] == r[t - o];
    }
  }

  /** The search finding nothing means there is no fenced match at all: the converse of NoFence. */
  lemma NoneMeansNoFence(s: string)
    requires FirstFence(s, 0).None?
    ensures !exists at: nat, b: nat, j: nat, k: nat :: FenceMatch(s, at, b, j, k)
  {
    if exists at: nat, b: nat, j: nat, k: nat :: FenceMatch(s, at, b, j, k) {
      var at, b, j, k :| FenceMatch(s, at, b, j, k);
      FirstFenceIsLeftmost(s, at, b, j, k);
      assert false;
    }
  }

  /** Without a fenced match in s, no piece of s has one. */
  lemma PieceHasNoFence(s: string, o: nat, r: string)
    requires o + |r| <= |s| && r == s[o..o + |r|]
    requires !exists at: nat, b: nat, j: nat, k: nat :: FenceMatch(s, at, b, j, k)
    ensures !exists at: nat, b: nat, j: nat, k: nat :: FenceMatch(r, at, b, j, k)
  {
    if exists at: nat, b: nat, j: nat, k: nat :: FenceMatch(r, at, b, j, k) {
      var at, b, j, k :| FenceMatch(r, at, b, j, k);
      ShiftFence(s, o, r, at, b, j, k);
      assert false;
    }
  }

  /** A piece s[b..j+1] inside which no closing brace can close the fence holds no fenced block. */
  lemma NoCloseNoFence(s: string, b: nat, j: nat, r: string)
    requires b <= j < |s| && r == s[b..j + 1]
    requires forall t :: b + 1 <= t < j ==> !ClosesAt(s, t)
    ensures !exists at: nat, b': nat, j': nat, k': nat :: FenceMatch(r, at, b', j', k')
  {
    if exists at: nat, b': nat, j': nat, k': nat :: FenceMatch(r, at, b', j', k') {
      var at, b', j', k' :| FenceMatch(r, at, b', j', k');
      ShiftClosed(s, b, r, j', k');
      ClosesAtIff(s, b + j');
      assert false;
    }
  }

  /** Group 1 of the first fenced block holds no fenced block: its closing brace is the first one that could close. */
  lemma GroupHasNoFence(s: string, r: string)
    requires FirstFence(s, 0).Some? && r == ExtractJson(s)
    ensures !exists at: nat, b': nat, j': nat, k': nat :: FenceMatch(r, at, b', j', k')
  {
    var (b, j) := FenceAt(s, FirstFence(s, 0).value).value;
    NoCloseNoFence(s, b, j, r);
  }

  /** A braced reply without a fenced block comes back whole. */
  lemma BracedIsKept(r: string)
    requires 2 <= |r| && r[0] == '{' && r[|r| - 1] == '}'
    requires !exists at: nat, b: nat, j: nat, k: nat :: FenceMatch(r, at, b, j, k)
    ensures ExtractJson(r) == r
  {
    NoFence(r);
    assert IndexFrom(r, '{', 0) == Some(0);
    assert LastIndex(r, '}', |r|) == Some(|r| - 1);
  }

  /** Extracting from what was extracted changes nothing. */
  lemma ExtractIdempotent(s: string)
    ensures ExtractJson(ExtractJson(s)) == ExtractJson(s)
  {
    if FirstFence(s, 0).Some? {
      var r := ExtractJson(s);
      GroupHasNoFence(s, r);
      BracedIsKept(r);
    } else {
      UnfencedIdempotent(s);
    }
  }

  /** The same, for text without a fence: the brace slice is kept. */
  lemma UnfencedIdempotent(s: string)
    requires FirstFence(s, 0).None?
    ensures ExtractJson(ExtractJson(s)) == ExtractJson(s)
  {
    var r := ExtractJson(s);
    if r != s {
      NoneMeansNoFence(s);
      var f := IndexFrom(s, '{', 0).value;
      var l := LastIndex(s, '}', |s|).value;
      assert r == s[f..l + 1];
      PieceHasNoFence(s, f, r);
      BracedIsKept(r);
    }
  }

  // ------------------------------------------------------------ professional_grade

  /** A value of the parsed analysis, as Python holds it; `Other` is any other value, by its `str()`. */
  datatype PyValue = PyNone | PyBool(b: bool) | PyInt(i: int) | PyStr(s: string) | Other(text: string)

  /** Python `str(v)`. */
  function StrOf(v: PyValue): string
  {
    match v
    case PyNone => "None"
    case PyBool(b) => if b then "True" else "False"
    case PyInt(i) => IntToString(i)
    case PyStr(s) => s
    case Other(t) => t
  }

  /**
   * `str(quality.get("professional_grade", False)).lower() in ['true', '1']`;
   * a missing key is `False`.
   */
  function ProfessionalGrade(raw: Option<PyValue>): bool
  {
    Lower(StrOf(raw.GetOr(PyBool(false)))) in ["true", "1"]
  }

  /** `str(n)` is "1" only for n == 1. */
  lemma NatToStringOne(n: nat)
    ensures NatToString(n) == "1" <==> n == 1
  {
    if n >= 10 {
      assert |NatToString(n)| == |NatToString(n / 10)| + 1 >= 2;
    }
  }

  /** Lower-casing leaves a string without capitals as it is. */
  lemma LowerNoCapitals(s: string)
    requires forall t :: 0 <= t < |s| ==> s[t] == '-' || IsDigit(s[t])
    ensures Lower(s) == s
  {
  }

  /**
   * The flag is set by the boolean true, the integer 1, and the strings
   * "1" and "true" in any capitalisation; a missing key, None and false
   * leave it unset.
   */
  lemma ProfessionalGradeMeaning(raw: Option<PyValue>)
    ensures raw.None? || raw == Some(PyNone) ==> !ProfessionalGrade(raw)
    ensures raw.Some? && raw.value.PyBool? ==> (ProfessionalGrade(raw) <==> raw.value.b)
    ensures raw.Some? && raw.value.PyInt? ==> (ProfessionalGrade(raw) <==> raw.value.i == 1)
    ensures raw.Some? && raw.value.PyStr? ==> (ProfessionalGrade(raw) <==> Lower(raw.value.s) == "true" || raw.value.s == "1")
  {
    assert Lower("None")[0] == 'n';
    assert |Lower("False")| == 5;
    assert Lower("True") == "true" by {
      assert Lower("True")[0] == 't';
    }
    match raw.GetOr(PyBool(false))
    case PyInt(i) =>
      var t := IntToString(i);
      LowerNoCapitals(t);
      assert IsDigit(t[0]) || t[0] == '-';
      if i >= 0 {
        NatToStringOne(i);
      } else {
        assert t[0] == '-';
      }
    case PyStr(s) =>
      assert Lower(s) == "1" <==> s == "1" by {
        if |s| == 1 {
          assert Lower(s)[0] == LowerChar(s[0]);
        }
      }
    case _ =>
  }
}
