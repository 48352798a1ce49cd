/**
 * The prompt-service backend (backend/app.py): its module-level response
 * cache with absolute expiry times, the sliding-window rate limiter per
 * client, one pass of the background cleanup task, the case-insensitive
 * merge of suggestion lists, and the aggregation in the prompt comparison
 * and batch evaluation endpoints.
 *
 * The clock is a parameter. Evaluation scores come from an oracle.
 */
module AppBackend {
  import opened Wrappers
  import opened Text
  import opened Numbers

  /** The timestamps strictly after the start of the window, in order. */
  function Recent(times: seq<real>, windowStart: real): (r: seq<real>)
    ensures |r| <= |times|
    ensures forall t :: t in r <==> t in times && t > windowStart
  {
    if times == [] then []
    else (if times[0] > windowStart then [times[0]] else []) + Recent(times[1..], windowStart)
  }

  /** A `defaultdict(list)` lookup. */
  function Requests(limiter: map<string, seq<real>>, client: string): seq<real>
  {
    if client in limiter then limiter[client] else []
  }

  /** The keys whose expiry time has passed. */
  function ExpiredKeys(expiry: map<string, real>, now: real): (r: set<string>)
    ensures forall k :: k in r <==> k in expiry && now > expiry[k]
  {
    set k | k in expiry && now > expiry[k]
  }

  function Cap(limit: int): nat { if limit < 0 then 0 else limit }

  class AppState<V> {
    var cache: map<string, V>
    /** Absolute expiry time of each cached key. */
    var cacheTtl: map<string, real>
    var rateLimiter: map<string, seq<real>>
    const rateLimitRequests: int
    const rateLimitWindow: real

    /** Both cache maps hold the same keys, and no client has more than the limit recorded. */
    predicate Valid()
      reads this
    {
      cache.Keys == cacheTtl.Keys
      && forall c :: c in rateLimiter ==> |rateLimiter[c]| <= Cap(rateLimitRequests)
    }

    constructor(rateLimitRequests: int, rateLimitWindow: real)
      ensures Valid()
      ensures cache == map[] && cacheTtl == map[] && rateLimiter == map[]
      ensures this.rateLimitRequests == rateLimitRequests && this.rateLimitWindow == rateLimitWindow
    {
      cache := map[];
      cacheTtl := map[];
      rateLimiter := map[];
      this.rateLimitRequests := rateLimitRequests;
      this.rateLimitWindow := rateLimitWindow;
    }

    /**
     * `get_cached_response`: the value while `now` is before its expiry;
     * an entry whose expiry has been reached is removed from both maps.
     */
    method GetCachedResponse(key: string, now: real) returns (r: Option<V>)
      requires Valid()
      modifies this
      ensures Valid()
      ensures r.Some? <==> key in old(cache) && now < old(cacheTtl)[key]
      ensures r.Some? ==> r.value == old(cache)[key] && cache == old(cache) && cacheTtl == old(cacheTtl)
      ensures r.None? ==> cache == old(cache) - {key} && cacheTtl == old(cacheTtl) - {key}
      ensures rateLimiter == old(rateLimiter)
    {
      if key in cache && key in cacheTtl {
        if now < cacheTtl[key] {
          return Some(cache[key]);
        }
        cache := cache - {key};
        cacheTtl := cacheTtl - {key};
      }
      return None;
    }

    /** `set_cache`: store the value with expiry `now + ttl`. */
    method SetCache(key: string, value: V, ttl: real, now: real)
      requires Valid()
      modifies this
      ensures Valid()
      ensures cache == old(cache)[key := value] && cacheTtl == old(cacheTtl)[key := now + ttl]
      ensures rateLimiter == old(rateLimiter)
    {
      cache := cache[key := value];
      cacheTtl := cacheTtl[key := now + ttl];
    }

    /**
     * `check_rate_limit`: drop the client's timestamps at or before
     * `now - window`; refuse without recording when as many remain as the
     * limit, otherwise record `now` and allow.
     */
    method CheckRateLimit(client: string, now: real) returns (allowed: bool)
      requires Valid()
      modifies this
      ensures Valid()
      ensures allowed <==> |Recent(Requests(old(rateLimiter), client), now - rateLimitWindow)| < rateLimitRequests
      ensures allowed ==> rateLimiter == old(rateLimiter)[client := Recent(Requests(old(rateLimiter), client), now - rateLimitWindow) + [now]]
      ensures !allowed ==> rateLimiter == old(rateLimiter)[client := Recent(Requests(old(rateLimiter), client), now - rateLimitWindow)]
      ensures cache == old(cache) && cacheTtl == old(cacheTtl)
    {
      var windowStart := now - rateLimitWindow;
      var kept := Recent(Requests(rateLimiter, client), windowStart);
      rateLimiter := rateLimiter[client := kept];
      if |kept| >= rateLimitRequests {
        return false;
      }
      rateLimiter := rateLimiter[client := kept + [now]];
      return true;
    }

    /**
     * One pass of `cache_cleanup_task`: remove exactly the entries whose
     * expiry is before `now`.
     */
    method CleanupSweep(now: real)
      requires Valid()
      modifies this
      ensures Valid()
      ensures cache.Keys == old(cache.Keys) - ExpiredKeys(old(cacheTtl), now)
      ensures forall k :: k in cache ==> cache[k] == old(cache)[k]
      ensures forall k :: k in cacheTtl ==> cacheTtl[k] == old(cacheTtl)[k] && !(now > cacheTtl[k])
      ensures rateLimiter == old(rateLimiter)
    {
      var pending := cacheTtl.Keys;
      var expired: set<string> := {};
      while pending != {}
        invariant unchanged(this)
        invariant pending <= cacheTtl.Keys
        invariant forall k :: k in expired <==> k in cacheTtl && k !in pending && now > cacheTtl[k]
        decreases |pending|
      {
        var k :| k in pending;
        if now > cacheTtl[k] {
          expired := expired + {k};
        }
        pending := pending - {k};
      }
      assert expired == ExpiredKeys(cacheTtl, now);
      cache := cache - expired;
      cacheTtl := cacheTtl - expired;
    }
  }

  /**
   * Pruning is safe as the clock moves forward: the timestamps a check
   * keeps include every one a later window still counts, so counting after
   * an earlier prune gives the same list as counting the full history.
   */
  lemma {:induction false} RecentPruneLater(times: seq<real>, earlier: real, later: real)
    requires earlier <= later
    ensures Recent(Recent(times, earlier), later) == Recent(times, later)
  {
    if times != [] {
      RecentPruneLater(times[1..], earlier, later);
      RecentAppend(if times[0] > earlier then [times[0]] else [], Recent(times[1..], earlier), later);
    }
  }

  lemma {:induction false} RecentAppend(a: seq<real>, b: seq<real>, w: real)
    ensures Recent(a + b, w) == Recent(a, w) + Recent(b, w)
  {
    if a == [] {
      assert a + b == b;
    } else {
      assert (a + b)[1..] == a[1..] + b;
      RecentAppend(a[1..], b, w);
      var h := if a[0] > w then [a[0]] else [];
      assert Recent(a + b, w) == h + Recent(a[1..] + b, w);
      assert h + (Recent(a[1..], w) + Recent(b, w)) == (h + Recent(a[1..], w)) + Recent(b, w);
    }
  }

  // ------------------------------------------------------------ suggestion merge

  function KeySet(xs: seq<string>, key: string -> string): set<string>
  {
    set x | x in xs :: key(x)
  }

  /**
   * The suggestions in order, dropping each one whose key was already seen
   * (in `seen` or earlier in the list).
   */
  function DedupFrom(xs: seq<string>, seen: set<string>, key: string -> string): (r: seq<string>)
  {
    if xs == [] then []
    else if key(xs[0]) in seen then DedupFrom(xs[1..], seen, key)
    else [xs[0]] + DedupFrom(xs[1..], seen + {key(xs[0])}, key)
  }

  /** Every kept suggestion comes from the input and has a key not seen before. */
  lemma {:induction false} DedupFromSound(xs: seq<string>, seen: set<string>, key: string -> string)
    ensures forall y :: y in DedupFrom(xs, seen, key) ==> y in xs && key(y) !in seen
  {
    if xs != [] {
      if key(xs[0]) in seen {
        DedupFromSound(xs[1..], seen, key);
      } else {
        DedupFromSound(xs[1..], seen + {key(xs[0])}, key);
      }
    }
  }

  /** No two kept suggestions share a key. */
  lemma {:induction false} DedupFromDistinct(xs: seq<string>, seen: set<string>, key: string -> string)
    ensures forall i, j :: 0 <= i < j < |DedupFrom(xs, seen, key)| ==>
              key(DedupFrom(xs, seen, key)[i]) != key(DedupFrom(xs, seen, key)[j])
  {
    if xs != [] {
      if key(xs[0]) in seen {
        DedupFromDistinct(xs[1..], seen, key);
      } else {
        var rest := DedupFrom(xs[1..], seen + {key(xs[0])}, key);
        DedupFromDistinct(xs[1..], seen + {key(xs[0])}, key);
        DedupFromSound(xs[1..], seen + {key(xs[0])}, key);
        var r := [xs[0]] + rest;
        forall i, j | 0 <= i < j < |r|
          ensures key(r[i]) != key(r[j])
        {
          if i == 0 {
            assert r[j] == rest[j - 1] && r[j] in rest;
          } else {
            assert r[i] == rest[i - 1] && r[j] == rest[j - 1];
          }
        }
      }
    }
  }

  /** Every suggestion is represented by one with the same key, unless its key was seen before. */
  lemma {:induction false} DedupFromCovers(xs: seq<string>, seen: set<string>, key: string -> string)
    ensures forall x :: x in xs && key(x) !in seen ==>
              exists i :: 0 <= i < |DedupFrom(xs, seen, key)| && key(DedupFrom(xs, seen, key)[i]) == key(x)
  {
    if xs != [] {
      var r := DedupFrom(xs, seen, key);
      assert forall x :: x in xs ==> x == xs[0] || x in xs[1..];
      if key(xs[0]) in seen {
        DedupFromCovers(xs[1..], seen, key);
        assert r == DedupFrom(xs[1..], seen, key);
        forall x | x in xs && key(x) !in seen
          ensures exists i :: 0 <= i < |r| && key(r[i]) == key(x)
        {
          assert x in xs[1..];
        }
      } else {
        var seen' := seen + {key(xs[0])};
        var rest := DedupFrom(xs[1..], seen', key);
        DedupFromCovers(xs[1..], seen', key);
        assert r == [xs[0]] + rest;
        forall x | x in xs && key(x) !in seen
          ensures exists i :: 0 <= i < |r| && key(r[i]) == key(x)
        {
          if key(x) == key(xs[0]) {
            assert key(r[0]) == key(x);
          } else {
            assert x in xs[1..];
            var i :| 0 <= i < |rest| && key(rest[i]) == key(x);
            assert r[i + 1] == rest[i];
          }
        }
        assert r == DedupFrom(xs, seen, key);
        assert forall x :: x in xs && key(x) !in seen ==>
                 exists i :: 0 <= i < |DedupFrom(xs, seen, key)| && key(DedupFrom(xs, seen, key)[i]) == key(x);
      }
    }
  }

  /** One step of the dedup loop. */
  lemma DedupFromStep(xs: seq<string>, i: nat, seen: set<string>, key: string -> string)
    requires i < |xs|
    ensures DedupFrom(xs[i..], seen, key) ==
            if key(xs[i]) in seen then DedupFrom(xs[i + 1..], seen, key)
            else [xs[i]] + DedupFrom(xs[i + 1..], seen + {key(xs[i])}, key)
  {
    assert xs[i..][1..] == xs[i + 1..];
  }

  /** The suggestion key: its lowercase form. */
  function LowerKey(): string -> string
  {
    (s: string) => Lower(s)
  }

  /** The merge of the DeepEval suggestions: skipped entirely when there are none to add. */
  function Merged(original: seq<string>, added: seq<string>): seq<string>
  {
    if added == [] then original else DedupFrom(original + added, {}, LowerKey())
  }

  /** The dedup loop of the suggestion endpoint. */
  method MergeSuggestions(original: seq<string>, added: seq<string>) returns (merged: seq<string>)
    ensures merged == Merged(original, added)
  {
    if added == [] {
      return original;
    }
    var all := original + added;
    merged := [];
    var seen: set<string> := {};
    var i := 0;
    while i < |all|
      invariant 0 <= i <= |all|
      invariant merged + DedupFrom(all[i..], seen, LowerKey()) == DedupFrom(all, {}, LowerKey())
    {
      DedupFromStep(all, i, seen, LowerKey());
      var low := Lower(all[i]);
      assert low == LowerKey()(all[i]);
      if low !in seen {
        merged := merged + [all[i]];
        seen := seen + {low};
      }
      i := i + 1;
    }
  }

  /**
   * Suggestions already free of repeated keys come first and unchanged; only
   * later ones are dropped.
   */
  lemma {:induction false} DedupKeepsDistinctPrefix(original: seq<string>, added: seq<string>, seen: set<string>,
                                                    key: string -> string)
    requires forall i, j :: 0 <= i < j < |original| ==> key(original[i]) != key(original[j])
    requires forall i :: 0 <= i < |original| ==> key(original[i]) !in seen
    ensures DedupFrom(original + added, seen, key) == original + DedupFrom(added, seen + KeySet(original, key), key)
  {
    if original == [] {
      assert original + added == added;
      assert KeySet(original, key) == {};
      assert seen + KeySet(original, key) == seen;
    } else {
      var x := original[0];
      var tail := original[1..];
      assert (original + added)[1..] == tail + added;
      assert forall i :: 0 <= i < |tail| ==> tail[i] == original[i + 1];
      DedupKeepsDistinctPrefix(tail, added, seen + {key(x)}, key);
      assert KeySet(original, key) == {key(x)} + KeySet(tail, key);
      assert seen + {key(x)} + KeySet(tail, key) == seen + KeySet(original, key);
    }
  }

  /** The merged list: no two entries equal ignoring case, and every suggestion is represented. */
  lemma MergedSuggestionsDistinct(original: seq<string>, added: seq<string>)
    requires added != []
    ensures forall i, j :: 0 <= i < j < |Merged(original, added)| ==> Lower(Merged(original, added)[i]) != Lower(Merged(original, added)[j])
    ensures forall x :: x in original + added ==> exists y :: y in Merged(original, added) && Lower(y) == Lower(x)
    ensures forall y :: y in Merged(original, added) ==> y in original + added
  {
    var m := DedupFrom(original + added, {}, LowerKey());
    DedupFromSound(original + added, {}, LowerKey());
    DedupFromDistinct(original + added, {}, LowerKey());
    DedupFromCovers(original + added, {}, LowerKey());
    assert forall i, j :: 0 <= i < j < |m| ==> LowerKey()(m[i]) != LowerKey()(m[j]);
    forall x | x in original + added
      ensures exists y :: y in m && Lower(y) == Lower(x)
    {
      var i :| 0 <= i < |m| && LowerKey()(m[i]) == LowerKey()(x);
      assert m[i] in m;
    }
  }

  /** Original suggestions without case-insensitive repeats come first, unchanged. */
  lemma MergedKeepsOriginalFirst(original: seq<string>, added: seq<string>)
    requires forall i, j :: 0 <= i < j < |original| ==> Lower(original[i]) != Lower(original[j])
    ensures |Merged(original, added)| >= |original| && Merged(original, added)[..|original|] == original
  {
    if added != [] {
      DedupKeepsDistinctPrefix(original, added, {}, LowerKey());
    }
  }

  // ------------------------------------------------------------ prompt comparison

  /** What one metric contributes per assessment: missing (read as an empty dict), not a dict, or a dict. */
  datatype MetricEntry = Absent | NotDict | Dict(score: Option<real>)

  datatype Assessment = Assessment(overall: Option<real>, metrics: map<string, MetricEntry>)

  predicate LowerIsBetter(metric: string)
  {
    metric == "bias" || metric == "toxicity"
  }

  /** The score one assessment gives a metric, None when it is skipped. */
  function MetricScore(a: Assessment, metric: string): Option<real>
  {
    if metric == "overall_score" then Some(a.overall.GetOr(0.5))
    else
      var entry := if metric in a.metrics then a.metrics[metric] else Absent;
      match entry
      case NotDict => None
      case Absent => Some(if LowerIsBetter(metric) then 1.0 - 0.5 else 0.5)
      case Dict(score) =>
        var raw := score.GetOr(0.5);
        Some(if LowerIsBetter(metric) then 1.0 - raw else raw)
  }

  function MetricScores(assessments: seq<Assessment>, metric: string): seq<real>
  {
    if assessments == [] then []
    else
      match MetricScore(assessments[0], metric)
      case None => MetricScores(assessments[1..], metric)
      case Some(x) => [x] + MetricScores(assessments[1..], metric)
  }

  datatype Comparison = Comparison(scores: seq<real>, best: nat, worst: nat, average: real, range: real)

  /** The comparison entry for one metric; absent when no assessment scored it. */
  function Compare(scores: seq<real>): (r: Option<Comparison>)
    ensures r.Some? <==> scores != []
    ensures r.Some? ==> r.value.best < |scores| && r.value.worst < |scores|
                        && (forall j :: 0 <= j < |scores| ==> scores[r.value.worst] <= scores[j] <= scores[r.value.best])
                        && (forall j :: 0 <= j < r.value.best ==> scores[j] < scores[r.value.best])
                        && (forall j :: 0 <= j < r.value.worst ==> scores[r.value.worst] < scores[j])
                        && r.value.range >= 0.0
  {
    if scores == [] then None
    else
      var best := FirstMaxIndex(scores);
      var worst := FirstMinIndex(scores);
      Some(Comparison(scores, best, worst, Sum(scores) / (|scores| as real), scores[best] - scores[worst]))
  }

  function Inverted(raw: seq<real>): (r: seq<real>)
    ensures |r| == |raw| && forall j :: 0 <= j < |raw| ==> r[j] == 1.0 - raw[j]
  {
    if raw == [] then [] else [1.0 - raw[0]] + Inverted(raw[1..])
  }

  /**
   * For bias and toxicity the scores are inverted, so the best prompt is the
   * first with the lowest raw score and the worst the first with the highest.
   */
  lemma InvertedBestIsLowestRaw(raw: seq<real>)
    requires raw != []
    ensures FirstMaxIndex(Inverted(raw)) == FirstMinIndex(raw)
    ensures FirstMinIndex(Inverted(raw)) == FirstMaxIndex(raw)
  {
    var inv := Inverted(raw);
    var a, b := FirstMaxIndex(inv), FirstMinIndex(raw);
    var c, d := FirstMinIndex(inv), FirstMaxIndex(raw);
  }

  // ------------------------------------------------------------ batch evaluation

  datatype TestCase = TestCase(prompt: string, response: string)

  /** One entry of `results`: the overall score on success. */
  datatype CaseResult = Succeeded(index: nat, score: real) | Failed(index: nat, reason: string)

  predicate SortedReals(s: seq<real>)
  {
    forall i, j :: 0 <= i < j < |s| ==> s[i] <= s[j]
  }

  function InsertReal(x: real, s: seq<real>): (r: seq<real>)
    requires SortedReals(s)
    ensures SortedReals(r) && multiset(r) == multiset(s) + multiset{x}
    ensures |r| == |s| + 1 && (r[0] == x || (s != [] && r[0] == s[0]))
  {
    if s == [] || x <= s[0] then [x] + s
    else
      assert s == [s[0]] + s[1..];
      var rest := InsertReal(x, s[1..]);
      assert s[0] <= rest[0];
      [s[0]] + rest
  }

  /** Python `sorted` on scores. */
  function SortReals(s: seq<real>): (r: seq<real>)
    ensures SortedReals(r) && multiset(r) == multiset(s)
  {
    if s == [] then []
    else
      assert s == [s[0]] + s[1..];
      InsertReal(s[0], SortReals(s[1..]))
  }

  datatype Distribution = Distribution(min: real, max: real, median: real)

  datatype BatchMetrics = BatchMetrics(totalCases: nat, successful: nat, failed: nat,
                                       average: Option<real>, distribution: Option<Distribution>)

  function SuccessScores(results: seq<CaseResult>): seq<real>
  {
    if results == [] then []
    else (if results[0].Succeeded? then [results[0].score] else []) + SuccessScores(results[1..])
  }

  /** The statistics over the successful scores; the median is `sorted(scores)[len // 2]`. */
  function Statistics(scores: seq<real>): (d: Option<Distribution>)
    ensures d.Some? <==> scores != []
    ensures d.Some? ==> d.value.min in scores && d.value.max in scores && d.value.median in scores
    ensures d.Some? ==> d.value.min <= d.value.median <= d.value.max
    ensures d.Some? ==> forall x | x in scores :: d.value.min <= x <= d.value.max
    ensures d.Some? ==> |SortReals(scores)| == |scores| && d.value.median == SortReals(scores)[|scores| / 2]
  {
    if scores == [] then None
    else
      var sorted := SortReals(scores);
      var m := sorted[|sorted| / 2];
      assert m in multiset(sorted);
      var lo := scores[FirstMinIndex(scores)];
      var hi := scores[FirstMaxIndex(scores)];
      assert m in scores;
      Some(Distribution(lo, hi, m))
  }

  /**
   * The batch evaluation loop: a case without a prompt fails; otherwise the
   * evaluation oracle either raises (None) or gives the overall score.
   * Nothing is evaluated when there are no cases (HTTP 400).
   */
  method BatchEvaluate(cases: seq<TestCase>, evaluate: nat -> Option<real>)
    returns (r: Option<(seq<CaseResult>, BatchMetrics)>)
    ensures r.None? <==> cases == []
    ensures r.Some? ==> |r.value.0| == |cases| && r.value.1.totalCases == |cases|
    ensures r.Some? ==> r.value.1.successful + r.value.1.failed == r.value.1.totalCases
    ensures r.Some? ==> r.value.1.successful == |SuccessScores(r.value.0)|
    ensures r.Some? ==> forall i :: 0 <= i < |cases| ==>
              r.value.0[i].index == i
              && (r.value.0[i].Succeeded? <==> cases[i].prompt != [] && evaluate(i).Some?)
              && (r.value.0[i].Succeeded? ==> r.value.0[i].score == evaluate(i).value)
    ensures r.Some? ==> r.value.1.distribution == Statistics(SuccessScores(r.value.0))
    ensures r.Some? ==>
              r.value.1.average == (if SuccessScores(r.value.0) == [] then None else Some(Mean(SuccessScores(r.value.0))))
    ensures r.Some? ==> (r.value.1.average.Some? <==> r.value.1.successful > 0)
    ensures r.Some? && r.value.1.average.Some? ==>
              r.value.1.distribution.Some?
              && r.value.1.distribution.value.min <= r.value.1.average.value <= r.value.1.distribution.value.max
  {
    if cases == [] {
      return None;
    }
    var results: seq<CaseResult> := [];
    var successful, failed := 0, 0;
    var i := 0;
    while i < |cases|
      invariant 0 <= i <= |cases| && |results| == i
      invariant successful + failed == i && successful == |SuccessScores(results)|
      invariant forall k :: 0 <= k < i ==>
                  results[k].index == k
                  && (results[k].Succeeded? <==> cases[k].prompt != [] && evaluate(k).Some?)
                  && (results[k].Succeeded? ==> results[k].score == evaluate(k).value)
    {
      var entry: CaseResult;
      if cases[i].prompt == [] {
        entry := Failed(i, "Missing prompt");
        failed := failed + 1;
      } else {
        match evaluate(i)
        case None =>
          entry := Failed(i, "evaluation raised");
          failed := failed + 1;
        case Some(score) =>
          entry := Succeeded(i, score);
          successful := successful + 1;
      }
      SuccessScoresAppend(results, entry);
      results := results + [entry];
      i := i + 1;
    }
    var scores := SuccessScores(results);
    var average := if scores == [] then None else Some(Mean(scores));
    if scores != [] {
      var d := Statistics(scores).value;
      MeanBounds(scores, d.min, d.max);
    }
    r := Some((results, BatchMetrics(|cases|, successful, failed, average, Statistics(scores))));
  }

  lemma {:induction false} SuccessScoresAppend(results: seq<CaseResult>, entry: CaseResult)
    ensures SuccessScores(results + [entry]) == SuccessScores(results) + (if entry.Succeeded? then [entry.score] else [])
  {
    var tail := if entry.Succeeded? then [entry.score] else [];
    if results == [] {
      assert [] + [entry] == [entry];
      assert SuccessScores([entry]) == tail + SuccessScores([]);
    } else {
      var all := results + [entry];
      var head := if results[0].Succeeded? then [results[0].score] else [];
      assert all[0] == results[0] && all[1..] == results[1..] + [entry];
      SuccessScoresAppend(results[1..], entry);
      assert SuccessScores(all) == head + (SuccessScores(results[1..]) + tail);
      assert head + (SuccessScores(results[1..]) + tail) == (head + SuccessScores(results[1..])) + tail;
    }
  }
}
