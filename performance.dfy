/**
 * The in-memory counters of templates/miscellaneous/performance_utils.py:
 * the hit/miss/error statistics of the Redis cache front, the request
 * metrics of `PerformanceMonitor`, the batch-timeout test of
 * `BatchProcessor`, and `generate_cache_key`.
 *
 * Redis is an oracle: `Get` receives what the server answered. `json.loads`
 * is the parameter `decode` (None where it raises) and md5 the parameter
 * `digest`.
 */
module Performance {
  import opened Wrappers
  import opened Text
  import opened JsonValue
  import opened Sorting
  import ApiCache

  // ------------------------------------------------------------ cache statistics

  /** What `redis.get` did: returned a stored string, returned None, or raised. */
  datatype RedisReply = Stored(raw: string) | Nil | Failed

  /** `get_stats`. */
  datatype CacheReport = CacheReport(hits: nat, misses: nat, errors: nat, totalRequests: nat, hitRate: real)

  /** `part / whole * 100`, or 0 when `whole` is 0. */
  function Percent(part: nat, whole: nat): (rate: real)
    requires part <= whole
    ensures whole == 0 ==> rate == 0.0
    ensures whole > 0 ==> rate * whole as real == 100.0 * part as real
    ensures 0.0 <= rate <= 100.0
    ensures rate == 100.0 <==> whole > 0 && part == whole
  {
    if whole > 0 then part as real / whole as real * 100.0 else 0.0
  }

  /** `total / count`, or 0 when `count` is 0. */
  function Average(total: real, count: nat): (m: real)
    ensures count == 0 ==> m == 0.0
    ensures count > 0 ==> m * count as real == total
  {
    if count > 0 then total / count as real else 0.0
  }

  /** `CacheManager`'s statistics. */
  class CacheStats {
    var hits: nat
    var misses: nat
    var errors: nat

    constructor ()
      ensures hits == 0 && misses == 0 && errors == 0
    {
      hits, misses, errors := 0, 0, 0;
    }

    /**
     * `get`: a stored value is a hit even when it then fails to decode (that
     * also counts an error); None is a miss; a failing server is an error.
     */
    method Get(reply: RedisReply, decode: string -> Option<Json>, default: Json) returns (r: Json)
      modifies this
      ensures reply.Stored? ==> hits == old(hits) + 1 && misses == old(misses)
      ensures reply.Stored? && decode(reply.raw).Some? ==> r == decode(reply.raw).value && errors == old(errors)
      ensures reply.Stored? && decode(reply.raw).None? ==> r == default && errors == old(errors) + 1
      ensures reply.Nil? ==> r == default && hits == old(hits) && misses == old(misses) + 1 && errors == old(errors)
      ensures reply.Failed? ==> r == default && hits == old(hits) && misses == old(misses) && errors == old(errors) + 1
    {
      match reply
      case Failed =>
        errors := errors + 1;
        r := default;
      case Nil =>
        misses := misses + 1;
        r := default;
      case Stored(raw) =>
        hits := hits + 1;
        var v := decode(raw);
        if v.Some? {
          r := v.value;
        } else {
          errors := errors + 1;
          r := default;
        }
    }

    /** `get_stats`: the counters, their total and the hit rate. */
    function Stats(): (r: CacheReport)
      reads this
      ensures r.hits == hits && r.misses == misses && r.errors == errors
      ensures r.totalRequests == hits + misses
      ensures r.totalRequests == 0 ==> r.hitRate == 0.0
      ensures r.totalRequests > 0 ==> r.hitRate * r.totalRequests as real == 100.0 * hits as real
      ensures 0.0 <= r.hitRate <= 100.0
      ensures r.hitRate == 100.0 <==> hits > 0 && misses == 0
    {
      CacheReport(hits, misses, errors, hits + misses, Percent(hits, hits + misses))
    }
  }

  // ------------------------------------------------------------ request metrics

  /** A response slower than this many seconds is slow. */
  const SlowRequestThreshold: real := 5.0

  /** One recorded request. */
  datatype Request = Request(endpoint: string, time: real, success: bool)

  /** What `endpoint_stats[endpoint]` counts; its `avg_time` is derived from these by `Reported`. */
  datatype EndpointTally = EndpointTally(count: nat, totalTime: real, errors: nat)

  /** `endpoint_stats[endpoint]` as `get_metrics` hands it out. */
  datatype EndpointStats = EndpointStats(count: nat, totalTime: real, errors: nat, avgTime: real)

  /** The entry with `avg_time`, which every update sets to `total_time / count`. */
  function Reported(t: EndpointTally): (s: EndpointStats)
    ensures s.count == t.count && s.totalTime == t.totalTime && s.errors == t.errors
    ensures t.count > 0 ==> s.avgTime * t.count as real == t.totalTime
  {
    EndpointStats(t.count, t.totalTime, t.errors, Average(t.totalTime, t.count))
  }

  /** The requests to `e`, in order. */
  function For(log: seq<Request>, e: string): seq<Request>
  {
    if log == [] then []
    else For(log[..|log| - 1], e) + (if log[|log| - 1].endpoint == e then [log[|log| - 1]] else [])
  }

  /** The number of failed requests. */
  function Failures(log: seq<Request>): (n: nat)
    ensures n <= |log|
  {
    if log == [] then 0 else Failures(log[..|log| - 1]) + (if log[|log| - 1].success then 0 else 1)
  }

  /** The number of slow requests. */
  function SlowOnes(log: seq<Request>): (n: nat)
    ensures n <= |log|
  {
    if log == [] then 0 else SlowOnes(log[..|log| - 1]) + (if log[|log| - 1].time > SlowRequestThreshold then 1 else 0)
  }

  /** The summed response time. */
  function TotalTime(log: seq<Request>): real
  {
    if log == [] then 0.0 else TotalTime(log[..|log| - 1]) + log[|log| - 1].time
  }

  /** What `endpoint_stats` holds for `e` after `log`. */
  function StatsOf(log: seq<Request>, e: string): (s: EndpointTally)
    requires For(log, e) != []
    ensures s.count == |For(log, e)| >= 1 && s.errors <= s.count
  {
    StatsOver(For(log, e))
  }

  /** The counters of one endpoint over its own requests. */
  function StatsOver(mine: seq<Request>): EndpointTally
  {
    EndpointTally(|mine|, TotalTime(mine), Failures(mine))
  }

  /** `endpoint_stats` after `log`: the requests recorded one after another. */
  function EndpointsOf(log: seq<Request>): map<string, EndpointTally>
  {
    if log == [] then map[] else EndpointRecorded(EndpointsOf(log[..|log| - 1]), log[|log| - 1])
  }

  /** The per-endpoint part of `record_request`. */
  function EndpointRecorded(stats: map<string, EndpointTally>, q: Request): (r: map<string, EndpointTally>)
    ensures r.Keys == stats.Keys + {q.endpoint}
    ensures forall e | e in stats && e != q.endpoint :: r[e] == stats[e]
  {
    var s := if q.endpoint in stats then stats[q.endpoint] else EndpointTally(0, 0.0, 0);
    stats[q.endpoint := EndpointTally(s.count + 1, s.totalTime + q.time, s.errors + (if q.success then 0 else 1))]
  }

  /** The requests to `e` after one more request `q`. */
  lemma ForSnoc(log: seq<Request>, q: Request, e: string)
    ensures For(log + [q], e) == For(log, e) + (if q.endpoint == e then [q] else [])
  {
    assert (log + [q])[..|log|] == log;
  }

  /**
   * `endpoint_stats` holds exactly the endpoints `log` mentions, each with
   * its counts over its own requests.
   */
  lemma {:induction false} EndpointsFollowLog(log: seq<Request>, e: string)
    ensures e in EndpointsOf(log) <==> For(log, e) != []
    ensures e in EndpointsOf(log) ==> EndpointsOf(log)[e] == StatsOf(log, e)
    decreases |log|
  {
    if log != [] {
      var p, q := log[..|log| - 1], log[|log| - 1];
      assert log == p + [q];
      EndpointsFollowLog(p, e);
      ForSnoc(p, q, e);
      assert EndpointsOf(log) == EndpointRecorded(EndpointsOf(p), q);
      if e == q.endpoint {
        RecordedEntry(EndpointsOf(p), p, q);
      } else {
        assert For(log, e) == For(p, e);
      }
    }
  }

  /** The entry of the recorded request's endpoint counts that request once more. */
  lemma RecordedEntry(stats: map<string, EndpointTally>, log: seq<Request>, q: Request)
    requires q.endpoint in stats <==> For(log, q.endpoint) != []
    requires q.endpoint in stats ==> stats[q.endpoint] == StatsOver(For(log, q.endpoint))
    ensures EndpointRecorded(stats, q)[q.endpoint] == StatsOver(For(log, q.endpoint) + [q])
  {
    var mine := For(log, q.endpoint);
    RecordingMovesTotals(mine, q);
    var before := if q.endpoint in stats then stats[q.endpoint] else EndpointTally(0, 0.0, 0);
    assert before.count == |mine| && before.totalTime == TotalTime(mine) && before.errors == Failures(mine);
  }

  /** Recording a request moves the totals by that request. */
  lemma RecordingMovesTotals(log: seq<Request>, q: Request)
    ensures |log + [q]| == |log| + 1 && TotalTime(log + [q]) == TotalTime(log) + q.time
    ensures Failures(log + [q]) == Failures(log) + (if q.success then 0 else 1)
    ensures SlowOnes(log + [q]) == SlowOnes(log) + (if q.time > SlowRequestThreshold then 1 else 0)
  {
    assert (log + [q])[..|log|] == log && (log + [q])[|log|] == q;
  }

  /** Each counter is the count or sum over `log` that its name promises. */
  ghost predicate CountersMatch(requests: nat, total: real, errors: nat, slow: nat, stats: map<string, EndpointTally>,
                                log: seq<Request>)
  {
    && requests == |log|
    && total == TotalTime(log)
    && errors == Failures(log)
    && slow == SlowOnes(log)
    && stats == EndpointsOf(log)
  }

  /** `record_request` keeps every counter equal to its count or sum over the log. */
  lemma RecordingKeepsCounters(requests: nat, total: real, errors: nat, slow: nat, stats: map<string, EndpointTally>,
                               log: seq<Request>, q: Request)
    requires CountersMatch(requests, total, errors, slow, stats, log)
    ensures CountersMatch(requests + 1, total + q.time, errors + (if q.success then 0 else 1),
                          slow + (if q.time > SlowRequestThreshold then 1 else 0), EndpointRecorded(stats, q), log + [q])
  {
    RecordingMovesTotals(log, q);
    assert (log + [q])[..|log|] == log;
  }

  /** `endpoint_stats` as `get_metrics` returns it: every entry with its average. */
  function ReportedAll(stats: map<string, EndpointTally>): (r: map<string, EndpointStats>)
    ensures r.Keys == stats.Keys
    ensures forall e | e in r :: r[e].count == stats[e].count && r[e].errors == stats[e].errors
                                 && r[e].totalTime == stats[e].totalTime
    ensures forall e | e in r && stats[e].count > 0 :: r[e].avgTime * stats[e].count as real == stats[e].totalTime
  {
    map e | e in stats :: Reported(stats[e])
  }

  /**
   * The reported endpoints are those the log mentions, each with its
   * request count, failures and summed time over its own requests.
   */
  lemma ReportsFollowLog(log: seq<Request>, e: string)
    ensures e in ReportedAll(EndpointsOf(log)) <==> For(log, e) != []
    ensures e in ReportedAll(EndpointsOf(log)) ==>
      var s := ReportedAll(EndpointsOf(log))[e];
      && s.count == |For(log, e)| && s.errors == Failures(For(log, e)) && s.totalTime == TotalTime(For(log, e))
  {
    EndpointsFollowLog(log, e);
  }

  /** `get_metrics`. */
  datatype MetricsReport = MetricsReport(totalRequests: nat, avgResponseTime: real, errorRate: real, slowRequests: nat,
                                         endpoints: map<string, EndpointStats>)

  /**
   * `PerformanceMonitor`. The ghost `log` is every request recorded since
   * the last reset; the invariant says that each counter is the count or
   * sum over it that its name promises.
   */
  class PerformanceMonitor {
    var requestCount: nat
    var totalResponseTime: real
    var errorCount: nat
    var slowRequests: nat
    var endpointStats: map<string, EndpointTally>
    ghost var log: seq<Request>

    ghost predicate Valid()
      reads this
    {
      CountersMatch(requestCount, totalResponseTime, errorCount, slowRequests, endpointStats, log)
    }

    constructor ()
      ensures Valid() && log == []
    {
      requestCount, totalResponseTime, errorCount, slowRequests := 0, 0.0, 0, 0;
      endpointStats := map[];
      log := [];
    }

    /** `record_request`: every counter moves by this request, and so do its endpoint's. */
    method RecordRequest(endpoint: string, time: real, success: bool)
      requires Valid()
      modifies this
      ensures Valid() && log == old(log) + [Request(endpoint, time, success)]
      ensures requestCount == old(requestCount) + 1 && totalResponseTime == old(totalResponseTime) + time
      ensures errorCount == old(errorCount) + (if success then 0 else 1)
      ensures slowRequests == old(slowRequests) + (if time > SlowRequestThreshold then 1 else 0)
      ensures endpointStats.Keys == old(endpointStats).Keys + {endpoint}
      ensures forall e | e in old(endpointStats) && e != endpoint :: endpointStats[e] == old(endpointStats)[e]
    {
      var q := Request(endpoint, time, success);
      RecordingKeepsCounters(requestCount, totalResponseTime, errorCount, slowRequests, endpointStats, log, q);
      var errors, slow := errorCount, slowRequests;
      if !success {
        errors := errors + 1;
      }
      if time > SlowRequestThreshold {
        slow := slow + 1;
      }
      requestCount, totalResponseTime, errorCount, slowRequests := requestCount + 1, totalResponseTime + time, errors, slow;
      endpointStats, log := EndpointRecorded(endpointStats, q), log + [q];
    }

    /** `get_metrics`: the average response time and the error rate in percent, both 0 before any request. */
    function Metrics(): (r: MetricsReport)
      reads this
      requires Valid()
      ensures r.totalRequests == |log| && r.slowRequests == SlowOnes(log)
      ensures r.endpoints == ReportedAll(endpointStats)
      ensures r.avgResponseTime == Average(TotalTime(log), |log|)
      ensures r.errorRate == Percent(Failures(log), |log|)
      ensures 0.0 <= r.errorRate <= 100.0
    {
      MetricsReport(requestCount, Average(totalResponseTime, requestCount), Percent(errorCount, requestCount),
                    slowRequests, ReportedAll(endpointStats))
    }

    /** `reset_metrics`: back to the state of a new monitor. */
    method ResetMetrics()
      modifies this
      ensures Valid() && log == []
      ensures requestCount == 0 && totalResponseTime == 0.0 && errorCount == 0 && slowRequests == 0
      ensures endpointStats == map[]
    {
      requestCount, totalResponseTime, errorCount, slowRequests := 0, 0.0, 0, 0;
      endpointStats := map[];
      log := [];
    }
  }

  // ------------------------------------------------------------ batching

  /** `min(timestamps)`. */
  function Oldest(timestamps: seq<real>): (m: real)
    requires timestamps != []
    ensures m in timestamps
    ensures forall i :: 0 <= i < |timestamps| ==> m <= timestamps[i]
  {
    if |timestamps| == 1 then timestamps[0]
    else
      var m := Oldest(timestamps[..|timestamps| - 1]);
      assert forall i :: 0 <= i < |timestamps| - 1 ==> timestamps[..|timestamps| - 1][i] == timestamps[i];
      if timestamps[|timestamps| - 1] < m then timestamps[|timestamps| - 1] else m
  }

  /**
   * `_should_process_batch`: a batch is due exactly when some pending
   * request has waited at least `timeout`; never when nothing is pending.
   */
  function ShouldProcessBatch(pending: seq<real>, now: real, timeout: real): (due: bool)
    ensures pending == [] ==> !due
    ensures due <==> exists i :: 0 <= i < |pending| && now - pending[i] >= timeout
  {
    if pending == [] then false else now - Oldest(pending) >= timeout
  }

  // ------------------------------------------------------------ cache keys

  /** A positional argument, by its `str`: strings and numbers appear as they are, anything else by its digest. */
  datatype Arg = Plain(text: string) | Composite(text: string)

  function ArgPart(a: Arg, digest: string -> string): string
  {
    if a.Plain? then a.text else digest(a.text)
  }

  /** Keyword arguments as (name, `str(value)`) pairs in call order. */
  type Kwargs = seq<(string, string)>

  function Names(kwargs: Kwargs): (r: seq<string>)
    ensures |r| == |kwargs| && forall i :: 0 <= i < |kwargs| ==> r[i] == kwargs[i].0
  {
    seq(|kwargs|, i requires 0 <= i < |kwargs| => kwargs[i].0)
  }

  /** The value passed for `name` (its first occurrence). */
  function ValueOf(kwargs: Kwargs, name: string): string
  {
    if kwargs == [] then "" else if kwargs[0].0 == name then kwargs[0].1 else ValueOf(kwargs[1..], name)
  }

  /** `f"{k}:{v}" for k, v in sorted(kwargs.items())`. */
  function KwargParts(kwargs: Kwargs): (r: seq<string>)
    ensures |r| == |kwargs|
  {
    var names := SortStrings(Names(kwargs));
    seq(|names|, i requires 0 <= i < |names| => names[i] + ":" + ValueOf(kwargs, names[i]))
  }

  /** `generate_cache_key`: the positional parts in order, then the keyword parts sorted by name, joined by ':'. */
  function CacheKey(args: seq<Arg>, kwargs: Kwargs, digest: string -> string): string
  {
    Join(seq(|args|, i requires 0 <= i < |args| => ArgPart(args[i], digest)) + KwargParts(kwargs), ":")
  }

  lemma {:induction false} ValueOfFinds(kwargs: Kwargs, name: string, v: string)
    requires ApiCache.NoDup(Names(kwargs)) && (name, v) in kwargs
    ensures ValueOf(kwargs, name) == v
  {
    if kwargs[0] != (name, v) {
      var k :| 0 <= k < |kwargs| && kwargs[k] == (name, v);
      assert Names(kwargs)[0] != Names(kwargs)[k];
      assert kwargs[1..][k - 1] == (name, v);
      assert Names(kwargs[1..]) == Names(kwargs)[1..];
      ValueOfFinds(kwargs[1..], name, v);
    }
  }

  /** Two duplicate-free sequences with the same elements are permutations of each other. */
  lemma SameElementsPermutation(a: seq<string>, b: seq<string>)
    requires ApiCache.NoDup(a) && ApiCache.NoDup(b)
    requires forall x :: x in a <==> x in b
    ensures multiset(a) == multiset(b)
  {
    forall x ensures multiset(a)[x] == multiset(b)[x] {
      NoDupCount(a, x);
      NoDupCount(b, x);
      assert (x in a <==> x in multiset(a)) && (x in b <==> x in multiset(b));
    }
  }

  /** The same keyword arguments have the same names. */
  lemma SameNames(kw1: Kwargs, kw2: Kwargs)
    requires forall p :: p in kw1 <==> p in kw2
    ensures forall x :: x in Names(kw1) <==> x in Names(kw2)
  {
    forall x ensures x in Names(kw1) <==> x in Names(kw2) {
      if x in Names(kw1) {
        var i :| 0 <= i < |kw1| && Names(kw1)[i] == x;
        assert kw1[i] in kw2;
        var j :| 0 <= j < |kw2| && kw2[j] == kw1[i];
        assert Names(kw2)[j] == x;
      }
      if x in Names(kw2) {
        var i :| 0 <= i < |kw2| && Names(kw2)[i] == x;
        assert kw2[i] in kw1;
        var j :| 0 <= j < |kw1| && kw1[j] == kw2[i];
        assert Names(kw1)[j] == x;
      }
    }
  }

  /**
   * The key does not depend on the order the keyword arguments were
   * passed in: any two calls with the same keyword arguments give the same
   * key.
   */
  lemma CacheKeyOrderFree(args: seq<Arg>, kw1: Kwargs, kw2: Kwargs, digest: string -> string)
    requires ApiCache.NoDup(Names(kw1)) && ApiCache.NoDup(Names(kw2))
    requires forall p :: p in kw1 <==> p in kw2
    ensures CacheKey(args, kw1, digest) == CacheKey(args, kw2, digest)
  {
    SameNames(kw1, kw2);
    SameElementsPermutation(Names(kw1), Names(kw2));
    SortStringsOrderFree(Names(kw1), Names(kw2));
    var names := SortStrings(Names(kw1));
    forall i | 0 <= i < |names| ensures ValueOf(kw1, names[i]) == ValueOf(kw2, names[i]) {
      assert names[i] in multiset(Names(kw1));
      var k :| 0 <= k < |kw1| && Names(kw1)[k] == names[i];
      ValueOfFinds(kw1, names[i], kw1[k].1);
      assert kw1[k] in kw2;
      ValueOfFinds(kw2, names[i], kw1[k].1);
    }
    assert KwargParts(kw1) == KwargParts(kw2);
  }

  /** Each keyword argument appears in the key as "name:value", in name order. */
  lemma KwargPartsSorted(kwargs: Kwargs)
    requires ApiCache.NoDup(Names(kwargs))
    ensures forall i :: 0 <= i < |kwargs| ==>
      exists p :: p in kwargs && KwargParts(kwargs)[i] == p.0 + ":" + p.1
    ensures forall i, j :: 0 <= i < j < |kwargs| ==>
      LexLess(SortStrings(Names(kwargs))[i], SortStrings(Names(kwargs))[j])
  {
    var names := SortStrings(Names(kwargs));
    forall i | 0 <= i < |kwargs| ensures exists p :: p in kwargs && KwargParts(kwargs)[i] == p.0 + ":" + p.1 {
      KwargPartIsPair(kwargs, i);
    }
    forall i, j | 0 <= i < j < |kwargs| ensures LexLess(names[i], names[j]) {
      SortedNamesDistinct(names, Names(kwargs), i, j);
      LexLessTotal(names[i], names[j]);
    }
  }

  /** The i-th keyword part is "name:value" of one of the keyword arguments. */
  lemma KwargPartIsPair(kwargs: Kwargs, i: nat)
    requires ApiCache.NoDup(Names(kwargs)) && i < |kwargs|
    ensures exists p :: p in kwargs && KwargParts(kwargs)[i] == p.0 + ":" + p.1
  {
    var names := SortStrings(Names(kwargs));
    assert names[i] in multiset(Names(kwargs));
    var k :| 0 <= k < |kwargs| && Names(kwargs)[k] == names[i];
    ValueOfFinds(kwargs, names[i], kwargs[k].1);
    assert kwargs[k] in kwargs;
  }

  /** A reordering of a duplicate-free sequence has no duplicates either. */
  lemma SortedNamesDistinct(names: seq<string>, original: seq<string>, i: nat, j: nat)
    requires ApiCache.NoDup(original) && multiset(names) == multiset(original) && i < j < |names|
    ensures names[i] != names[j]
  {
    if names[i] == names[j] {
      assert multiset(names)[names[i]] >= 2 by {
        assert names == names[..i] + [names[i]] + names[i + 1..];
        assert names[j] in names[i + 1..] by { assert names[i + 1..][j - i - 1] == names[j]; }
      }
      NoDupCount(original, names[i]);
      assert false;
    }
  }

  lemma {:induction false} NoDupCount(s: seq<string>, x: string)
    requires ApiCache.NoDup(s)
    ensures multiset(s)[x] <= 1
  {
    if s != [] {
      assert s == [s[0]] + s[1..];
      assert ApiCache.NoDup(s[1..]) by {
        forall p, q | 0 <= p < q < |s| - 1 ensures s[1..][p] != s[1..][q] {
          assert s[1..][p] == s[p + 1] && s[1..][q] == s[q + 1];
        }
      }
      NoDupCount(s[1..], x);
    }
  }
}
