/**
 * The in-memory tables both `DSPyPromptTemplateManager` classes
 * (backend/prompt_templates.py and prompt_templates.py) keep and update the
 * same way: the optimised versions of each template keyed by context (or
 * "general") with their use counts, and the per-template usage records with
 * their running success rate and capped score histories.
 */
module TemplateTables {
  import opened Wrappers
  import opened TemplateAnalytics
  import ApiCache

  // ------------------------------------------------------------ optimised versions

  /** An optimised version; the stored context, metrics and notes are not read by anything modelled. */
  datatype Optimization = Optimization(template: string, createdAt: real, usageCount: nat, lastUsed: Option<real>)

  /** Template name to context key to version. */
  type Store = map<string, map<string, Optimization>>

  /** The version a lookup uses: the exact context key, else "general". */
  function VersionKey(store: Store, name: string, key: string): (r: Option<string>)
    ensures r.Some? ==> name in store && r.value in store[name]
    ensures r.Some? ==> r.value == key || (r.value == "general" && key !in store[name])
    ensures r.None? <==> name !in store || (key !in store[name] && "general" !in store[name])
  {
    if name !in store then None
    else if key in store[name] then Some(key)
    else if "general" in store[name] then Some("general")
    else None
  }

  /** The text a lookup returns when Python treats it as true (a non-empty string). */
  function UsableText(store: Store, name: string, key: string): (r: Option<string>)
    ensures r.Some? ==>
      r.value != "" && VersionKey(store, name, key).Some? && r.value == store[name][VersionKey(store, name, key).value].template
    ensures r.None? ==> VersionKey(store, name, key).None? || store[name][VersionKey(store, name, key).value].template == ""
  {
    var k := VersionKey(store, name, key);
    if k.Some? && store[name][k.value].template != "" then Some(store[name][k.value].template) else None
  }

  /** One more use of the looked-up version, if there was one; nothing else changes. */
  function Bumped(store: Store, name: string, key: Option<string>, now: real): (r: Store)
    requires key.Some? ==> name in store && key.value in store[name]
    ensures r.Keys == store.Keys
    ensures forall n | n in store :: r[n].Keys == store[n].Keys
    ensures key.None? ==> r == store
    ensures key.Some? ==>
      r[name][key.value] == store[name][key.value].(usageCount := store[name][key.value].usageCount + 1, lastUsed := Some(now))
    ensures key.Some? ==> forall n, k | n in store && k in store[n] && (n, k) != (name, key.value) :: r[n][k] == store[n][k]
  {
    if key.None? then store
    else
      var o := store[name][key.value];
      store[name := store[name][key.value := o.(usageCount := o.usageCount + 1, lastUsed := Some(now))]]
  }

  /** The DeepEval store after the lookup: the version found (if any) counts one more use. */
  function DeepevalAfterLookup(deepeval: Store, name: string, key: string, now: real): (r: Store)
    ensures r.Keys == deepeval.Keys && forall n | n in deepeval :: r[n].Keys == deepeval[n].Keys
    ensures VersionKey(deepeval, name, key).None? ==> r == deepeval
    ensures var k := VersionKey(deepeval, name, key);
      k.Some? ==> && r[name][k.value].usageCount == deepeval[name][k.value].usageCount + 1
                  && r[name][k.value].lastUsed == Some(now)
                  && forall n, v | n in deepeval && v in deepeval[n] && (n, v) != (name, k.value) :: r[n][v] == deepeval[n][v]
  {
    Bumped(deepeval, name, VersionKey(deepeval, name, key), now)
  }

  /** The DSPy store after the lookups: it is consulted only when the DeepEval lookup gave nothing usable. */
  function DspyAfterLookup(deepeval: Store, dspy: Store, name: string, key: string, now: real): (r: Store)
    ensures UsableText(deepeval, name, key).Some? ==> r == dspy
  {
    if UsableText(deepeval, name, key).Some? then dspy else Bumped(dspy, name, VersionKey(dspy, name, key), now)
  }

  /** Where a render's template text came from. */
  datatype Source = DeepevalVersion(key: string) | DspyVersion(key: string) | BaseTemplate

  datatype Chosen = Chosen(source: Source, text: string)

  /** The entry `save_*_optimized_template` writes: a new, unused version; the other versions stay. */
  function Saved(store: Store, name: string, key: string, text: string, now: real): (r: Store)
    ensures name in r && key in r[name] && r[name][key] == Optimization(text, now, 0, None)
    ensures r.Keys == store.Keys + {name}
    ensures forall n, k | n in store && k in store[n] && (n, k) != (name, key) :: n in r && k in r[n] && r[n][k] == store[n][k]
  {
    var versions := if name in store then store[name] else map[];
    store[name := versions[key := Optimization(text, now, 0, None)]]
  }

  // ------------------------------------------------------------ usage records

  /** `template_usage[name]`; the score timestamps and contexts are not kept. */
  datatype Usage = Usage(usageCount: nat, lastUsed: Option<real>, successRate: real, scores: map<string, seq<real>>)

  /** The record a template gets when it is loaded, saved or first rendered. */
  function Unused(): (u: Usage)
    ensures u.usageCount == 0 && u.successRate == 1.0 && u.lastUsed.None?
  {
    Usage(0, None, 1.0, EmptyScores())
  }

  /**
   * A record is consistent with `successes` successful renders: the rate is
   * still the initial 1.0 before the first render and the fraction of renders
   * that succeeded afterwards, and every score history is at most 100 long.
   */
  predicate UsageValid(u: Usage, successes: nat)
  {
    && successes <= u.usageCount
    && (u.usageCount == 0 ==> u.successRate == 1.0)
    && (u.usageCount >= 1 ==> u.successRate == Fraction(successes, u.usageCount))
    && forall m | m in u.scores :: |u.scores[m]| <= ScoreHistoryLimit
  }

  /** A record just counted: one more use than the successes and rate account for. */
  predicate PendingUse(u: Usage, successes: nat)
  {
    && u.usageCount >= 1
    && successes <= u.usageCount - 1
    && (u.usageCount >= 2 ==> u.successRate == Fraction(successes, u.usageCount - 1))
    && forall m | m in u.scores :: |u.scores[m]| <= ScoreHistoryLimit
  }

  /** Recording a score keeps a usage record valid. */
  lemma ScoreKeepsUsageValid(u: Usage, successes: nat, metric: string, score: real)
    requires UsageValid(u, successes) && metric in u.scores
    ensures UsageValid(u.(scores := u.scores[metric := AppendCapped(u.scores[metric], score)]), successes)
  {
    var s := u.scores[metric := AppendCapped(u.scores[metric], score)];
    assert s.Keys == u.scores.Keys;
  }

  /** `order` lists the keys of `m` once each: a dictionary's insertion order. */
  ghost predicate OrderValid<V>(m: map<string, V>, order: seq<string>)
  {
    && (forall t :: t in m <==> t in order)
    && ApiCache.NoDup(order)
  }

  /**
   * The usage table's invariant, for `successes[t]` successful renders of
   * each template `t`: the order is valid and every record is valid.
   */
  ghost predicate TableValid(usage: map<string, Usage>, order: seq<string>, successes: map<string, nat>)
  {
    && OrderValid(usage, order)
    && successes.Keys == usage.Keys
    && forall t | t in usage :: UsageValid(usage[t], successes[t])
  }

  /** The same, except that `name` has just been counted and its outcome is not yet recorded. */
  ghost predicate TablePending(usage: map<string, Usage>, order: seq<string>, successes: map<string, nat>, name: string)
  {
    && OrderValid(usage, order)
    && successes.Keys == usage.Keys
    && name in usage
    && PendingUse(usage[name], successes[name])
    && forall t | t in usage && t != name :: UsageValid(usage[t], successes[t])
  }

  /** Giving `name` a record (new or replaced) and appending it to the order when new keeps the order valid. */
  lemma AddingKeepsOrder<V>(m: map<string, V>, order: seq<string>, name: string, v: V)
    requires OrderValid(m, order)
    ensures OrderValid(m[name := v], if name in m then order else order + [name])
  {
    if name !in m {
      ApiCache.NoDupAppend(order, name);
    }
  }

  /** Templates just loaded, each with a fresh record, form a valid table with no successes. */
  lemma LoadedTableValid(names: set<string>, order: seq<string>)
    requires (forall t :: t in names <==> t in order) && ApiCache.NoDup(order)
    ensures TableValid(map t | t in names :: Unused(), order, map t | t in names :: 0)
  {
  }

  /** Recording a score for a tracked template and known metric keeps the table valid. */
  lemma ScoreKeepsTableValid(usage: map<string, Usage>, order: seq<string>, successes: map<string, nat>, name: string,
                             metric: string, score: real)
    requires TableValid(usage, order, successes) && name in usage && metric in usage[name].scores
    ensures var u := usage[name];
      TableValid(usage[name := u.(scores := u.scores[metric := AppendCapped(u.scores[metric], score)])], order, successes)
  {
    ScoreKeepsUsageValid(usage[name], successes[name], metric, score);
  }

  /** The table with a fresh record for `name` unless it already has one. */
  function Initialized(usage: map<string, Usage>, name: string): (r: map<string, Usage>)
    ensures name in r && r == usage[name := r[name]]
    ensures name in usage ==> r == usage
    ensures name !in usage ==> r[name] == Unused()
  {
    if name in usage then usage else usage[name := Unused()]
  }

  /** The tracking order with `name` appended when it is new. */
  function TrackedOrder(usage: map<string, Usage>, order: seq<string>, name: string): seq<string>
  {
    if name in usage then order else order + [name]
  }

  lemma InitializingKeepsValid(usage: map<string, Usage>, order: seq<string>, successes: map<string, nat>, name: string)
    requires TableValid(usage, order, successes)
    ensures TableValid(Initialized(usage, name), TrackedOrder(usage, order, name),
                       if name in usage then successes else successes[name := 0])
  {
    if name !in usage {
      ApiCache.NoDupAppend(order, name);
    }
  }

  /** `_track_template_usage`: one more use, creating the record on first use. */
  function Tracked(usage: map<string, Usage>, name: string, now: real): (r: map<string, Usage>)
    ensures name in r && r == usage[name := r[name]]
    ensures name in usage ==> r[name] == usage[name].(usageCount := usage[name].usageCount + 1, lastUsed := Some(now))
    ensures name !in usage ==> r[name] == Unused().(usageCount := 1, lastUsed := Some(now))
  {
    var u := Initialized(usage, name)[name];
    usage[name := u.(usageCount := u.usageCount + 1, lastUsed := Some(now))]
  }

  lemma TrackingLeavesPending(usage: map<string, Usage>, order: seq<string>, successes: map<string, nat>, name: string, now: real)
    requires TableValid(usage, order, successes)
    ensures TablePending(Tracked(usage, name, now), TrackedOrder(usage, order, name),
                         if name in usage then successes else successes[name := 0], name)
  {
    if name !in usage {
      ApiCache.NoDupAppend(order, name);
    } else {
      assert UsageValid(usage[name], successes[name]);
    }
  }

  /** `_record_template_success` / `_record_template_failure`: the running rate takes one more outcome. */
  function Recorded(usage: map<string, Usage>, name: string, succeeded: bool): (r: map<string, Usage>)
    requires name in usage && usage[name].usageCount >= 1
    ensures r.Keys == usage.Keys
  {
    var u := usage[name];
    usage[name := u.(successRate := UpdatedRate(u.successRate, u.usageCount, succeeded))]
  }

  lemma RecordingRestoresValid(usage: map<string, Usage>, order: seq<string>, successes: map<string, nat>, name: string,
                               succeeded: bool)
    requires TablePending(usage, order, successes, name)
    ensures TableValid(Recorded(usage, name, succeeded), order, Counted(successes, name, succeeded))
  {
    var u := usage[name];
    RateIsFraction(u.successRate, u.usageCount, successes[name], succeeded);
  }

  /** The success counts after one more render of `name`. */
  ghost function Counted(successes: map<string, nat>, name: string, succeeded: bool): map<string, nat>
  {
    var s := if name in successes then successes else successes[name := 0];
    s[name := s[name] + (if succeeded then 1 else 0)]
  }

  /** Counting the first render of `name` from an explicit zero is counting it from nothing. */
  lemma CountedFirstUse(successes: map<string, nat>, name: string, succeeded: bool)
    requires name !in successes
    ensures Counted(successes[name := 0], name, succeeded) == Counted(successes, name, succeeded)
  {
  }

  /** A whole render (counted, then its outcome recorded) keeps the table valid. */
  lemma RenderKeepsValid(usage: map<string, Usage>, order: seq<string>, successes: map<string, nat>, name: string,
                         now: real, succeeded: bool)
    requires TableValid(usage, order, successes)
    ensures TableValid(Recorded(Tracked(usage, name, now), name, succeeded), TrackedOrder(usage, order, name),
                       Counted(successes, name, succeeded))
  {
    var tracked := Tracked(usage, name, now);
    var s := if name in usage then successes else successes[name := 0];
    assert TablePending(tracked, TrackedOrder(usage, order, name), s, name) by {
      TrackingLeavesPending(usage, order, successes, name, now);
    }
    RecordingRestoresValid(tracked, TrackedOrder(usage, order, name), s, name, succeeded);
    if name !in usage {
      assert name !in successes by {
        assert successes.Keys == usage.Keys;
      }
      CountedFirstUse(successes, name, succeeded);
    }
  }

  /** A render, counted and then recorded, adds exactly one use to its template and touches no other record. */
  lemma RenderCountsOnce(usage: map<string, Usage>, name: string, now: real, succeeded: bool)
    ensures var r := Recorded(Tracked(usage, name, now), name, succeeded);
      && name in r && r[name].usageCount == (if name in usage then usage[name].usageCount else 0) + 1
      && forall t | t in usage && t != name :: t in r && r[t] == usage[t]
  {
  }

  // ------------------------------------------------------------ candidate facts

  /** What the candidate scan reads about a tracked template, under the manager's own trend rule. */
  function FactsOf(usage: map<string, Usage>, deepeval: Store, dspy: Store, trend: seq<real> -> Trend, name: string)
    : (f: TemplateFacts)
    requires name in usage
    ensures f.name == name && f.usageCount == usage[name].usageCount && f.successRate == usage[name].successRate
    ensures f.optimized <==> name in dspy || name in deepeval
  {
    TemplateFacts(name, usage[name].usageCount, usage[name].successRate, name in dspy || name in deepeval,
                  SummaryOf(MetricNames, usage[name].scores, trend))
  }

  function FactsList(usage: map<string, Usage>, deepeval: Store, dspy: Store, trend: seq<real> -> Trend, names: seq<string>)
    : (r: seq<TemplateFacts>)
    requires forall t | t in names :: t in usage
    ensures |r| == |names|
  {
    seq(|names|, i requires 0 <= i < |names| => FactsOf(usage, deepeval, dspy, trend, names[i]))
  }
}
