/**
 * `DSPyPromptTemplateManager` of backend/prompt_templates.py: base templates,
 * DeepEval- and DSPy-optimised versions keyed by a context hash (or
 * "general"), per-template usage statistics with a running success rate and
 * capped DeepEval score histories, the trend rule, and the optimisation
 * candidate scan.
 *
 * md5 is the parameter `digest` (the first eight hex digits of the md5 of a
 * string); `str.format` is the parameter `format`, which yields None where
 * Python raises. The clock is the parameter `now`. Reading and writing the
 * JSON files is not modelled: the constructor takes the templates read from
 * disk, and `SaveTemplate` takes whether the write succeeded.
 */
module BackendTemplates {
  import opened Wrappers
  import opened Text
  import opened JsonValue
  import opened Numbers
  import opened Sorting
  import opened TemplateAnalytics
  import opened TemplateTables
  import ApiCache

  /** Keyword arguments in call order. */
  type Kwargs = seq<(string, Json)>

  function Names(kwargs: Kwargs): (r: seq<string>)
    ensures |r| == |kwargs| && forall i :: 0 <= i < |r| ==> r[i] == kwargs[i].0
  {
    seq(|kwargs|, i requires 0 <= i < |kwargs| => kwargs[i].0)
  }

  // ------------------------------------------------------------ context hash

  /** What `_generate_context_hash` hashes: the template name and the sorted argument names. */
  function ContextSignature(name: string, kwargs: Kwargs): string
  {
    name + ":" + Join(SortStrings(Names(kwargs)), ":")
  }

  /** The hash sees the argument names only: not their order and not their values. */
  lemma ContextSignatureOnlyNames(name: string, a: Kwargs, b: Kwargs)
    requires multiset(Names(a)) == multiset(Names(b))
    ensures ContextSignature(name, a) == ContextSignature(name, b)
  {
    SortStringsOrderFree(Names(a), Names(b));
  }

  /** The key an optimisation is saved under: "general" for an absent or empty context. */
  function ContextKey(digest: string -> string, name: string, context: Option<Kwargs>): (k: string)
    ensures context.None? || context.value == [] ==> k == "general"
    ensures context.Some? && context.value != [] ==> k == digest(ContextSignature(name, context.value))
  {
    if context.None? || context.value == [] then "general" else digest(ContextSignature(name, context.value))
  }

  // ------------------------------------------------------------ version selection

  /**
   * `render_template`'s choice: a DeepEval version, then a DSPy version,
   * then the base template's "template" entry.
   */
  function Resolve(deepeval: Store, dspy: Store, templates: map<string, Option<string>>, name: string, hash: string)
    : (r: Option<Chosen>)
    ensures r.Some? && r.value.source.DeepevalVersion? ==>
      VersionKey(deepeval, name, hash) == Some(r.value.source.key) && r.value.text != ""
      && r.value.text == deepeval[name][r.value.source.key].template
    ensures r.Some? && r.value.source.DspyVersion? ==>
      UsableText(deepeval, name, hash).None? && VersionKey(dspy, name, hash) == Some(r.value.source.key)
      && r.value.text != "" && r.value.text == dspy[name][r.value.source.key].template
    ensures r.Some? && r.value.source.BaseTemplate? ==>
      UsableText(deepeval, name, hash).None? && UsableText(dspy, name, hash).None?
      && name in templates && templates[name] == Some(r.value.text)
    ensures r.None? <==>
      UsableText(deepeval, name, hash).None? && UsableText(dspy, name, hash).None?
      && (name !in templates || templates[name].None?)
  {
    if UsableText(deepeval, name, hash).Some? then
      Some(Chosen(DeepevalVersion(VersionKey(deepeval, name, hash).value), UsableText(deepeval, name, hash).value))
    else if UsableText(dspy, name, hash).Some? then
      Some(Chosen(DspyVersion(VersionKey(dspy, name, hash).value), UsableText(dspy, name, hash).value))
    else if name in templates && templates[name].Some? then Some(Chosen(BaseTemplate, templates[name].value))
    else None
  }

  /**
   * A DeepEval version saved for a context is the one served to a render
   * whose arguments have the same names, whatever their values and order.
   */
  lemma SavedVersionIsServed(deepeval: Store, dspy: Store, templates: map<string, Option<string>>, digest: string -> string,
                             name: string, text: string, context: Kwargs, kwargs: Kwargs, now: real)
    requires text != "" && context != [] && multiset(Names(context)) == multiset(Names(kwargs))
    ensures var key := ContextKey(digest, name, Some(context));
      Resolve(Saved(deepeval, name, key, text, now), dspy, templates, name, digest(ContextSignature(name, kwargs)))
        == Some(Chosen(DeepevalVersion(key), text))
  {
    ContextSignatureOnlyNames(name, context, kwargs);
  }

  // ------------------------------------------------------------ trend

  /**
   * `_calculate_trend`: the mean of the last five scores against the mean of
   * the scores before them (or of all but the last two when there are at
   * most five), with a ±5% multiplicative band.
   */
  function TrendOf(scores: seq<real>): (t: Trend)
    ensures t == InsufficientData <==> |scores| < 3
  {
    if |scores| < 3 then InsufficientData
    else
      var recent := Last(scores, 5);
      var older := if |scores| > 5 then scores[..|scores| - 5] else scores[..|scores| - 2];
      var recentAvg := Mean(recent);
      var olderAvg := Mean(older);
      if recentAvg > olderAvg * 1.05 then Improving
      else if recentAvg < olderAvg * 0.95 then Declining
      else Stable
  }

  /** A run of equal non-negative scores is stable. */
  lemma ConstantScoresAreStable(scores: seq<real>, c: real)
    requires |scores| >= 3 && c >= 0.0 && forall i :: 0 <= i < |scores| ==> scores[i] == c
    ensures TrendOf(scores) == Stable
  {
    var recent := Last(scores, 5);
    var older := if |scores| > 5 then scores[..|scores| - 5] else scores[..|scores| - 2];
    MeanConstant(recent, c);
    MeanConstant(older, c);
  }

  // ------------------------------------------------------------ the manager

  /**
   * The manager. Its methods state each new table as a function of the old
   * one (`Initialized`, `Tracked`, `Recorded`, `AppendCapped`); that those
   * functions keep the success rates and score histories consistent is
   * proved once, in TemplateTables (`TableValid`), rather than carried as a
   * class invariant.
   */
  class TemplateManager {
    /** Base templates; None for a template record without a "template" entry. */
    var templates: map<string, Option<string>>
    var deepeval: Store
    var dspy: Store
    var usage: map<string, Usage>
    /** The insertion order of `usage`. */
    var usageOrder: seq<string>

    ghost predicate Valid()
      reads this
    {
      OrderValid(usage, usageOrder)
    }

    /**
     * The manager after loading: the templates read from disk, in `order`,
     * each with a fresh usage record.
     */
    constructor (initial: map<string, Option<string>>, order: seq<string>)
      requires forall t :: t in initial <==> t in order
      requires ApiCache.NoDup(order)
      ensures Valid()
      ensures templates == initial && deepeval == map[] && dspy == map[] && usageOrder == order
      ensures usage == map t | t in initial :: Unused()
    {
      templates := initial;
      deepeval := map[];
      dspy := map[];
      usage := map t | t in initial :: Unused();
      usageOrder := order;
    }

    /**
     * `save_template`: `written` is whether the file could be written; only
     * then is the template stored, with a fresh usage record if it is new.
     */
    method SaveTemplate(name: string, template: Option<string>, written: bool) returns (ok: bool)
      requires Valid()
      modifies this
      ensures Valid()
      ensures ok == written
      ensures !written ==> templates == old(templates) && usage == old(usage) && usageOrder == old(usageOrder)
      ensures written ==>
        templates == old(templates)[name := template] && usage == Initialized(old(usage), name)
        && usageOrder == TrackedOrder(old(usage), old(usageOrder), name)
      ensures deepeval == old(deepeval) && dspy == old(dspy)
    {
      if !written {
        return false;
      }
      AddingKeepsOrder(usage, usageOrder, name, Initialized(usage, name)[name]);
      templates := templates[name := template];
      usageOrder := TrackedOrder(usage, usageOrder, name);
      usage := Initialized(usage, name);
      ok := true;
    }

    /**
     * `render_template`: select a version, count the use, then format. The
     * DSPy lookup (and its use count) happens only when the DeepEval lookup
     * gave nothing usable; a failed format counts as a failure.
     */
    method RenderTemplate(name: string, kwargs: Kwargs, now: real, digest: string -> string,
                          format: (string, Kwargs) -> Option<string>)
      returns (r: Option<string>)
      requires Valid()
      modifies this
      ensures Valid()
      ensures templates == old(templates)
      ensures deepeval == DeepevalAfterLookup(old(deepeval), name, digest(ContextSignature(name, kwargs)), now)
      ensures dspy == DspyAfterLookup(old(deepeval), old(dspy), name, digest(ContextSignature(name, kwargs)), now)
      ensures Resolve(old(deepeval), old(dspy), old(templates), name, digest(ContextSignature(name, kwargs))).None? ==>
        r.None? && usage == old(usage) && usageOrder == old(usageOrder)
      ensures var chosen := Resolve(old(deepeval), old(dspy), old(templates), name, digest(ContextSignature(name, kwargs)));
        chosen.Some? ==>
          && r == format(chosen.value.text, kwargs)
          && usage == Recorded(Tracked(old(usage), name, now), name, r.Some?)
          && usageOrder == TrackedOrder(old(usage), old(usageOrder), name)
    {
      var chosen := LookupVersion(name, digest(ContextSignature(name, kwargs)), now);
      if chosen.None? {
        return None;
      }
      r := format(chosen.value.text, kwargs);
      CountRender(name, now, r.Some?);
    }

    /** `_get_deepeval_optimized_template`, then `_get_dspy_optimized_template`, then `get_template`. */
    method LookupVersion(name: string, hash: string, now: real) returns (chosen: Option<Chosen>)
      modifies this
      ensures chosen == Resolve(old(deepeval), old(dspy), templates, name, hash)
      ensures deepeval == DeepevalAfterLookup(old(deepeval), name, hash, now)
      ensures dspy == DspyAfterLookup(old(deepeval), old(dspy), name, hash, now)
      ensures templates == old(templates) && usage == old(usage) && usageOrder == old(usageOrder)
    {
      chosen := Resolve(deepeval, dspy, templates, name, hash);
      dspy := DspyAfterLookup(deepeval, dspy, name, hash, now);
      deepeval := DeepevalAfterLookup(deepeval, name, hash, now);
    }

    /** `_track_template_usage`, then `_record_template_success` or `_record_template_failure`. */
    method CountRender(name: string, now: real, succeeded: bool)
      requires Valid()
      modifies this
      ensures Valid()
      ensures usage == Recorded(Tracked(old(usage), name, now), name, succeeded)
      ensures usageOrder == TrackedOrder(old(usage), old(usageOrder), name)
      ensures templates == old(templates) && deepeval == old(deepeval) && dspy == old(dspy)
    {
      var next := Recorded(Tracked(usage, name, now), name, succeeded);
      AddingKeepsOrder(usage, usageOrder, name, next[name]);
      usageOrder := TrackedOrder(usage, usageOrder, name);
      usage := next;
    }

    /** `save_deepeval_optimized_template`: the new version starts unused. */
    method SaveDeepevalOptimized(name: string, text: string, context: Option<Kwargs>, now: real, digest: string -> string)
      requires Valid()
      modifies this
      ensures Valid()
      ensures deepeval == Saved(old(deepeval), name, ContextKey(digest, name, context), text, now)
      ensures templates == old(templates) && dspy == old(dspy) && usage == old(usage) && usageOrder == old(usageOrder)
    {
      deepeval := Saved(deepeval, name, ContextKey(digest, name, context), text, now);
    }

    /** `save_dspy_optimized_template`. */
    method SaveDspyOptimized(name: string, text: string, context: Option<Kwargs>, now: real, digest: string -> string)
      requires Valid()
      modifies this
      ensures Valid()
      ensures dspy == Saved(old(dspy), name, ContextKey(digest, name, context), text, now)
      ensures templates == old(templates) && deepeval == old(deepeval) && usage == old(usage) && usageOrder == old(usageOrder)
    {
      dspy := Saved(dspy, name, ContextKey(digest, name, context), text, now);
    }

    /** `record_template_deepeval_score`: unknown templates and metrics are ignored. */
    method RecordDeepevalScore(name: string, metric: string, score: real)
      requires Valid()
      modifies this
      ensures Valid()
      ensures templates == old(templates) && deepeval == old(deepeval) && dspy == old(dspy) && usageOrder == old(usageOrder)
      ensures name !in old(usage) || metric !in old(usage[name]).scores ==> usage == old(usage)
      ensures name in old(usage) && metric in old(usage[name]).scores ==>
        usage == old(usage)[name := old(usage[name]).(scores := old(usage[name]).scores[metric := AppendCapped(old(usage[name]).scores[metric], score)])]
    {
      if name in usage && metric in usage[name].scores {
        var u := usage[name];
        usage := usage[name := u.(scores := u.scores[metric := AppendCapped(u.scores[metric], score)])];
      }
    }

    /** `get_template_deepeval_summary`: an error for an untracked template. */
    method DeepevalSummaryOf(name: string) returns (r: Result<DeepevalSummary, string>)
      ensures name !in usage <==> r == Err("Template not found")
      ensures name in usage ==> r == Ok(SummaryOf(MetricNames, usage[name].scores, TrendOf))
    {
      if name !in usage {
        return Err("Template not found");
      }
      var scores := usage[name].scores;
      var metrics: map<string, MetricSummary> := map[];
      var recommendations: seq<Recommendation> := [];
      for i := 0 to |MetricNames|
        invariant DeepevalSummary(metrics, recommendations) == SummaryOf(MetricNames[..i], scores, TrendOf)
      {
        var m := MetricNames[i];
        SummaryOfSnoc(MetricNames, i, scores, TrendOf);
        if m in scores && scores[m] != [] {
          var s := SummarizeMetric(m, scores[m], TrendOf(scores[m]));
          metrics := metrics[m := s];
          recommendations := recommendations + RecommendationList(RecommendationFor(m, s.average));
        }
      }
      assert MetricNames[..|MetricNames|] == MetricNames;
      r := Ok(DeepevalSummary(metrics, recommendations));
    }

    /** `suggest_optimization_candidates`: scan the tracked templates in order, then rank. */
    method SuggestOptimizationCandidates() returns (r: seq<Candidate>)
      requires Valid()
      ensures r == RankCandidates(CandidateList(FactsList(usage, deepeval, dspy, TrendOf, usageOrder)))
    {
      ghost var all := FactsList(usage, deepeval, dspy, TrendOf, usageOrder);
      var candidates: seq<Candidate> := [];
      for i := 0 to |usageOrder|
        invariant candidates == CandidateList(all[..i])
      {
        var name := usageOrder[i];
        var summary := DeepevalSummaryOf(name);
        var facts := TemplateFacts(name, usage[name].usageCount, usage[name].successRate,
                                   name in dspy || name in deepeval, summary.value);
        assert facts == all[i];
        CandidateListSnoc(all, i);
        var c := CandidateOf(facts);
        if c.Some? {
          candidates := candidates + [c.value];
        }
      }
      assert all[..|usageOrder|] == all;
      r := RankCandidates(candidates);
    }
  }
}
