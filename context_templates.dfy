/**
 * `DSPyPromptTemplateManager` of the top-level prompt_templates.py: the same
 * tables as the backend copy, but optimised versions are keyed by a context
 * signature built from what the arguments say (the length of the user's
 * needs and which context arguments are given) rather than from their names;
 * eight optional arguments default to ""; every render also counts its
 * signature per template and globally; and the trend compares the last five
 * scores with the five before them by an additive band.
 *
 * md5 is the parameter `digest` (the first eight hex digits of the md5 of a
 * string), `str.format` the parameter `format` (None where Python raises),
 * and the clock the parameter `now`. Reading and writing the JSON files is
 * not modelled: the constructor takes what was read from disk, and
 * `SaveTemplate` takes whether the write succeeded.
 */
module ContextTemplates {
  import opened Wrappers
  import opened Text
  import opened JsonValue
  import opened Numbers
  import opened Sorting
  import opened TemplateAnalytics
  import opened TemplateTables
  import ApiCache
  import BackendTemplates

  /** Keyword arguments, as the dictionary `**kwargs` makes of them. */
  type Kwargs = map<string, Json>

  // ------------------------------------------------------------ context signature

  /** `key in kwargs and kwargs[key]`. */
  predicate Given(kwargs: Kwargs, key: string)
  {
    key in kwargs && Truthy(kwargs[key])
  }

  /** What the signature records about the arguments. */
  datatype Features = Features(needs: Option<nat>, context: bool, examples: bool, feedback: bool)

  /** The features, or None where `kwargs['userNeeds'].split()` raises because the value is not a string. */
  function FeaturesOf(kwargs: Kwargs): Option<Features>
  {
    if "userNeeds" in kwargs && !kwargs["userNeeds"].JStr? then None
    else
      Some(Features(if "userNeeds" in kwargs then Some(|Words(kwargs["userNeeds"].s)|) else None,
                    Given(kwargs, "retrievedContent"), Given(kwargs, "groundTruths"), Given(kwargs, "userComments")))
  }

  function NeedsElement(n: nat): string
  {
    "needs:" + NatToString(n)
  }

  /** `context_elements` in the order the code appends them. */
  function Elements(f: Features): seq<string>
  {
    (if f.needs.Some? then [NeedsElement(f.needs.value)] else [])
    + (if f.context then ["context:available"] else [])
    + (if f.examples then ["examples:available"] else [])
    + (if f.feedback then ["feedback:available"] else [])
  }

  /** The same elements in alphabetical order: the needs element moves to the end. */
  function Canonical(f: Features): seq<string>
  {
    (if f.context then ["context:available"] else [])
    + (if f.examples then ["examples:available"] else [])
    + (if f.feedback then ["feedback:available"] else [])
    + (if f.needs.Some? then [NeedsElement(f.needs.value)] else [])
  }

  /** The string `_generate_context_signature` hashes; None where it raises. */
  function SignatureText(name: string, kwargs: Kwargs): Option<string>
  {
    var f := FeaturesOf(kwargs);
    if f.None? then None else Some(name + ":" + Join(SortStrings(Elements(f.value)), ":"))
  }

  /** `_generate_context_signature`. */
  function ContextSignature(digest: string -> string, name: string, kwargs: Kwargs): Option<string>
  {
    var t := SignatureText(name, kwargs);
    if t.None? then None else Some(digest(t.value))
  }

  lemma CanonicalSorted(f: Features)
    ensures SortedStrings(Canonical(f))
  {
    var c := Canonical(f);
    forall i, j | 0 <= i < j < |c| ensures !LexLess(c[j], c[i]) {
      assert c[i][0] < c[j][0] by {
        assert "context:available"[0] == 'c' && "examples:available"[0] == 'e';
        assert "feedback:available"[0] == 'f';
        if f.needs.Some? { assert NeedsElement(f.needs.value)[0] == 'n'; }
      }
    }
  }

  /**
   * What the signature says: the template name, then "context:available",
   * "examples:available", "feedback:available" for the context arguments
   * given, then the word count of userNeeds if it was passed. No other
   * argument, and no value beyond these, affects it.
   */
  lemma SignatureTextIs(name: string, kwargs: Kwargs)
    requires FeaturesOf(kwargs).Some?
    ensures SignatureText(name, kwargs) == Some(name + ":" + Join(Canonical(FeaturesOf(kwargs).value), ":"))
  {
    var f := FeaturesOf(kwargs).value;
    CanonicalSorted(f);
    SortedStringsUnique(SortStrings(Elements(f)), Canonical(f));
  }

  /** The key an optimisation is saved under: "general" when `context` is absent or empty; None where the signature raises. */
  function ContextKey(digest: string -> string, name: string, context: Option<Kwargs>): (k: Option<string>)
    ensures context.None? || context.value == map[] ==> k == Some("general")
    ensures context.Some? && context.value != map[] ==> k == ContextSignature(digest, name, context.value)
  {
    if context.None? || context.value == map[] then Some("general") else ContextSignature(digest, name, context.value)
  }

  // ------------------------------------------------------------ version selection

  /**
   * `_select_optimal_template` followed by `render_template`'s emptiness
   * test: a DeepEval version, then a DSPy version, then the base template,
   * each only when its text is non-empty.
   */
  function Select(deepeval: Store, dspy: Store, templates: map<string, Option<string>>, name: string, sig: string)
    : (r: Option<Chosen>)
    ensures r.Some? ==> r.value.text != ""
    ensures r.Some? && r.value.source.DeepevalVersion? ==>
      VersionKey(deepeval, name, sig) == Some(r.value.source.key) && UsableText(deepeval, name, sig) == Some(r.value.text)
    ensures r.Some? && r.value.source.DspyVersion? ==>
      UsableText(deepeval, name, sig).None?
      && VersionKey(dspy, name, sig) == Some(r.value.source.key) && UsableText(dspy, name, sig) == Some(r.value.text)
    ensures r.Some? && r.value.source.BaseTemplate? ==>
      UsableText(deepeval, name, sig).None? && UsableText(dspy, name, sig).None?
      && name in templates && templates[name] == Some(r.value.text)
    ensures r.None? <==>
      UsableText(deepeval, name, sig).None? && UsableText(dspy, name, sig).None?
      && (name !in templates || templates[name].None? || templates[name] == Some(""))
  {
    if UsableText(deepeval, name, sig).Some? then
      Some(Chosen(DeepevalVersion(VersionKey(deepeval, name, sig).value), UsableText(deepeval, name, sig).value))
    else if UsableText(dspy, name, sig).Some? then
      Some(Chosen(DspyVersion(VersionKey(dspy, name, sig).value), UsableText(dspy, name, sig).value))
    else if name in templates && templates[name].Some? && templates[name].value != "" then
      Some(Chosen(BaseTemplate, templates[name].value))
    else None
  }

  /** For the same key, both managers choose alike, except that this one refuses an empty base template. */
  lemma SelectAgreesWithBackend(deepeval: Store, dspy: Store, templates: map<string, Option<string>>, name: string, key: string)
    ensures var b := BackendTemplates.Resolve(deepeval, dspy, templates, name, key);
      Select(deepeval, dspy, templates, name, key) == if b.Some? && b.value.text == "" then None else b
  {
  }

  // ------------------------------------------------------------ default arguments

  /** The optional arguments `_enhanced_template_render` supplies. */
  const DefaultKeys: seq<string> := [
    "deepevalContext", "deepevalInsights", "targetedContext", "optimizationFocus",
    "retrievedContentSection", "groundTruthsSection", "faithfulnessSection", "userCommentsSection"]

  /** The arguments with every missing optional one set to "" and every given one kept. */
  function WithDefaults(kwargs: Kwargs): (r: Kwargs)
    ensures forall k :: k in r <==> k in kwargs || k in DefaultKeys
    ensures forall k | k in kwargs :: r[k] == kwargs[k]
    ensures forall k | k in r && k !in kwargs :: r[k] == JStr("")
  {
    map k | k in kwargs.Keys + (set d | d in DefaultKeys) :: if k in kwargs then kwargs[k] else JStr("")
  }

  /** `_enhanced_template_render`'s loop over the defaults. */
  method EnhancedKwargs(kwargs: Kwargs) returns (r: Kwargs)
    ensures r == WithDefaults(kwargs)
  {
    r := kwargs;
    for i := 0 to |DefaultKeys|
      invariant forall k :: k in r <==> k in kwargs || k in DefaultKeys[..i]
      invariant forall k | k in r :: r[k] == if k in kwargs then kwargs[k] else JStr("")
    {
      assert DefaultKeys[..i + 1] == DefaultKeys[..i] + [DefaultKeys[i]];
      if DefaultKeys[i] !in r {
        r := r[DefaultKeys[i] := JStr("")];
      }
    }
    assert DefaultKeys[..|DefaultKeys|] == DefaultKeys;
  }

  // ------------------------------------------------------------ context patterns

  /** `context_patterns[sig]`: how often the signature was rendered and by which templates. */
  datatype Pattern = Pattern(count: nat, templates: set<string>)

  /** `context_usage` of `name` counts one more render with `sig`; every other count stays. */
  function ContextCounted(contexts: map<string, map<string, nat>>, name: string, sig: string)
    : (r: map<string, map<string, nat>>)
    ensures name in r && r == contexts[name := r[name]]
    ensures sig in r[name] && r[name][sig] == (if name in contexts && sig in contexts[name] then contexts[name][sig] else 0) + 1
    ensures forall s | name in contexts && s in contexts[name] && s != sig :: s in r[name] && r[name][s] == contexts[name][s]
    ensures forall s | s in r[name] :: s == sig || (name in contexts && s in contexts[name])
  {
    var m := if name in contexts then contexts[name] else map[];
    contexts[name := m[sig := (if sig in m then m[sig] else 0) + 1]]
  }

  /** The global pattern for `sig` counts one more render and lists `name`. */
  function PatternCounted(patterns: map<string, Pattern>, sig: string, name: string): (r: map<string, Pattern>)
    ensures sig in r && r == patterns[sig := r[sig]]
    ensures r[sig].count == (if sig in patterns then patterns[sig].count else 0) + 1
    ensures r[sig].templates == (if sig in patterns then patterns[sig].templates else {}) + {name}
  {
    var p := if sig in patterns then patterns[sig] else Pattern(0, {});
    patterns[sig := Pattern(p.count + 1, p.templates + {name})]
  }

  function PatternOrder(patterns: map<string, Pattern>, order: seq<string>, sig: string): seq<string>
  {
    if sig in patterns then order else order + [sig]
  }

  /**
   * The per-template and global counts agree: a template is listed under a
   * signature exactly when it has rendered with it, and no template has
   * rendered with a signature more often than the signature was rendered.
   */
  ghost predicate PatternsAgree(patterns: map<string, Pattern>, contexts: map<string, map<string, nat>>)
  {
    && (forall p, t | p in patterns && t in patterns[p].templates :: t in contexts && p in contexts[t])
    && (forall t, p | t in contexts && p in contexts[t] :: p in patterns && t in patterns[p].templates)
    && (forall t, p | t in contexts && p in contexts[t] :: contexts[t][p] <= patterns[p].count)
  }

  /** `_track_template_usage` keeps the two counts in agreement. */
  lemma TrackingKeepsAgreement(patterns: map<string, Pattern>, contexts: map<string, map<string, nat>>, name: string, sig: string)
    requires PatternsAgree(patterns, contexts)
    ensures PatternsAgree(PatternCounted(patterns, sig, name), ContextCounted(contexts, name, sig))
  {
    var ps := PatternCounted(patterns, sig, name);
    var cs := ContextCounted(contexts, name, sig);
    forall t, p | t in cs && p in cs[t] ensures p in ps && t in ps[p].templates && cs[t][p] <= ps[p].count {
      if t != name {
        assert t in contexts && p in contexts[t];
      } else if p != sig {
        assert p in contexts[name];
      }
    }
  }

  /** A template that gets a fresh record (empty `context_usage`) keeps the counts in agreement. */
  lemma InitializingKeepsAgreement(patterns: map<string, Pattern>, contexts: map<string, map<string, nat>>, name: string)
    requires PatternsAgree(patterns, contexts) && name !in contexts
    ensures PatternsAgree(patterns, contexts[name := map[]])
  {
  }

  /** `most_common`'s entries. */
  datatype PatternEntry = PatternEntry(pattern: string, count: nat, templates: set<string>)

  function Entries(patterns: map<string, Pattern>, order: seq<string>): (r: seq<PatternEntry>)
    requires forall p | p in order :: p in patterns
    ensures |r| == |order|
    ensures forall i :: 0 <= i < |order| ==> r[i] == PatternEntry(order[i], patterns[order[i]].count, patterns[order[i]].templates)
  {
    seq(|order|, i requires 0 <= i < |order| => PatternEntry(order[i], patterns[order[i]].count, patterns[order[i]].templates))
  }

  function EntryCount(e: PatternEntry): int
  {
    e.count
  }

  /** `sorted(context_patterns.items(), key=count, reverse=True)[:10]`. */
  function MostCommon(patterns: map<string, Pattern>, order: seq<string>): seq<PatternEntry>
    requires forall p | p in order :: p in patterns
  {
    var sorted := SortDesc(Entries(patterns, order), EntryCount);
    sorted[..if |sorted| < 10 then |sorted| else 10]
  }

  /** Every entry of `most_common` is one signature with its own count and templates. */
  lemma MostCommonFaithful(patterns: map<string, Pattern>, order: seq<string>, e: PatternEntry)
    requires OrderValid(patterns, order) && e in MostCommon(patterns, order)
    ensures e.pattern in patterns && e.count == patterns[e.pattern].count && e.templates == patterns[e.pattern].templates
  {
    var sorted := SortDesc(Entries(patterns, order), EntryCount);
    assert e in sorted;
    assert e in multiset(Entries(patterns, order));
  }

  /** A signature that `most_common` leaves out was rendered no more often than any it keeps. */
  lemma MostCommonOmitted(patterns: map<string, Pattern>, order: seq<string>, p: string, e: PatternEntry)
    requires OrderValid(patterns, order) && p in patterns
    requires forall f | f in MostCommon(patterns, order) :: f.pattern != p
    requires e in MostCommon(patterns, order)
    ensures e.count >= patterns[p].count
  {
    var entries := Entries(patterns, order);
    var sorted := SortDesc(entries, EntryCount);
    var r := MostCommon(patterns, order);
    var k :| 0 <= k < |order| && order[k] == p;
    assert entries[k] in multiset(sorted);
    var j :| 0 <= j < |sorted| && sorted[j] == entries[k];
    if j < |r| {
      assert false;
    }
    var i :| 0 <= i < |r| && r[i] == e;
    assert sorted[i] == e;
    assert EntryCount(sorted[i]) >= EntryCount(sorted[j]);
  }

  /**
   * `most_common` holds the ten (or all, if fewer) most rendered
   * signatures, from most to least rendered, each with its own count and
   * templates; every signature left out was rendered no more often than any
   * signature kept.
   */
  lemma MostCommonIsTop(patterns: map<string, Pattern>, order: seq<string>)
    requires OrderValid(patterns, order)
    ensures var r := MostCommon(patterns, order);
      && |r| == (if |order| < 10 then |order| else 10)
      && (forall i, j :: 0 <= i < j < |r| ==> r[i].count >= r[j].count)
      && (forall e | e in r :: e.pattern in patterns && e.count == patterns[e.pattern].count
                                && e.templates == patterns[e.pattern].templates)
      && (forall p | p in patterns && (forall e | e in r :: e.pattern != p) ::
            forall e | e in r :: e.count >= patterns[p].count)
  {
    var sorted := SortDesc(Entries(patterns, order), EntryCount);
    var r := MostCommon(patterns, order);
    forall i, j | 0 <= i < j < |r| ensures r[i].count >= r[j].count {
      assert r[i] == sorted[i] && r[j] == sorted[j];
      assert EntryCount(sorted[i]) >= EntryCount(sorted[j]);
    }
    forall e | e in r
      ensures e.pattern in patterns && e.count == patterns[e.pattern].count && e.templates == patterns[e.pattern].templates
    {
      MostCommonFaithful(patterns, order, e);
    }
    forall p, e | p in patterns && (forall f | f in r :: f.pattern != p) && e in r
      ensures e.count >= patterns[p].count
    {
      MostCommonOmitted(patterns, order, p, e);
    }
  }

  // ------------------------------------------------------------ trend

  /** `scores[-10:-5]` from ten scores on, else `scores[:-5]`: the five scores before the last five, or fewer. */
  function OlderWindow(scores: seq<real>): (r: seq<real>)
    ensures |r| == if |scores| >= 10 then 5 else if |scores| > 5 then |scores| - 5 else 0
  {
    if |scores| >= 10 then scores[|scores| - 10..|scores| - 5]
    else if |scores| > 5 then scores[..|scores| - 5]
    else []
  }

  /**
   * `_calculate_score_trend`: the mean of the last five scores against the
   * mean of the older window, with an additive band of 0.05. From three to
   * five scores the older window is empty, so the data counts as
   * insufficient until there are six.
   */
  function ScoreTrend(scores: seq<real>): (t: Trend)
    ensures t == InsufficientData <==> |scores| < 6
  {
    if |scores| < 3 then InsufficientData
    else
      var recent := Last(scores, 5);
      var older := OlderWindow(scores);
      if older == [] then InsufficientData
      else
        var recentAvg := Mean(recent);
        var olderAvg := Mean(older);
        if recentAvg > olderAvg + 0.05 then Improving
        else if recentAvg < olderAvg - 0.05 then Declining
        else Stable
  }

  /** A run of six or more equal scores is stable. */
  lemma ConstantScoresAreStable(scores: seq<real>, c: real)
    requires |scores| >= 6 && forall i :: 0 <= i < |scores| ==> scores[i] == c
    ensures ScoreTrend(scores) == Stable
  {
    MeanConstant(Last(scores, 5), c);
    MeanConstant(OlderWindow(scores), c);
  }

  /** When each of the last five scores beats each older score by more than the band, the trend is improving. */
  lemma RisingScoresImprove(scores: seq<real>, lo: real, hi: real)
    requires |scores| >= 6 && hi > lo + 0.05
    requires forall i :: 0 <= i < |OlderWindow(scores)| ==> 0.0 <= OlderWindow(scores)[i] <= lo
    requires forall i :: 0 <= i < |Last(scores, 5)| ==> hi <= Last(scores, 5)[i] <= 1.0
    ensures ScoreTrend(scores) == Improving
  {
    MeanBounds(OlderWindow(scores), 0.0, lo);
    MeanBounds(Last(scores, 5), hi, 1.0);
  }

  /** And symmetrically, declining. */
  lemma FallingScoresDecline(scores: seq<real>, lo: real, hi: real)
    requires |scores| >= 6 && hi > lo + 0.05
    requires forall i :: 0 <= i < |OlderWindow(scores)| ==> hi <= OlderWindow(scores)[i] <= 1.0
    requires forall i :: 0 <= i < |Last(scores, 5)| ==> 0.0 <= Last(scores, 5)[i] <= lo
    ensures ScoreTrend(scores) == Declining
  {
    MeanBounds(OlderWindow(scores), hi, 1.0);
    MeanBounds(Last(scores, 5), 0.0, lo);
  }

  // ------------------------------------------------------------ the manager

  /** How `render_template` ends: a result (None when nothing was rendered) or an exception from the signature. */
  datatype Rendered = Rendered(text: Option<string>) | Raised

  /** `save_*_optimized_template`: the template's entry is created first, so a failing signature leaves it empty. */
  function SavedUnder(store: Store, name: string, key: Option<string>, text: string, now: real): (r: Store)
    ensures name in r
    ensures key.Some? ==> r == Saved(store, name, key.value, text, now)
    ensures key.None? ==> r == if name in store then store else store[name := map[]]
  {
    if key.Some? then Saved(store, name, key.value, text, now)
    else if name in store then store else store[name := map[]]
  }

  /**
   * The manager. As in the backend copy, its methods state each new table
   * as a function of the old one, and the invariants of those functions
   * (`TableValid`, `PatternsAgree`) are proved about the functions.
   */
  class ContextTemplateManager {
    /** Base templates; None for a template record that is empty or has no "template" entry. */
    var templates: map<string, Option<string>>
    var deepeval: Store
    var dspy: Store
    var usage: map<string, Usage>
    /** The insertion order of `usage`. */
    var usageOrder: seq<string>
    /** `template_usage[name]["context_usage"]`. */
    var contexts: map<string, map<string, nat>>
    var patterns: map<string, Pattern>
    /** The insertion order of `patterns`. */
    var patternOrder: seq<string>

    ghost predicate Valid()
      reads this
    {
      && OrderValid(usage, usageOrder)
      && contexts.Keys == usage.Keys
      && OrderValid(patterns, patternOrder)
    }

    /**
     * The manager after loading: the templates read from disk, in `order`,
     * each with a fresh usage record, and the optimisations read from disk.
     */
    constructor (initial: map<string, Option<string>>, order: seq<string>, savedDeepeval: Store, savedDspy: Store)
      requires forall t :: t in initial <==> t in order
      requires ApiCache.NoDup(order)
      ensures Valid()
      ensures templates == initial && deepeval == savedDeepeval && dspy == savedDspy && usageOrder == order
      ensures usage == (map t | t in initial :: Unused()) && contexts == (map t | t in initial :: map[])
      ensures patterns == map[] && patternOrder == []
    {
      templates := initial;
      deepeval := savedDeepeval;
      dspy := savedDspy;
      usage := map t | t in initial :: Unused();
      usageOrder := order;
      contexts := map t | t in initial :: map[];
      patterns := map[];
      patternOrder := [];
    }

    /** `save_template`: only a successful write stores the template and starts tracking a new one. */
    method SaveTemplate(name: string, template: Option<string>, written: bool) returns (ok: bool)
      requires Valid()
      modifies this
      ensures Valid()
      ensures ok == written
      ensures !written ==>
        templates == old(templates) && usage == old(usage) && contexts == old(contexts) && usageOrder == old(usageOrder)
      ensures written ==>
        && templates == old(templates)[name := template] && usage == Initialized(old(usage), name)
        && usageOrder == TrackedOrder(old(usage), old(usageOrder), name)
        && contexts == if name in old(usage) then old(contexts) else old(contexts)[name := map[]]
      ensures deepeval == old(deepeval) && dspy == old(dspy) && patterns == old(patterns) && patternOrder == old(patternOrder)
    {
      if !written {
        return false;
      }
      AddingKeepsOrder(usage, usageOrder, name, Initialized(usage, name)[name]);
      templates := templates[name := template];
      contexts := if name in usage then contexts else contexts[name := map[]];
      usageOrder := TrackedOrder(usage, usageOrder, name);
      usage := Initialized(usage, name);
      ok := true;
    }

    /**
     * `render_template`: the signature (which raises for a non-string
     * userNeeds), the version choice, the usage count, then formatting with
     * the optional arguments defaulted; a failed format counts as a failure.
     */
    method RenderTemplate(name: string, kwargs: Kwargs, now: real, digest: string -> string,
                          format: (string, Kwargs) -> Option<string>)
      returns (r: Rendered)
      requires Valid()
      modifies this
      ensures Valid()
      ensures templates == old(templates)
      ensures ContextSignature(digest, name, kwargs).None? ==>
        r == Raised && deepeval == old(deepeval) && dspy == old(dspy) && usage == old(usage)
        && contexts == old(contexts) && patterns == old(patterns)
      ensures ContextSignature(digest, name, kwargs).Some? ==>
        var sig := ContextSignature(digest, name, kwargs).value;
        && deepeval == DeepevalAfterLookup(old(deepeval), name, sig, now)
        && dspy == DspyAfterLookup(old(deepeval), old(dspy), name, sig, now)
      ensures ContextSignature(digest, name, kwargs).Some? ==>
        var sig := ContextSignature(digest, name, kwargs).value;
        var chosen := Select(old(deepeval), old(dspy), templates, name, sig);
        chosen.None? ==> r == Rendered(None) && usage == old(usage) && contexts == old(contexts) && patterns == old(patterns)
      ensures ContextSignature(digest, name, kwargs).Some? ==>
        var sig := ContextSignature(digest, name, kwargs).value;
        var chosen := Select(old(deepeval), old(dspy), templates, name, sig);
        chosen.Some? ==>
          && r == Rendered(format(chosen.value.text, WithDefaults(kwargs)))
          && usage == Recorded(Tracked(old(usage), name, now), name, r.text.Some?)
          && contexts == ContextCounted(old(contexts), name, sig)
          && patterns == PatternCounted(old(patterns), sig, name)
    {
      var sig := ContextSignature(digest, name, kwargs);
      if sig.None? {
        return Raised;
      }
      var chosen := LookupVersion(name, sig.value, now);
      if chosen.None? {
        return Rendered(None);
      }
      TrackUsage(name, sig.value, now);
      var args := EnhancedKwargs(kwargs);
      var text := format(chosen.value.text, args);
      RecordOutcome(name, text.Some?);
      r := Rendered(text);
    }

    /** `_select_optimal_template`: each lookup it makes counts one more use of the version it finds. */
    method LookupVersion(name: string, sig: string, now: real) returns (chosen: Option<Chosen>)
      modifies this
      ensures chosen == Select(old(deepeval), old(dspy), templates, name, sig)
      ensures deepeval == DeepevalAfterLookup(old(deepeval), name, sig, now)
      ensures dspy == DspyAfterLookup(old(deepeval), old(dspy), name, sig, now)
      ensures templates == old(templates) && usage == old(usage) && usageOrder == old(usageOrder)
      ensures contexts == old(contexts) && patterns == old(patterns) && patternOrder == old(patternOrder)
    {
      chosen := Select(deepeval, dspy, templates, name, sig);
      dspy := DspyAfterLookup(deepeval, dspy, name, sig, now);
      deepeval := DeepevalAfterLookup(deepeval, name, sig, now);
    }

    /** `_track_template_usage`: one more use, per template and per signature. */
    method TrackUsage(name: string, sig: string, now: real)
      requires Valid()
      modifies this
      ensures Valid()
      ensures usage == Tracked(old(usage), name, now) && usageOrder == TrackedOrder(old(usage), old(usageOrder), name)
      ensures contexts == ContextCounted(old(contexts), name, sig)
      ensures patterns == PatternCounted(old(patterns), sig, name)
      ensures patternOrder == PatternOrder(old(patterns), old(patternOrder), sig)
      ensures templates == old(templates) && deepeval == old(deepeval) && dspy == old(dspy)
    {
      TrackTemplate(name, sig, now);
      TrackPattern(name, sig);
    }

    /** The template's own counts. */
    method TrackTemplate(name: string, sig: string, now: real)
      requires Valid()
      modifies this
      ensures Valid()
      ensures usage == Tracked(old(usage), name, now) && usageOrder == TrackedOrder(old(usage), old(usageOrder), name)
      ensures contexts == ContextCounted(old(contexts), name, sig)
      ensures patterns == old(patterns) && patternOrder == old(patternOrder)
      ensures templates == old(templates) && deepeval == old(deepeval) && dspy == old(dspy)
    {
      var next := Tracked(usage, name, now);
      AddingKeepsOrder(usage, usageOrder, name, next[name]);
      usageOrder := TrackedOrder(usage, usageOrder, name);
      usage := next;
      contexts := ContextCounted(contexts, name, sig);
    }

    /** The global count of the signature. */
    method TrackPattern(name: string, sig: string)
      requires Valid()
      modifies this
      ensures Valid()
      ensures patterns == PatternCounted(old(patterns), sig, name)
      ensures patternOrder == PatternOrder(old(patterns), old(patternOrder), sig)
      ensures usage == old(usage) && usageOrder == old(usageOrder) && contexts == old(contexts)
      ensures templates == old(templates) && deepeval == old(deepeval) && dspy == old(dspy)
    {
      var next := PatternCounted(patterns, sig, name);
      AddingKeepsOrder(patterns, patternOrder, sig, next[sig]);
      patternOrder := PatternOrder(patterns, patternOrder, sig);
      patterns := next;
    }

    /** `_record_template_success` / `_record_template_failure` after a counted use. */
    method RecordOutcome(name: string, succeeded: bool)
      requires Valid() && name in usage && usage[name].usageCount >= 1
      modifies this
      ensures Valid()
      ensures usage == Recorded(old(usage), name, succeeded)
      ensures templates == old(templates) && deepeval == old(deepeval) && dspy == old(dspy) && usageOrder == old(usageOrder)
      ensures contexts == old(contexts) && patterns == old(patterns) && patternOrder == old(patternOrder)
    {
      usage := Recorded(usage, name, succeeded);
    }

    /** `save_deepeval_optimized_template`; `raised` when the context's signature raises. */
    method SaveDeepevalOptimized(name: string, text: string, context: Option<Kwargs>, now: real, digest: string -> string)
      returns (raised: bool)
      requires Valid()
      modifies this
      ensures Valid()
      ensures raised <==> ContextKey(digest, name, context).None?
      ensures deepeval == SavedUnder(old(deepeval), name, ContextKey(digest, name, context), text, now)
      ensures templates == old(templates) && dspy == old(dspy) && usage == old(usage) && usageOrder == old(usageOrder)
      ensures contexts == old(contexts) && patterns == old(patterns) && patternOrder == old(patternOrder)
    {
      var key := ContextKey(digest, name, context);
      deepeval := SavedUnder(deepeval, name, key, text, now);
      raised := key.None?;
    }

    /** `save_dspy_optimized_template`. */
    method SaveDspyOptimized(name: string, text: string, context: Option<Kwargs>, now: real, digest: string -> string)
      returns (raised: bool)
      requires Valid()
      modifies this
      ensures Valid()
      ensures raised <==> ContextKey(digest, name, context).None?
      ensures dspy == SavedUnder(old(dspy), name, ContextKey(digest, name, context), text, now)
      ensures templates == old(templates) && deepeval == old(deepeval) && usage == old(usage) && usageOrder == old(usageOrder)
      ensures contexts == old(contexts) && patterns == old(patterns) && patternOrder == old(patternOrder)
    {
      var key := ContextKey(digest, name, context);
      dspy := SavedUnder(dspy, name, key, text, now);
      raised := key.None?;
    }

    /** `record_template_deepeval_score`: unknown templates and metrics are ignored. */
    method RecordDeepevalScore(name: string, metric: string, score: real)
      requires Valid()
      modifies this
      ensures Valid()
      ensures templates == old(templates) && deepeval == old(deepeval) && dspy == old(dspy) && usageOrder == old(usageOrder)
      ensures contexts == old(contexts) && patterns == old(patterns) && patternOrder == old(patternOrder)
      ensures name !in old(usage) || metric !in old(usage[name]).scores ==> usage == old(usage)
      ensures name in old(usage) && metric in old(usage[name]).scores ==>
        usage == old(usage)[name := old(usage[name]).(scores := old(usage[name]).scores[metric := AppendCapped(old(usage[name]).scores[metric], score)])]
    {
      if name in usage && metric in usage[name].scores {
        var u := usage[name];
        usage := usage[name := u.(scores := u.scores[metric := AppendCapped(u.scores[metric], score)])];
      }
    }

    /** `get_template_deepeval_summary`: an error for an untracked template. */
    method DeepevalSummaryOf(name: string) returns (r: Result<DeepevalSummary, string>)
      ensures name !in usage <==> r == Err("Template not found")
      ensures name in usage ==> r == Ok(SummaryOf(MetricNames, usage[name].scores, ScoreTrend))
    {
      if name !in usage {
        return Err("Template not found");
      }
      var scores := usage[name].scores;
      var metrics: map<string, MetricSummary> := map[];
      var recommendations: seq<Recommendation> := [];
      for i := 0 to |MetricNames|
        invariant DeepevalSummary(metrics, recommendations) == SummaryOf(MetricNames[..i], scores, ScoreTrend)
      {
        var m := MetricNames[i];
        SummaryOfSnoc(MetricNames, i, scores, ScoreTrend);
        if m in scores && scores[m] != [] {
          var s := SummarizeMetric(m, scores[m], ScoreTrend(scores[m]));
          metrics := metrics[m := s];
          recommendations := recommendations + RecommendationList(RecommendationFor(m, s.average));
        }
      }
      assert MetricNames[..|MetricNames|] == MetricNames;
      r := Ok(DeepevalSummary(metrics, recommendations));
    }

    /** `_analyze_context_patterns_global`: the number of signatures and the ten most rendered. */
    method AnalyzeContextPatterns() returns (total: nat, mostCommon: seq<PatternEntry>)
      requires Valid()
      ensures total == |patterns|
      ensures mostCommon == MostCommon(patterns, patternOrder)
    {
      total := |patterns|;
      mostCommon := MostCommon(patterns, patternOrder);
    }

    /** `suggest_optimization_candidates`: scan the tracked templates in order, then rank. */
    method SuggestOptimizationCandidates() returns (r: seq<Candidate>)
      requires Valid()
      ensures r == RankCandidates(CandidateList(FactsList(usage, deepeval, dspy, ScoreTrend, usageOrder)))
    {
      ghost var all := FactsList(usage, deepeval, dspy, ScoreTrend, usageOrder);
      var candidates: seq<Candidate> := [];
      for i := 0 to |usageOrder|
        invariant candidates == CandidateList(all[..i])
      {
        var name := usageOrder[i];
        var summary := DeepevalSummaryOf(name);
        var facts := TemplateFacts(name, usage[name].usageCount, usage[name].successRate,
                                   name in dspy || name in deepeval, summary.value);
        assert facts == all[i];
        CandidateListSnoc(all, i);
        var c := CandidateOf(facts);
        if c.Some? {
          candidates := candidates + [c.value];
        }
      }
      assert all[..|usageOrder|] == all;
      r := RankCandidates(candidates);
    }
  }
}
