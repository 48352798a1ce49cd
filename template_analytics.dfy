/**
 * What the two `DSPyPromptTemplateManager` classes (backend/prompt_templates.py
 * and prompt_templates.py) compute the same way: the per-metric score
 * histories capped at 100 entries, the running success rate, the per-metric
 * summary with its recommendations, and the scoring, prioritising and
 * ordering of optimisation candidates. Each manager supplies its own trend
 * rule; everything else here is identical in the two files.
 */
module TemplateAnalytics {
  import opened Wrappers
  import opened Numbers
  import opened Sorting

  /** The score series a tracked template starts with, in dictionary order. */
  const MetricNames: seq<string> := ["bias", "toxicity", "relevance", "coherence", "faithfulness", "overall"]

  const ScoreHistoryLimit: nat := 100

  /** One empty series for each of the six metrics, and for nothing else. */
  function EmptyScores(): (r: map<string, seq<real>>)
    ensures forall m :: m in r <==> m in MetricNames
    ensures forall m | m in r :: r[m] == []
  {
    map m | m in MetricNames :: []
  }

  // ------------------------------------------------------------ score history

  /** Python `s[-n:]` for `n > 0`. */
  function Last(s: seq<real>, n: nat): (r: seq<real>)
    ensures |r| == if |s| < n then |s| else n
    ensures r == s[|s| - |r|..]
  {
    if |s| <= n then s else s[|s| - n..]
  }

  /** Append a score, then keep the most recent 100 when the list has grown past that. */
  function AppendCapped(scores: seq<real>, x: real): (r: seq<real>)
    ensures |scores| < ScoreHistoryLimit ==> r == scores + [x]
    ensures |r| == if |scores| + 1 > ScoreHistoryLimit then ScoreHistoryLimit else |scores| + 1
    ensures r[|r| - 1] == x
  {
    var s := scores + [x];
    if |s| > ScoreHistoryLimit then s[|s| - ScoreHistoryLimit..] else s
  }

  /** The capped list is always the 100 most recent scores ever recorded. */
  lemma CappedHistoryIsRecent(all: seq<real>, x: real)
    ensures AppendCapped(Last(all, ScoreHistoryLimit), x) == Last(all + [x], ScoreHistoryLimit)
    ensures |AppendCapped(Last(all, ScoreHistoryLimit), x)| <= ScoreHistoryLimit
  {
    var kept := Last(all, ScoreHistoryLimit);
    if |all| >= ScoreHistoryLimit {
      assert (kept + [x])[1..] == (all + [x])[|all| + 1 - ScoreHistoryLimit..];
    }
  }

  // ------------------------------------------------------------ success rate

  /** `(current_rate * (total_uses - 1) + s) / total_uses`, with `s` 1 on success and 0 on failure. */
  function UpdatedRate(rate: real, uses: nat, succeeded: bool): real
    requires uses >= 1
  {
    (rate * (uses - 1) as real + (if succeeded then 1.0 else 0.0)) / uses as real
  }

  /** `k / n` for counts with `k <= n`: a fraction in [0, 1]. */
  function Fraction(k: nat, n: nat): (r: real)
    requires 1 <= n
    ensures k <= n ==> 0.0 <= r <= 1.0
    ensures k == n ==> r == 1.0
  {
    k as real / n as real
  }

  /**
   * The running rate is exactly the fraction of renders that succeeded: the
   * starting 1.0 is multiplied by zero at the first render, and afterwards a
   * rate of k successes in n - 1 uses becomes k + s successes in n.
   */
  lemma RateIsFraction(rate: real, uses: nat, successes: nat, succeeded: bool)
    requires uses >= 1 && successes <= uses - 1
    requires uses >= 2 ==> rate == Fraction(successes, uses - 1)
    ensures UpdatedRate(rate, uses, succeeded) == Fraction(successes + (if succeeded then 1 else 0), uses)
  {
    if uses >= 2 {
      var m := (uses - 1) as real;
      assert rate * m == successes as real;
    }
  }

  // ------------------------------------------------------------ per-metric summary

  datatype Trend = InsufficientData | Improving | Declining | Stable

  /** For bias and toxicity a lower score is better. */
  predicate LowerIsBetter(metric: string)
  {
    metric == "bias" || metric == "toxicity"
  }

  datatype MetricSummary = MetricSummary(average: real, latest: real, best: real, worst: real, count: nat, trend: Trend)

  /** One entry of `metrics_summary`: best is the minimum for bias and toxicity and the maximum otherwise. */
  function SummarizeMetric(metric: string, scores: seq<real>, trend: Trend): (r: MetricSummary)
    requires scores != []
    ensures r.count == |scores| && r.latest == scores[|scores| - 1] && r.trend == trend
    ensures r.average == Mean(scores)
    ensures r.best in scores && r.worst in scores
    ensures LowerIsBetter(metric) ==> forall x | x in scores :: r.best <= x <= r.worst
    ensures !LowerIsBetter(metric) ==> forall x | x in scores :: r.worst <= x <= r.best
  {
    var hi := scores[FirstMaxIndex(scores)];
    var lo := scores[FirstMinIndex(scores)];
    if LowerIsBetter(metric) then MetricSummary(Mean(scores), scores[|scores| - 1], lo, hi, |scores|, trend)
    else MetricSummary(Mean(scores), scores[|scores| - 1], hi, lo, |scores|, trend)
  }

  datatype Recommendation =
    | BiasMitigation(average: real)
    | SafetyEnhancement(average: real)
    | ImproveMetric(metric: string, average: real)

  /**
   * The recommendation one metric's average triggers, if any: a metric where
   * lower is better triggers when its average is too high, a quality metric
   * when its average is below 0.7, and the overall score never.
   */
  function RecommendationFor(metric: string, average: real): (r: Option<Recommendation>)
    ensures r.Some? ==> r.value.average == average && metric in MetricNames && metric != "overall"
    ensures r.Some? && LowerIsBetter(metric) ==> average > 0.2
    ensures r.Some? && !LowerIsBetter(metric) ==> average < 0.7 && r.value == ImproveMetric(metric, average)
    ensures metric in MetricNames && metric != "overall" && !LowerIsBetter(metric) && average < 0.7 ==> r.Some?
  {
    if metric == "bias" && average > 0.3 then Some(BiasMitigation(average))
    else if metric == "toxicity" && average > 0.2 then Some(SafetyEnhancement(average))
    else if metric in ["relevance", "coherence", "faithfulness"] && average < 0.7 then Some(ImproveMetric(metric, average))
    else None
  }

  datatype DeepevalSummary = DeepevalSummary(metrics: map<string, MetricSummary>, recommendations: seq<Recommendation>)

  function RecommendationList(o: Option<Recommendation>): seq<Recommendation>
  {
    if o.Some? then [o.value] else []
  }

  /**
   * `get_template_deepeval_summary` for a tracked template: the metrics are
   * visited in `names` order, and only those with at least one score appear.
   */
  function SummaryOf(names: seq<string>, scores: map<string, seq<real>>, trend: seq<real> -> Trend): (r: DeepevalSummary)
    ensures forall m :: m in r.metrics <==> m in names && m in scores && scores[m] != []
    ensures forall m | m in r.metrics :: r.metrics[m].count == |scores[m]| && r.metrics[m].trend == trend(scores[m])
    ensures |r.recommendations| <= |names|
  {
    if names == [] then DeepevalSummary(map[], [])
    else
      var m := names[|names| - 1];
      assert forall x :: x in names <==> x in names[..|names| - 1] || x == m;
      SummaryStep(SummaryOf(names[..|names| - 1], scores, trend), m, scores, trend)
  }

  /** One turn of the summary loop: metric `m` is summarised when it has scores. */
  function SummaryStep(prev: DeepevalSummary, m: string, scores: map<string, seq<real>>, trend: seq<real> -> Trend): DeepevalSummary
  {
    if m in scores && scores[m] != [] then
      var s := SummarizeMetric(m, scores[m], trend(scores[m]));
      DeepevalSummary(prev.metrics[m := s], prev.recommendations + RecommendationList(RecommendationFor(m, s.average)))
    else prev
  }

  /** The summary of one more metric name is one more step of the loop. */
  lemma SummaryOfSnoc(names: seq<string>, i: nat, scores: map<string, seq<real>>, trend: seq<real> -> Trend)
    requires i < |names|
    ensures SummaryOf(names[..i + 1], scores, trend) == SummaryStep(SummaryOf(names[..i], scores, trend), names[i], scores, trend)
  {
    assert names[..i + 1][..i] == names[..i];
  }

  // ------------------------------------------------------------ optimisation candidates

  datatype Reason =
    | HighUsage
    | LowSuccessRate
    | NoOptimizations
    | HighBias
    | ToxicityRisk
    | LowScore(metric: string)
    | DecliningTrend(metric: string)

  /** How much each reason adds to the optimisation score. */
  function Weight(r: Reason): nat
  {
    match r
    case HighUsage => 2
    case LowSuccessRate => 3
    case NoOptimizations => 2
    case HighBias => 4
    case ToxicityRisk => 4
    case LowScore(_) => 2
    case DecliningTrend(_) => 1
  }

  function TotalWeight(rs: seq<Reason>): nat
  {
    if rs == [] then 0 else TotalWeight(rs[..|rs| - 1]) + Weight(rs[|rs| - 1])
  }

  lemma {:induction false} TotalWeightAppend(a: seq<Reason>, b: seq<Reason>)
    ensures TotalWeight(a + b) == TotalWeight(a) + TotalWeight(b)
  {
    if b == [] {
      assert a + b == a;
    } else {
      assert (a + b)[..|a + b| - 1] == a + b[..|b| - 1];
      TotalWeightAppend(a, b[..|b| - 1]);
    }
  }

  /** What the candidate scan reads about one tracked template. */
  datatype TemplateFacts = TemplateFacts(name: string, usageCount: nat, successRate: real, optimized: bool, summary: DeepevalSummary)

  /** `metrics.get(m, {}).get("average", d)`. */
  function AverageOr(metrics: map<string, MetricSummary>, m: string, d: real): real
  {
    if m in metrics then metrics[m].average else d
  }

  /** The loop over relevance, coherence and faithfulness: one reason per metric averaging below 0.7. */
  function LowScores(metrics: map<string, MetricSummary>, names: seq<string>): (r: seq<Reason>)
    ensures |r| <= |names|
    ensures forall i :: 0 <= i < |r| ==> r[i].LowScore? && r[i].metric in names
  {
    if names == [] then []
    else
      LowScores(metrics, names[..|names| - 1])
      + (if AverageOr(metrics, names[|names| - 1], 1.0) < 0.7 then [LowScore(names[|names| - 1])] else [])
  }

  /** The loop over the summarised metrics: one reason per declining trend. */
  function DecliningTrends(metrics: map<string, MetricSummary>, names: seq<string>): (r: seq<Reason>)
    ensures |r| <= |names|
    ensures forall i :: 0 <= i < |r| ==> r[i].DecliningTrend?
  {
    if names == [] then []
    else
      var m := names[|names| - 1];
      DecliningTrends(metrics, names[..|names| - 1])
      + (if m in metrics && metrics[m].trend == Declining then [DecliningTrend(m)] else [])
  }

  datatype Scoring = Scoring(score: nat, reasons: seq<Reason>)

  /** The score as `suggest_optimization_candidates` accumulates it, with the reasons it appends. */
  function Assess(f: TemplateFacts): Scoring
  {
    var metrics := f.summary.metrics;
    var low := LowScores(metrics, ["relevance", "coherence", "faithfulness"]);
    var declining := DecliningTrends(metrics, MetricNames);
    var score :=
      (if f.usageCount > 50 then 2 else 0)
      + (if f.successRate < 0.9 then 3 else 0)
      + (if !f.optimized then 2 else 0)
      + (if AverageOr(metrics, "bias", 0.0) > 0.3 then 4 else 0)
      + (if AverageOr(metrics, "toxicity", 0.0) > 0.2 then 4 else 0)
      + 2 * |low|
      + |declining|;
    var reasons :=
      Flag(f.usageCount > 50, HighUsage)
      + Flag(f.successRate < 0.9, LowSuccessRate)
      + Flag(!f.optimized, NoOptimizations)
      + Flag(AverageOr(metrics, "bias", 0.0) > 0.3, HighBias)
      + Flag(AverageOr(metrics, "toxicity", 0.0) > 0.2, ToxicityRisk)
      + low
      + declining;
    Scoring(score, reasons)
  }

  /** Reasons that all weigh `w` weigh `w` times their number. */
  lemma {:induction false} UniformWeight(rs: seq<Reason>, w: nat)
    requires forall i :: 0 <= i < |rs| ==> Weight(rs[i]) == w
    ensures TotalWeight(rs) == w * |rs|
  {
    if rs != [] {
      UniformWeight(rs[..|rs| - 1], w);
    }
  }

  function Flag(c: bool, r: Reason): seq<Reason>
  {
    if c then [r] else []
  }

  lemma WeightOfParts(r1: seq<Reason>, r2: seq<Reason>, r3: seq<Reason>, r4: seq<Reason>, r5: seq<Reason>,
                      r6: seq<Reason>, r7: seq<Reason>)
    ensures TotalWeight(r1 + r2 + r3 + r4 + r5 + r6 + r7)
      == TotalWeight(r1) + TotalWeight(r2) + TotalWeight(r3) + TotalWeight(r4) + TotalWeight(r5)
         + TotalWeight(r6) + TotalWeight(r7)
  {
    TotalWeightAppend(r1, r2);
    TotalWeightAppend(r1 + r2, r3);
    TotalWeightAppend(r1 + r2 + r3, r4);
    TotalWeightAppend(r1 + r2 + r3 + r4, r5);
    TotalWeightAppend(r1 + r2 + r3 + r4 + r5, r6);
    TotalWeightAppend(r1 + r2 + r3 + r4 + r5 + r6, r7);
  }

  lemma FlagWeight(c: bool, r: Reason)
    ensures TotalWeight(Flag(c, r)) == if c then Weight(r) else 0
  {
    if c { assert Flag(c, r)[..0] == []; }
  }

  /** Every appended reason adds exactly its weight to the score, and nothing else does. */
  lemma ScoreIsWeightOfReasons(f: TemplateFacts)
    ensures Assess(f).score == TotalWeight(Assess(f).reasons)
  {
    var metrics := f.summary.metrics;
    var low := LowScores(metrics, ["relevance", "coherence", "faithfulness"]);
    var declining := DecliningTrends(metrics, MetricNames);
    FlaggedWeight(f.usageCount > 50, f.successRate < 0.9, !f.optimized,
                  AverageOr(metrics, "bias", 0.0) > 0.3, AverageOr(metrics, "toxicity", 0.0) > 0.2, low, declining);
  }

  /** The weight of the five flags, the low scores and the declining trends, term by term. */
  lemma FlaggedWeight(c1: bool, c2: bool, c3: bool, c4: bool, c5: bool, low: seq<Reason>, declining: seq<Reason>)
    requires forall i :: 0 <= i < |low| ==> Weight(low[i]) == 2
    requires forall i :: 0 <= i < |declining| ==> Weight(declining[i]) == 1
    ensures TotalWeight(Flag(c1, HighUsage) + Flag(c2, LowSuccessRate) + Flag(c3, NoOptimizations)
                        + Flag(c4, HighBias) + Flag(c5, ToxicityRisk) + low + declining)
      == (if c1 then 2 else 0) + (if c2 then 3 else 0) + (if c3 then 2 else 0)
         + (if c4 then 4 else 0) + (if c5 then 4 else 0) + 2 * |low| + |declining|
  {
    FlagWeight(c1, HighUsage);
    FlagWeight(c2, LowSuccessRate);
    FlagWeight(c3, NoOptimizations);
    FlagWeight(c4, HighBias);
    FlagWeight(c5, ToxicityRisk);
    UniformWeight(low, 2);
    UniformWeight(declining, 1);
    WeightOfParts(Flag(c1, HighUsage), Flag(c2, LowSuccessRate), Flag(c3, NoOptimizations),
                  Flag(c4, HighBias), Flag(c5, ToxicityRisk), low, declining);
  }

  datatype Priority = High | Medium | Low

  function PriorityOf(score: int): (p: Priority)
    ensures p == High <==> score >= 6
    ensures p == Medium <==> 4 <= score < 6
    ensures p == Low <==> score < 4
  {
    if score >= 6 then High else if score >= 4 then Medium else Low
  }

  datatype OptimizationType = SafetyOptimization | PerformanceOptimization | ComprehensiveOptimization | GeneralOptimization

  /** Reasons whose message mentions bias or toxicity. */
  predicate MentionsSafety(r: Reason)
  {
    r == HighBias || r == ToxicityRisk || r == DecliningTrend("bias") || r == DecliningTrend("toxicity")
  }

  /** `_get_recommended_optimization_type`: safety first, then success rate, then usage. */
  function RecommendedType(reasons: seq<Reason>): (t: OptimizationType)
    ensures t == SafetyOptimization <==> exists i :: 0 <= i < |reasons| && MentionsSafety(reasons[i])
    ensures t == PerformanceOptimization ==> LowSuccessRate in reasons
    ensures t == ComprehensiveOptimization ==> HighUsage in reasons && LowSuccessRate !in reasons
    ensures t == GeneralOptimization ==> HighUsage !in reasons && LowSuccessRate !in reasons
  {
    if exists i :: 0 <= i < |reasons| && MentionsSafety(reasons[i]) then SafetyOptimization
    else if LowSuccessRate in reasons then PerformanceOptimization
    else if HighUsage in reasons then ComprehensiveOptimization
    else GeneralOptimization
  }

  datatype Candidate = Candidate(
    name: string, score: nat, priority: Priority, reasons: seq<Reason>,
    usageCount: nat, successRate: real, summary: DeepevalSummary, recommended: OptimizationType)

  /** A template is recommended when its score reaches 3. */
  function CandidateOf(f: TemplateFacts): (r: Option<Candidate>)
  {
    var score := Assess(f).score;
    var reasons := Assess(f).reasons;
    if score >= 3 then
      Some(Candidate(f.name, score, PriorityOf(score), reasons, f.usageCount, f.successRate, f.summary, RecommendedType(reasons)))
    else None
  }

  /** The candidates in scan order. */
  function CandidateList(fs: seq<TemplateFacts>): (r: seq<Candidate>)
    ensures |r| <= |fs|
  {
    Collect(fs, CandidateOf)
  }

  /** The present values of `f` over `xs`, in order. */
  function Collect<T, U>(xs: seq<T>, f: T -> Option<U>): (r: seq<U>)
    ensures |r| <= |xs|
  {
    if xs == [] then []
    else
      var c := f(xs[|xs| - 1]);
      Collect(xs[..|xs| - 1], f) + (if c.Some? then [c.value] else [])
  }

  lemma {:induction false} CollectMembers<T, U>(xs: seq<T>, f: T -> Option<U>)
    ensures forall c :: c in Collect(xs, f) <==> exists i :: 0 <= i < |xs| && f(xs[i]) == Some(c)
  {
    if xs != [] {
      CollectMembers(xs[..|xs| - 1], f);
      assert forall i :: 0 <= i < |xs| - 1 ==> xs[..|xs| - 1][i] == xs[i];
    }
  }

  lemma CandidateListSnoc(fs: seq<TemplateFacts>, i: nat)
    requires i < |fs|
    ensures CandidateList(fs[..i + 1]) == CandidateList(fs[..i]) + (if CandidateOf(fs[i]).Some? then [CandidateOf(fs[i]).value] else [])
  {
    assert fs[..i + 1][..i] == fs[..i];
  }

  /** The sort key `(optimization_score, priority == "high")` as one integer. */
  function CandidateKey(c: Candidate): int
  {
    2 * c.score + (if c.priority == High then 1 else 0)
  }

  /** The candidate list sorted by that key, descending and stable. */
  function RankCandidates(cs: seq<Candidate>): seq<Candidate>
  {
    SortDesc(cs, CandidateKey)
  }

  lemma CandidateListMembers(fs: seq<TemplateFacts>)
    ensures forall c :: c in CandidateList(fs) <==> exists i :: 0 <= i < |fs| && CandidateOf(fs[i]) == Some(c)
  {
    CollectMembers(fs, CandidateOf);
  }

  lemma SortKeepsMembers(cs: seq<Candidate>)
    ensures forall c :: c in RankCandidates(cs) <==> c in cs
  {
    var r := RankCandidates(cs);
    forall c ensures c in r <==> c in cs {
      assert c in r <==> c in multiset(r);
      assert c in cs <==> c in multiset(cs);
    }
  }

  /** With the priority fixed by the score, the pair key orders candidates by score alone. */
  lemma RankedByScore(cs: seq<Candidate>)
    requires forall c | c in cs :: c.priority == PriorityOf(c.score)
    ensures forall i, j :: 0 <= i < j < |RankCandidates(cs)| ==> RankCandidates(cs)[i].score >= RankCandidates(cs)[j].score
  {
    var r := RankCandidates(cs);
    SortKeepsMembers(cs);
    forall i, j | 0 <= i < j < |r| ensures r[i].score >= r[j].score {
      assert r[i] in cs && r[j] in cs;
      assert CandidateKey(r[i]) >= CandidateKey(r[j]);
    }
  }

  /**
   * What the ranked list promises: exactly the templates scoring at least 3,
   * each with the priority its score gives, ordered by score from highest
   * to lowest.
   */
  lemma RankedCandidates(fs: seq<TemplateFacts>)
    ensures forall c :: c in RankCandidates(CandidateList(fs)) <==>
      exists i :: 0 <= i < |fs| && Assess(fs[i]).score >= 3 && CandidateOf(fs[i]) == Some(c)
    ensures forall c | c in RankCandidates(CandidateList(fs)) :: c.score >= 3 && c.priority == PriorityOf(c.score)
    ensures forall i, j :: 0 <= i < j < |RankCandidates(CandidateList(fs))| ==>
      RankCandidates(CandidateList(fs))[i].score >= RankCandidates(CandidateList(fs))[j].score
  {
    CandidateListMembers(fs);
    SortKeepsMembers(CandidateList(fs));
    RankedByScore(CandidateList(fs));
  }

  /** A safety-related reason always decides the recommended optimisation. */
  lemma SafetyTakesPrecedence(reasons: seq<Reason>)
    requires HighBias in reasons || ToxicityRisk in reasons
    ensures RecommendedType(reasons) == SafetyOptimization
  {
    var i :| 0 <= i < |reasons| && (reasons[i] == HighBias || reasons[i] == ToxicityRisk);
    assert MentionsSafety(reasons[i]);
  }
}
