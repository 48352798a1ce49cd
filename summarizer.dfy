/**
 * `ContentSummarizer` in backend/crawler.py, on its fallback path: when the
 * transformers pipeline is not loaded (or raises) a page is summarised by
 * `_extractive_summary`. Sentence scores `(10 - i) + words / 10` are kept
 * exactly as the integer `100 - 10 * i + words` (ten times the score),
 * which orders the scored sentences the same way.
 */
module Summarizer {
  import opened Text
  import opened Sequences

  predicate IsTerminator(c: char) { c == '.' || c == '!' || c == '?' }

  /** `s` without its leading run of '.', '!' and '?'. */
  function DropTerminators(s: string): (r: string)
    ensures |r| <= |s|
    ensures r != [] ==> !IsTerminator(r[0])
    ensures s != [] && IsTerminator(s[0]) ==> |r| < |s|
  {
    if s != [] && IsTerminator(s[0]) then DropTerminators(s[1..]) else s
  }

  predicate NoTerminator(s: string)
  {
    forall k :: 0 <= k < |s| ==> !IsTerminator(s[k])
  }

  /**
   * `re.split(r'[.!?]+', s)`: every maximal run of terminators separates two
   * pieces; `cur` is the piece read so far.
   */
  function SplitSentences(s: string, cur: string): (r: seq<string>)
    decreases |s|
  {
    if s == [] then [cur]
    else if IsTerminator(s[0]) then [cur] + SplitSentences(DropTerminators(s), [])
    else SplitSentences(s[1..], cur + [s[0]])
  }

  function Concat(pieces: seq<string>): string
  {
    if pieces == [] then [] else pieces[0] + Concat(pieces[1..])
  }

  function RemoveTerminators(s: string): (r: string)
  {
    if s == [] then []
    else if IsTerminator(s[0]) then RemoveTerminators(s[1..])
    else [s[0]] + RemoveTerminators(s[1..])
  }

  lemma {:induction false} ConcatAppend(a: seq<string>, b: seq<string>)
    ensures Concat(a + b) == Concat(a) + Concat(b)
  {
    if a == [] {
      assert a + b == b;
    } else {
      assert (a + b)[0] == a[0] && (a + b)[1..] == a[1..] + b;
      ConcatAppend(a[1..], b);
    }
  }

  lemma {:induction false} RemoveDropped(s: string)
    ensures RemoveTerminators(s) == RemoveTerminators(DropTerminators(s))
  {
    if s != [] && IsTerminator(s[0]) {
      RemoveDropped(s[1..]);
    }
  }

  /** No piece holds a terminator. */
  lemma {:induction false} SplitSentencesClean(s: string, cur: string)
    requires NoTerminator(cur)
    ensures forall k :: 0 <= k < |SplitSentences(s, cur)| ==> NoTerminator(SplitSentences(s, cur)[k])
    decreases |s|
  {
    if s == [] {
    } else if IsTerminator(s[0]) {
      SplitSentencesClean(DropTerminators(s), []);
    } else {
      SplitSentencesClean(s[1..], cur + [s[0]]);
    }
  }

  /** Put together, the pieces are `s` with the terminators taken out. */
  lemma {:induction false} SplitSentencesConcat(s: string, cur: string)
    ensures Concat(SplitSentences(s, cur)) == cur + RemoveTerminators(s)
    decreases |s|
  {
    if s == [] {
      assert Concat([cur]) == cur + Concat([]);
    } else if IsTerminator(s[0]) {
      var d := DropTerminators(s);
      SplitSentencesConcat(d, []);
      var rest := SplitSentences(d, []);
      ConcatAppend([cur], rest);
      assert Concat([cur]) == cur + Concat([]);
      RemoveDropped(s);
    } else {
      SplitSentencesConcat(s[1..], cur + [s[0]]);
      assert cur + RemoveTerminators(s) == (cur + [s[0]]) + RemoveTerminators(s[1..]);
    }
  }

  /** Every piece stripped of surrounding whitespace. */
  function Stripped(pieces: seq<string>): (r: seq<string>)
    ensures |r| == |pieces| && forall k :: 0 <= k < |r| ==> r[k] == Strip(pieces[k])
  {
    if pieces == [] then [] else [Strip(pieces[0])] + Stripped(pieces[1..])
  }

  /**
   * `[s.strip() for s in pieces if len(s.strip()) > 20]`: the stripped
   * pieces in their order, every long one kept as often as it occurs and no
   * short one kept.
   */
  function KeptSentences(pieces: seq<string>): (r: seq<string>)
    ensures |r| <= |pieces|
    ensures forall k :: 0 <= k < |r| ==> |r[k]| > 20
    ensures SubseqOf(r, Stripped(pieces))
  {
    if pieces == [] then []
    else
      var rest := KeptSentences(pieces[1..]);
      var first := Strip(pieces[0]);
      assert Stripped(pieces) == [first] + Stripped(pieces[1..]);
      if |first| > 20 then
        SubseqOfCons(first, rest, Stripped(pieces[1..]));
        [first] + rest
      else
        SubseqOfSkip(first, rest, Stripped(pieces[1..]));
        rest
  }

  /** Every long stripped piece is kept exactly as often as it occurs; no short one is. */
  lemma {:induction false} KeptSentencesCounts(pieces: seq<string>, x: string)
    ensures multiset(KeptSentences(pieces))[x] == if |x| > 20 then multiset(Stripped(pieces))[x] else 0
  {
    if pieces != [] {
      KeptSentencesCounts(pieces[1..], x);
      var first := Strip(pieces[0]);
      var rest := KeptSentences(pieces[1..]);
      assert Stripped(pieces) == [first] + Stripped(pieces[1..]);
      assert multiset(Stripped(pieces)) == multiset{first} + multiset(Stripped(pieces[1..]));
      if |first| > 20 {
        assert KeptSentences(pieces) == [first] + rest;
        assert multiset([first] + rest) == multiset{first} + multiset(rest);
      }
    }
  }

  /** The sentences `_extractive_summary` works on. */
  function Sentences(content: string): seq<string>
  {
    KeptSentences(SplitSentences(content, []))
  }

  /** A scored sentence: `key` is ten times the source's score. */
  datatype Scored = Scored(key: int, index: nat, sentence: string)

  /** The scored first ten sentences, `i` counting from `from`. */
  function ScoreAll(sentences: seq<string>, from: nat): (r: seq<Scored>)
    ensures |r| == |sentences|
    ensures forall k :: 0 <= k < |r| ==>
      r[k] == Scored(100 - 10 * (from + k) + |Words(sentences[k])|, from + k, sentences[k])
  {
    if sentences == [] then []
    else [Scored(100 - 10 * from + |Words(sentences[0])|, from, sentences[0])] + ScoreAll(sentences[1..], from + 1)
  }

  /** Python's tuple order on `(score, sentence)`, strictly above. */
  predicate Above(a: Scored, b: Scored)
  {
    a.key > b.key || (a.key == b.key && LexLess(b.sentence, a.sentence))
  }

  /** The position of a maximum under `Above`. */
  function MaxIndex(xs: seq<Scored>): (m: nat)
    requires xs != []
    ensures m < |xs|
    ensures forall k :: 0 <= k < |xs| ==> !Above(xs[k], xs[m])
  {
    if |xs| == 1 then LexLessIrreflexive(xs[0].sentence); 0
    else
      var m := MaxIndex(xs[1..]);
      if Above(xs[m + 1], xs[0]) then
        AboveNotBothWays(xs[0], xs[m + 1]);
        m + 1
      else
        FirstIsMax(xs, m);
        0
  }

  lemma FirstIsMax(xs: seq<Scored>, m: nat)
    requires m + 1 < |xs|
    requires forall k :: 0 <= k < |xs[1..]| ==> !Above(xs[1..][k], xs[1..][m])
    requires !Above(xs[m + 1], xs[0])
    ensures forall k :: 0 <= k < |xs| ==> !Above(xs[k], xs[0])
  {
    forall k | 0 <= k < |xs|
      ensures !Above(xs[k], xs[0])
    {
      if k == 0 {
        LexLessIrreflexive(xs[0].sentence);
      } else if Above(xs[k], xs[0]) {
        assert !Above(xs[1..][k - 1], xs[1..][m]);
        AboveSplits(xs[k], xs[m + 1], xs[0]);
      }
    }
  }

  lemma AboveNotBothWays(a: Scored, b: Scored)
    ensures !(Above(a, b) && Above(b, a))
  {
    if a.key == b.key && LexLess(b.sentence, a.sentence) && LexLess(a.sentence, b.sentence) {
      LexLessTransitive(a.sentence, b.sentence, a.sentence);
      LexLessIrreflexive(a.sentence);
    }
  }

  lemma AboveTransitive(a: Scored, b: Scored, c: Scored)
    requires Above(a, b) && Above(b, c)
    ensures Above(a, c)
  {
    if a.key == b.key && b.key == c.key {
      LexLessTransitive(c.sentence, b.sentence, a.sentence);
    }
  }

  /** Two different `(key, sentence)` pairs are ordered one way or the other. */
  lemma AboveTotal(a: Scored, b: Scored)
    requires a.key != b.key || a.sentence != b.sentence
    ensures Above(a, b) || Above(b, a)
  {
    LexLessTotal(a.sentence, b.sentence);
  }

  /** Whatever `b` is, `a` above `c` puts `b` below `a` or above `c`. */
  lemma AboveSplits(a: Scored, b: Scored, c: Scored)
    requires Above(a, c)
    ensures Above(a, b) || Above(b, c)
  {
    if a.key != b.key || a.sentence != b.sentence {
      AboveTotal(a, b);
      if Above(b, a) {
        AboveTransitive(b, a, c);
      }
    }
  }

  function RemoveAt<T>(xs: seq<T>, m: nat): (r: seq<T>)
    requires m < |xs|
    ensures |r| == |xs| - 1
  {
    xs[..m] + xs[m + 1..]
  }

  /** `sorted(xs, reverse=True)[:k]`: the `k` largest, largest first. */
  function TopK(xs: seq<Scored>, k: nat): (r: seq<Scored>)
    ensures |r| == if k < |xs| then k else |xs|
    ensures multiset(r) <= multiset(xs)
  {
    if k == 0 || xs == [] then []
    else
      var m := MaxIndex(xs);
      assert xs == xs[..m] + [xs[m]] + xs[m + 1..];
      [xs[m]] + TopK(RemoveAt(xs, m), k - 1)
  }

  /** Index of the first occurrence of `s`, Python's `list.index`. */
  function FirstIndex(sentences: seq<string>, s: string): (i: nat)
    requires s in sentences
    ensures i < |sentences| && sentences[i] == s
  {
    if sentences[0] == s then 0 else 1 + FirstIndex(sentences[1..], s)
  }

  /**
   * Nothing left out of `TopK(xs, k)` is above anything it picked: the picks
   * are the `k` largest under `Above`.
   */
  /**
   * Nothing `TopK(xs, k)` leaves out is above anything it picked: the picks
   * are the `k` largest under `Above`.
   */
  lemma {:induction false} TopKBest(xs: seq<Scored>, k: nat)
    ensures forall j, i :: 0 <= j < |xs| && xs[j] !in TopK(xs, k) && 0 <= i < |TopK(xs, k)| ==>
      !Above(xs[j], TopK(xs, k)[i])
  {
    if k != 0 && xs != [] {
      var m := MaxIndex(xs);
      var rest := RemoveAt(xs, m);
      TopKBest(rest, k - 1);
      var r := TopK(xs, k);
      var rr := TopK(rest, k - 1);
      assert r == [xs[m]] + rr;
      forall j, i | 0 <= j < |xs| && xs[j] !in r && 0 <= i < |r|
        ensures !Above(xs[j], r[i])
      {
        if i == 0 {
          assert r[0] == xs[m];
        } else {
          assert r[i] == rr[i - 1];
          assert xs[j] !in rr;
          if j < m {
            assert rest[j] == xs[j];
            assert !Above(rest[j], rr[i - 1]);
          } else {
            assert j != m && rest[j - 1] == xs[j];
            assert !Above(rest[j - 1], rr[i - 1]);
          }
        }
      }
    }
  }

  predicate AllIn(xs: seq<Scored>, sentences: seq<string>)
  {
    forall k :: 0 <= k < |xs| ==> xs[k].sentence in sentences
  }

  /** Ordered by the position where each sentence first occurs. */
  predicate IndexSorted(xs: seq<Scored>, sentences: seq<string>)
    requires AllIn(xs, sentences)
  {
    forall i, j :: 0 <= i < j < |xs| ==>
      FirstIndex(sentences, xs[i].sentence) <= FirstIndex(sentences, xs[j].sentence)
  }

  /** Insert `x` before the first element whose first index is not smaller: stable. */
  function InsertByIndex(x: Scored, xs: seq<Scored>, sentences: seq<string>): (r: seq<Scored>)
    requires x.sentence in sentences && AllIn(xs, sentences)
    ensures multiset(r) == multiset(xs) + multiset{x}
    ensures AllIn(r, sentences)
  {
    if xs == [] || FirstIndex(sentences, x.sentence) <= FirstIndex(sentences, xs[0].sentence) then [x] + xs
    else
      assert xs == [xs[0]] + xs[1..];
      [xs[0]] + InsertByIndex(x, xs[1..], sentences)
  }

  /** An element no later than everything after it extends a sorted sequence at the front. */
  lemma ConsSorted(x: Scored, ys: seq<Scored>, sentences: seq<string>)
    requires x.sentence in sentences && AllIn(ys, sentences) && IndexSorted(ys, sentences)
    requires forall j :: 0 <= j < |ys| ==> FirstIndex(sentences, x.sentence) <= FirstIndex(sentences, ys[j].sentence)
    ensures AllIn([x] + ys, sentences) && IndexSorted([x] + ys, sentences)
  {
    var r := [x] + ys;
    assert AllIn(r, sentences) by {
      forall k | 0 <= k < |r| ensures r[k].sentence in sentences {
        if k > 0 { assert r[k] == ys[k - 1]; }
      }
    }
    forall i, j | 0 <= i < j < |r|
      ensures FirstIndex(sentences, r[i].sentence) <= FirstIndex(sentences, r[j].sentence)
    {
      assert r[j] == ys[j - 1];
      if i > 0 {
        assert r[i] == ys[i - 1];
      }
    }
  }

  lemma {:induction false} InsertKeepsSorted(x: Scored, xs: seq<Scored>, sentences: seq<string>)
    requires x.sentence in sentences && AllIn(xs, sentences) && IndexSorted(xs, sentences)
    ensures IndexSorted(InsertByIndex(x, xs, sentences), sentences)
  {
    if xs == [] || FirstIndex(sentences, x.sentence) <= FirstIndex(sentences, xs[0].sentence) {
      assert InsertByIndex(x, xs, sentences) == [x] + xs;
      forall j | 0 <= j < |xs|
        ensures FirstIndex(sentences, x.sentence) <= FirstIndex(sentences, xs[j].sentence)
      {
        if j > 0 {
          assert FirstIndex(sentences, xs[0].sentence) <= FirstIndex(sentences, xs[j].sentence);
        }
      }
      ConsSorted(x, xs, sentences);
    } else {
      var tail := xs[1..];
      var rec := InsertByIndex(x, tail, sentences);
      assert AllIn(tail, sentences) && IndexSorted(tail, sentences) by {
        forall k | 0 <= k < |tail| ensures tail[k] == xs[k + 1] { }
      }
      InsertKeepsSorted(x, tail, sentences);
      assert InsertByIndex(x, xs, sentences) == [xs[0]] + rec;
      var k0 := FirstIndex(sentences, xs[0].sentence);
      forall j | 0 <= j < |rec|
        ensures k0 <= FirstIndex(sentences, rec[j].sentence)
      {
        assert rec[j] in multiset(tail) + multiset{x};
        if rec[j] != x {
          assert rec[j] in multiset(tail);
          var t :| 0 <= t < |tail| && tail[t] == rec[j];
          assert xs[t + 1] == rec[j];
        }
      }
      ConsSorted(xs[0], rec, sentences);
    }
  }

  /** `sorted(xs, key=lambda x: sentences.index(x[1]))`, a stable insertion sort. */
  function SortByIndex(xs: seq<Scored>, sentences: seq<string>): (r: seq<Scored>)
    requires AllIn(xs, sentences)
    ensures multiset(r) == multiset(xs)
    ensures AllIn(r, sentences) && IndexSorted(r, sentences)
  {
    if xs == [] then []
    else
      assert xs == [xs[0]] + xs[1..];
      var rest := SortByIndex(xs[1..], sentences);
      InsertKeepsSorted(xs[0], rest, sentences);
      InsertByIndex(xs[0], rest, sentences)
  }

  lemma MultisetMembers(a: seq<Scored>, b: seq<Scored>, sentences: seq<string>)
    requires multiset(a) == multiset(b)
    requires forall k :: 0 <= k < |b| ==> b[k].sentence in sentences
    ensures forall k :: 0 <= k < |a| ==> a[k].sentence in sentences
  {
    forall k | 0 <= k < |a|
      ensures a[k].sentence in sentences
    {
      assert a[k] in multiset(b);
    }
  }

  function SentenceOf(xs: seq<Scored>): (r: seq<string>)
    ensures |r| == |xs| && forall k :: 0 <= k < |xs| ==> r[k] == xs[k].sentence
  {
    if xs == [] then [] else [xs[0].sentence] + SentenceOf(xs[1..])
  }

  /** The sentences `_extractive_summary` keeps, in the order it joins them. */
  function Picked(content: string): seq<string>
  {
    PickFrom(Sentences(content))
  }

  /** The three best-scored of the first ten, in order of first occurrence, or all if at most three. */
  function PickFrom(sentences: seq<string>): seq<string>
  {
    if |sentences| <= 3 then sentences else SentenceOf(TopThree(sentences))
  }

  /** The three best-scored of the first ten sentences, re-sorted by where they first occur. */
  function TopThree(sentences: seq<string>): (r: seq<Scored>)
    requires |sentences| > 3
    ensures |r| == 3
    ensures forall k :: 0 <= k < |r| ==> r[k].sentence in FirstTen(sentences)
    ensures AllIn(r, sentences) && IndexSorted(r, sentences)
  {
    var firstTen := FirstTen(sentences);
    var top := TopK(ScoreAll(firstTen, 0), 3);
    TopInSentences(top, firstTen, sentences);
    var sorted := SortByIndex(top, sentences);
    assert |sorted| == |multiset(sorted)| == |multiset(top)| == |top|;
    MultisetMembers(sorted, top, firstTen);
    sorted
  }

  /** What `TopK` picks from the scored first sentences are sentences of the first ten. */
  lemma TopInSentences(top: seq<Scored>, firstTen: seq<string>, sentences: seq<string>)
    requires |firstTen| <= |sentences| && firstTen == sentences[..|firstTen|]
    requires multiset(top) <= multiset(ScoreAll(firstTen, 0))
    ensures forall k :: 0 <= k < |top| ==> top[k].sentence in firstTen
    ensures forall k :: 0 <= k < |top| ==> top[k].sentence in sentences
  {
    forall k | 0 <= k < |top|
      ensures top[k].sentence in firstTen && top[k].sentence in sentences
    {
      assert top[k] in multiset(top);
      ScoredSentence(firstTen, top[k]);
    }
  }

  /** A scored entry carries one of the sentences that were scored. */
  lemma ScoredSentence(sentences: seq<string>, x: Scored)
    requires x in multiset(ScoreAll(sentences, 0))
    ensures x.sentence in sentences
  {
    var scored := ScoreAll(sentences, 0);
    var j :| 0 <= j < |scored| && scored[j] == x;
    assert x.sentence == sentences[j];
  }

  /** The first ten sentences, the only ones `_extractive_summary` scores. */
  function FirstTen(sentences: seq<string>): (r: seq<string>)
    ensures |r| == if |sentences| <= 10 then |sentences| else 10
    ensures r == sentences[..|r|]
  {
    if |sentences| <= 10 then sentences else sentences[..10]
  }

  /**
   * At most three sentences are joined: all of them when there are no more
   * than three, otherwise three of the first ten; either way they are kept
   * sentences, in the order in which they first occur.
   */
  lemma PickedFacts(sentences: seq<string>)
    ensures |PickFrom(sentences)| == if |sentences| <= 3 then |sentences| else 3
    ensures |sentences| <= 3 ==> PickFrom(sentences) == sentences
    ensures forall k :: 0 <= k < |PickFrom(sentences)| ==> PickFrom(sentences)[k] in FirstTen(sentences)
    ensures forall k :: 0 <= k < |PickFrom(sentences)| ==> PickFrom(sentences)[k] in sentences
    ensures |sentences| > 3 ==> forall i, j :: 0 <= i < j < |PickFrom(sentences)| ==>
      FirstIndex(sentences, PickFrom(sentences)[i]) <= FirstIndex(sentences, PickFrom(sentences)[j])
  {
    var ten := FirstTen(sentences);
    if |sentences| > 3 {
      PickedFromLong(sentences);
    } else {
      forall k | 0 <= k < |sentences|
        ensures sentences[k] in ten
      {
        assert ten[k] == sentences[k];
      }
    }
  }

  lemma PickedFromLong(sentences: seq<string>)
    requires |sentences| > 3
    ensures |PickFrom(sentences)| == 3
    ensures forall k :: 0 <= k < 3 ==> PickFrom(sentences)[k] in FirstTen(sentences)
    ensures forall i, j :: 0 <= i < j < 3 ==>
      PickFrom(sentences)[i] in sentences && PickFrom(sentences)[j] in sentences &&
      FirstIndex(sentences, PickFrom(sentences)[i]) <= FirstIndex(sentences, PickFrom(sentences)[j])
  {
    var top := TopThree(sentences);
    assert PickFrom(sentences) == SentenceOf(top);
    assert forall i, j :: 0 <= i < j < 3 ==>
      FirstIndex(sentences, top[i].sentence) <= FirstIndex(sentences, top[j].sentence);
  }

  /** A summary made of at most three of the kept sentences of `content`, joined with ". ". */
  ghost predicate JoinsKept(content: string, summary: string)
  {
    exists picked: seq<string> ::
      && summary == Join(picked, ". ") && |picked| <= 3
      && forall k :: 0 <= k < |picked| ==> picked[k] in Sentences(content) && |picked[k]| > 20
  }

  /** `_extractive_summary(content)` with the default of three sentences. */
  function ExtractiveSummary(content: string): (r: string)
    ensures JoinsKept(content, r)
  {
    PickedAreLong(content);
    PickedFacts(Sentences(content));
    Join(Picked(content), ". ")
  }

  /**
   * `summarize_content` when no summarisation model is available: short
   * content comes back stripped, longer content as an extractive summary.
   */
  function SummarizeContent(content: string): (r: string)
    ensures |Strip(content)| < 100 ==> r == Strip(content) && |r| < 100
    ensures |Strip(content)| >= 100 ==> JoinsKept(content, r)
  {
    if content == [] || |Strip(content)| < 100 then Strip(content) else ExtractiveSummary(content)
  }

  /** The summary joins at most three sentences, each longer than 20 characters. */
  lemma PickedAreLong(content: string)
    ensures |Picked(content)| <= 3
    ensures forall k :: 0 <= k < |Picked(content)| ==> |Picked(content)[k]| > 20
  {
    var sentences := Sentences(content);
    PickedFacts(sentences);
    forall k | 0 <= k < |PickFrom(sentences)|
      ensures |PickFrom(sentences)[k]| > 20
    {
      var i :| 0 <= i < |sentences| && sentences[i] == PickFrom(sentences)[k];
    }
  }
}
