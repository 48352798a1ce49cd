/** Sums, averages and the positions of extremes of score lists. */
module Numbers {
  /** `scores.index(max(scores))`. */
  function FirstMaxIndex(s: seq<real>): (i: nat)
    requires |s| > 0
    ensures i < |s|
    ensures forall j :: 0 <= j < |s| ==> s[j] <= s[i]
    ensures forall j :: 0 <= j < i ==> s[j] < s[i]
  {
    if |s| == 1 then 0
    else
      var k := FirstMaxIndex(s[..|s| - 1]);
      assert forall j :: 0 <= j < |s| - 1 ==> s[..|s| - 1][j] == s[j];
      if s[|s| - 1] > s[k] then |s| - 1 else k
  }

  /** `scores.index(min(scores))`. */
  function FirstMinIndex(s: seq<real>): (i: nat)
    requires |s| > 0
    ensures i < |s|
    ensures forall j :: 0 <= j < |s| ==> s[i] <= s[j]
    ensures forall j :: 0 <= j < i ==> s[i] < s[j]
  {
    if |s| == 1 then 0
    else
      var k := FirstMinIndex(s[..|s| - 1]);
      assert forall j :: 0 <= j < |s| - 1 ==> s[..|s| - 1][j] == s[j];
      if s[|s| - 1] < s[k] then |s| - 1 else k
  }

  function Sum(s: seq<real>): real
  {
    if s == [] then 0.0 else s[0] + Sum(s[1..])
  }

  lemma {:induction false} SumAppend(s: seq<real>, x: real)
    ensures Sum(s + [x]) == Sum(s) + x
  {
    if s != [] {
      assert (s + [x])[1..] == s[1..] + [x];
      SumAppend(s[1..], x);
    }
  }

  /** `sum(s) / len(s)`. */
  function Mean(s: seq<real>): real
    requires s != []
  {
    Sum(s) / |s| as real
  }

  lemma {:induction false} SumConstant(s: seq<real>, c: real)
    requires forall i :: 0 <= i < |s| ==> s[i] == c
    ensures Sum(s) == |s| as real * c
  {
    if s != [] {
      SumConstant(s[1..], c);
    }
  }

  /** The mean of a list whose every entry is `c` is `c`. */
  lemma MeanConstant(s: seq<real>, c: real)
    requires s != [] && forall i :: 0 <= i < |s| ==> s[i] == c
    ensures Mean(s) == c
  {
    SumConstant(s, c);
  }

  lemma {:induction false} SumBounds(s: seq<real>, lo: real, hi: real)
    requires forall i :: 0 <= i < |s| ==> lo <= s[i] <= hi
    ensures |s| as real * lo <= Sum(s) <= |s| as real * hi
  {
    if s != [] {
      SumBounds(s[1..], lo, hi);
    }
  }

  /** Dividing by a positive count keeps a bound that holds for the total. */
  lemma DivideBounds(total: real, n: real, lo: real, hi: real)
    requires n > 0.0 && n * lo <= total <= n * hi
    ensures lo <= total / n <= hi
  {
    var q := total / n;
    assert q * n == total;
    assert (q - lo) * n >= 0.0;
    assert (hi - q) * n >= 0.0;
  }

  /** A mean lies between any bounds of its entries. */
  lemma MeanBounds(s: seq<real>, lo: real, hi: real)
    requires s != [] && forall i :: 0 <= i < |s| ==> lo <= s[i] <= hi
    ensures lo <= Mean(s) <= hi
  {
    SumBounds(s, lo, hi);
    DivideBounds(Sum(s), |s| as real, lo, hi);
  }
}
