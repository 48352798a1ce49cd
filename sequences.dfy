/** Order facts about lists that several modules share. */
module Sequences {
  /**
   * `small` is `big` with some elements left out: the elements `small`
   * keeps appear in `big` in the same relative order.
   */
  predicate SubseqOf<T(==)>(small: seq<T>, big: seq<T>)
    decreases |big|
  {
    small == [] || (big != [] && ((small[0] == big[0] && SubseqOf(small[1..], big[1..])) || SubseqOf(small, big[1..])))
  }

  lemma {:induction false} SubseqOfSelf<T>(xs: seq<T>)
    ensures SubseqOf(xs, xs)
  {
    if xs != [] {
      SubseqOfSelf(xs[1..]);
    }
  }

  /** Leaving out elements twice leaves them out once. */
  lemma {:induction false} SubseqOfTrans<T>(a: seq<T>, b: seq<T>, c: seq<T>)
    requires SubseqOf(a, b) && SubseqOf(b, c)
    ensures SubseqOf(a, c)
    decreases |c|
  {
    if a != [] {
      assert b != [] && c != [];
      if b[0] == c[0] && SubseqOf(b[1..], c[1..]) {
        if a[0] == b[0] && SubseqOf(a[1..], b[1..]) {
          SubseqOfTrans(a[1..], b[1..], c[1..]);
        } else {
          SubseqOfTrans(a, b[1..], c[1..]);
        }
      } else {
        SubseqOfTrans(a, b, c[1..]);
      }
    }
  }

  /** Putting the same element in front of both keeps the order. */
  lemma SubseqOfCons<T>(x: T, small: seq<T>, big: seq<T>)
    requires SubseqOf(small, big)
    ensures SubseqOf([x] + small, [x] + big)
  {
    assert ([x] + small)[1..] == small && ([x] + big)[1..] == big;
  }

  /** Leaving out the head of `big`. */
  lemma SubseqOfSkip<T>(x: T, small: seq<T>, big: seq<T>)
    requires SubseqOf(small, big)
    ensures SubseqOf(small, [x] + big)
  {
    assert ([x] + big)[1..] == big;
  }

  /** The position of the first occurrence of `x`. */
  function FirstPos<T(==)>(xs: seq<T>, x: T): (i: nat)
    requires x in xs
    ensures i < |xs| && xs[i] == x && x !in xs[..i]
  {
    if xs[0] == x then 0
    else
      var i := FirstPos(xs[1..], x) + 1;
      assert xs[..i] == [xs[0]] + xs[1..][..i - 1];
      i
  }
}
