/** `sum` and the `mean` helper over lists of whole seconds, with exact real division. */
module Stats {

  predicate NonNegative(xs: seq<int>) {
    forall i :: 0 <= i < |xs| ==> xs[i] >= 0
  }

  /** Python's `sum` over a list of integers. */
  function Sum(xs: seq<int>): (s: int)
    ensures NonNegative(xs) ==> s >= 0
  {
    if |xs| == 0 then 0 else xs[0] + Sum(xs[1..])
  }

  /**
    `mean`: the arithmetic mean, 0 for an empty list. Python divides floats;
    the model divides exactly.
  */
  function Mean(xs: seq<int>): (m: real)
    ensures |xs| == 0 ==> m == 0.0
    ensures |xs| > 0 ==> m * (|xs| as real) == Sum(xs) as real
  {
    if |xs| > 0 then Sum(xs) as real / |xs| as real else 0.0
  }

  function Min(xs: seq<int>): int
    requires |xs| > 0
  {
    if |xs| == 1 then xs[0] else var m := Min(xs[1..]); if xs[0] <= m then xs[0] else m
  }

  function Max(xs: seq<int>): int
    requires |xs| > 0
  {
    if |xs| == 1 then xs[0] else var m := Max(xs[1..]); if xs[0] >= m then xs[0] else m
  }

  lemma {:induction false} SumAppend(a: seq<int>, b: seq<int>)
    ensures Sum(a + b) == Sum(a) + Sum(b)
  {
    if |a| == 0 {
      assert a + b == b;
    } else {
      assert (a + b)[1..] == a[1..] + b;
      SumAppend(a[1..], b);
    }
  }

  /** The sum does not depend on the order of the elements. */
  lemma {:induction false} SumPermutation(a: seq<int>, b: seq<int>)
    requires multiset(a) == multiset(b)
    ensures Sum(a) == Sum(b)
    decreases |a|
  {
    if |a| == 0 {
      assert |b| == |multiset(b)| == 0;
    } else {
      var x := a[0];
      assert x in multiset(b);
      var j :| 0 <= j < |b| && b[j] == x;
      var rest := b[..j] + b[j + 1..];
      assert b == b[..j] + [x] + b[j + 1..];
      assert multiset(b) == multiset(b[..j]) + multiset{x} + multiset(b[j + 1..]);
      assert multiset(rest) == multiset(b[..j]) + multiset(b[j + 1..]);
      assert a == [x] + a[1..];
      assert multiset(a) == multiset{x} + multiset(a[1..]);
      assert multiset(a[1..]) == multiset(a) - multiset{x};
      assert multiset(rest) == multiset(b) - multiset{x};
      SumPermutation(a[1..], rest);
      SumAppend(b[..j] + [x], b[j + 1..]);
      SumAppend(b[..j], [x]);
      SumAppend(b[..j], b[j + 1..]);
    }
  }

  /** Element-wise bounds bound the sum. */
  lemma {:induction false} SumBounds(xs: seq<int>, lo: int, hi: int)
    requires forall i :: 0 <= i < |xs| ==> lo <= xs[i] <= hi
    ensures lo * |xs| <= Sum(xs) <= hi * |xs|
  {
    if |xs| > 0 {
      SumBounds(xs[1..], lo, hi);
      assert lo * |xs| == lo + lo * |xs[1..]|;
      assert hi * |xs| == hi + hi * |xs[1..]|;
    }
  }

  /** A quotient by a positive divisor keeps bounds on the dividend. */
  lemma QuotientBounds(s: real, n: real, lo: real, hi: real)
    requires n > 0.0
    requires lo * n <= s <= hi * n
    ensures lo <= s / n <= hi
  {
  }

  /** Converting a product of integers to a real multiplies the converted factors. */
  lemma CastProduct(a: int, b: int)
    ensures (a * b) as real == (a as real) * (b as real)
  {
  }

  /** Integer bounds on a total over `k` items bound its real quotient by `k`. */
  lemma AverageBounds(total: int, k: int, lo: int, hi: int)
    requires k > 0
    requires lo * k <= total <= hi * k
    ensures lo as real <= total as real / k as real <= hi as real
  {
    CastProduct(lo, k);
    CastProduct(hi, k);
    QuotientBounds(total as real, k as real, lo as real, hi as real);
  }

  /** Element-wise bounds bound a non-empty mean. */
  lemma MeanWithin(xs: seq<int>, lo: int, hi: int)
    requires |xs| > 0
    requires forall i :: 0 <= i < |xs| ==> lo <= xs[i] <= hi
    ensures lo as real <= Mean(xs) <= hi as real
  {
    SumBounds(xs, lo, hi);
    AverageBounds(Sum(xs), |xs|, lo, hi);
  }

  lemma {:induction false} MinMaxBound(xs: seq<int>)
    requires |xs| > 0
    ensures forall i :: 0 <= i < |xs| ==> Min(xs) <= xs[i] <= Max(xs)
    ensures Min(xs) in xs && Max(xs) in xs
  {
    if |xs| > 1 {
      MinMaxBound(xs[1..]);
      forall i | 0 < i < |xs|
        ensures Min(xs) <= xs[i] <= Max(xs)
      {
        assert xs[i] == xs[1..][i - 1];
      }
    }
  }

  /** A non-empty mean lies between the smallest and the largest element. */
  lemma MeanBetweenExtremes(xs: seq<int>)
    requires |xs| > 0
    ensures Min(xs) as real <= Mean(xs) <= Max(xs) as real
  {
    MinMaxBound(xs);
    MeanWithin(xs, Min(xs), Max(xs));
  }

  /** The mean does not depend on the order of the elements. */
  lemma MeanPermutation(a: seq<int>, b: seq<int>)
    requires multiset(a) == multiset(b)
    ensures Mean(a) == Mean(b)
  {
    SumPermutation(a, b);
    assert |a| == |multiset(a)| == |multiset(b)| == |b|;
  }

  /** The mean of one element is that element. */
  lemma MeanSingleton(x: int)
    ensures Mean([x]) == x as real
  {
    assert [x][1..] == [];
    assert Sum([x]) == x;
  }

  /** The values the utility tests check. */
  lemma MeanExamples()
    ensures Mean([]) == 0.0
    ensures Mean([1, 2, 3]) == 2.0
    ensures Mean([-1, -2, -3]) == -2.0
  {
    assert Sum([1, 2, 3]) == 6 by {
      assert [1, 2, 3][1..] == [2, 3];
      assert [2, 3][1..] == [3];
      assert [3][1..] == [];
    }
    assert Sum([-1, -2, -3]) == -6 by {
      assert [-1, -2, -3][1..] == [-2, -3];
      assert [-2, -3][1..] == [-3];
      assert [-3][1..] == [];
    }
  }
}
