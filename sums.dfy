/**
 * Running sums over a list of element values, as the N-element series and
 * parallel calculators accumulate them (a `for` loop adding into `sum`, or a
 * `reduce` that starts at 0). A sum is taken left to right, so the sum of a
 * prefix extends to the sum of the next prefix by one addition.
 */
module Sums {

  /** The sum of f(v) over the values of s, accumulated from the left. */
  function SumOf(s: seq<real>, f: real -> real): real
  {
    if s == [] then 0.0 else SumOf(s[..|s| - 1], f) + f(s[|s| - 1])
  }

  function Identity(v: real): real { v }

  /**
   * 1/v. The zero case is never reached: every calculator that takes
   * reciprocals requires non-zero values, because IEEE infinity is not modelled.
   */
  function Reciprocal(v: real): real
  {
    if v == 0.0 then 0.0 else 1.0 / v
  }

  /** Σ values, the result of `values.reduce((sum, value) => sum + value, 0)`. */
  function Sum(values: seq<real>): real
  {
    SumOf(values, Identity)
  }

  /** Σ 1/values[k]. */
  function SumOfReciprocals(values: seq<real>): real
  {
    SumOf(values, Reciprocal)
  }

  predicate AllNonZero(values: seq<real>)
  {
    forall k | 0 <= k < |values| :: values[k] != 0.0
  }

  predicate AllPositive(values: seq<real>)
  {
    forall k | 0 <= k < |values| :: values[k] > 0.0
  }

  /** The reciprocal combination 1 / Σ(1/values[k]) used for series capacitors and parallel inductors. */
  function ReciprocalTotal(values: seq<real>): (total: real)
    requires AllNonZero(values) && SumOfReciprocals(values) != 0.0
    ensures total * SumOfReciprocals(values) == 1.0
  {
    1.0 / SumOfReciprocals(values)
  }

  /** Sums split over concatenation. */
  lemma {:induction false} SumOfAppend(a: seq<real>, b: seq<real>, f: real -> real)
    ensures SumOf(a + b, f) == SumOf(a, f) + SumOf(b, f)
    decreases |b|
  {
    if b == [] {
      assert a + b == a;
    } else {
      var b' := b[..|b| - 1];
      assert (a + b)[..|a + b| - 1] == a + b';
      SumOfAppend(a, b', f);
    }
  }

  /** Appending one value adds its term. */
  lemma SumOfSnoc(s: seq<real>, v: real, f: real -> real)
    ensures SumOf(s + [v], f) == SumOf(s, f) + f(v)
  {
    assert (s + [v])[..|s|] == s;
  }

  /** Reordering the values does not change the sum. */
  lemma {:induction false} SumOfPermutation(a: seq<real>, b: seq<real>, f: real -> real)
    requires multiset(a) == multiset(b)
    ensures SumOf(a, f) == SumOf(b, f)
    decreases |a|
  {
    if a == [] {
      assert |b| == |multiset(b)| == 0;
    } else {
      var last := a[|a| - 1];
      var a' := a[..|a| - 1];
      assert a == a' + [last];
      assert last in multiset(b);
      var k :| 0 <= k < |b| && b[k] == last;
      var b' := b[..k] + b[k + 1..];
      MultisetRemove(b, k);
      assert multiset(a) == multiset(a') + multiset{last};
      MultisetCancel(multiset(a'), multiset(b'), last);
      SumOfPermutation(a', b', f);
      SumOfRemove(b, k, f);
    }
  }

  lemma MultisetCancel(x: multiset<real>, y: multiset<real>, v: real)
    requires x + multiset{v} == y + multiset{v}
    ensures x == y
  {
    forall e ensures x[e] == y[e] {
      assert (x + multiset{v})[e] == (y + multiset{v})[e];
    }
  }

  lemma MultisetRemove(b: seq<real>, k: nat)
    requires k < |b|
    ensures multiset(b) == multiset(b[..k] + b[k + 1..]) + multiset{b[k]}
  {
    assert b == b[..k] + [b[k]] + b[k + 1..];
  }

  /** Taking out the k-th value takes its term out of the sum. */
  lemma SumOfRemove(b: seq<real>, k: nat, f: real -> real)
    requires k < |b|
    ensures SumOf(b, f) == SumOf(b[..k] + b[k + 1..], f) + f(b[k])
  {
    var pre, v, post := b[..k], b[k], b[k + 1..];
    calc {
      SumOf(b, f);
    == { assert b == (pre + [v]) + post; }
      SumOf((pre + [v]) + post, f);
    == { SumOfAppend(pre + [v], post, f); }
      SumOf(pre + [v], f) + SumOf(post, f);
    == { SumOfSnoc(pre, v, f); }
      SumOf(pre, f) + f(v) + SumOf(post, f);
    == { SumOfAppend(pre, post, f); }
      SumOf(pre + post, f) + f(v);
    }
  }

  /** With every value equal to c, the sum is |s| times f(c). */
  lemma {:induction false} SumOfConstant(s: seq<real>, c: real, f: real -> real)
    requires forall k | 0 <= k < |s| :: s[k] == c
    ensures SumOf(s, f) == |s| as real * f(c)
    decreases |s|
  {
    if s != [] {
      SumOfConstant(s[..|s| - 1], c, f);
    }
  }

  /** For positive values, each reciprocal is at most the sum of reciprocals, which is positive. */
  lemma {:induction false} ReciprocalSumBounds(values: seq<real>, k: nat)
    requires AllPositive(values) && k < |values|
    ensures 0.0 < 1.0 / values[k] <= SumOfReciprocals(values)
    decreases |values|
  {
    var n := |values|;
    var init := values[..n - 1];
    assert SumOfReciprocals(values) == SumOfReciprocals(init) + 1.0 / values[n - 1];
    NonNegativeReciprocalSum(init);
    if k < n - 1 {
      ReciprocalSumBounds(init, k);
    }
  }

  lemma {:induction false} NonNegativeReciprocalSum(values: seq<real>)
    requires AllPositive(values)
    ensures SumOfReciprocals(values) >= 0.0
    decreases |values|
  {
    if values != [] {
      NonNegativeReciprocalSum(values[..|values| - 1]);
    }
  }

  /** N equal non-zero elements combine reciprocally to c/N. */
  lemma ReciprocalTotalOfEqual(values: seq<real>, c: real)
    requires values != [] && c != 0.0
    requires forall k | 0 <= k < |values| :: values[k] == c
    ensures AllNonZero(values) && SumOfReciprocals(values) != 0.0
    ensures ReciprocalTotal(values) == c / |values| as real
  {
    SumOfConstant(values, c, Reciprocal);
    var n := |values| as real;
    assert SumOfReciprocals(values) == n * (1.0 / c);
  }

  /** Positive elements combine reciprocally to a positive total no larger than any one of them. */
  lemma ReciprocalTotalBounds(values: seq<real>)
    requires values != [] && AllPositive(values)
    ensures SumOfReciprocals(values) > 0.0
    ensures 0.0 < ReciprocalTotal(values)
    ensures forall k | 0 <= k < |values| :: ReciprocalTotal(values) <= values[k]
  {
    ReciprocalSumBounds(values, 0);
    var s := SumOfReciprocals(values);
    forall k | 0 <= k < |values| ensures 1.0 / s <= values[k] {
      ReciprocalSumBounds(values, k);
      InverseAntitone(values[k], s);
    }
  }

  lemma InverseAntitone(v: real, s: real)
    requires v > 0.0 && 1.0 / v <= s
    ensures 1.0 / s <= v
  {
    assert s > 0.0;
    assert v * s >= v * (1.0 / v) == 1.0;
  }
}
