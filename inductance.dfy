/**
 * The inductance calculators: L from flux and current, N inductors in series
 * (a reduce) and in parallel (a loop summing reciprocals), and the energy an
 * inductor stores.
 */
module Inductance {
  import opened Sums
  import opened RealArith

  /** L = Φ / I: the inductance that links flux Φ at current I. */
  function Inductance(flux: real, current: real): (l: real)
    requires current != 0.0
    ensures l * current == flux
  {
    flux / current
  }

  /** L = Σ Li, the reduce from 0. */
  function InductorsSeries(values: seq<real>): real
  {
    Sum(values)
  }

  /**
   * 1/L = Σ 1/Li. The loop keeps `sum` equal to the sum of the reciprocals of
   * the values seen so far and returns 1/sum.
   */
  method InductorsParallel(values: seq<real>) returns (total: real)
    requires AllNonZero(values) && SumOfReciprocals(values) != 0.0
    ensures total == ReciprocalTotal(values)
  {
    var sum := 0.0;
    for i := 0 to |values|
      invariant sum == SumOfReciprocals(values[..i])
    {
      assert values[..i + 1][..i] == values[..i];
      sum := sum + 1.0 / values[i];
    }
    assert values[..|values|] == values;
    total := 1.0 / sum;
  }

  /** E = 0.5 × L × I². */
  function EnergyInductor(inductance: real, current: real): real
  {
    0.5 * inductance * Square(current)
  }

  /** The order in which the inductors are entered changes neither total. */
  lemma TotalsIgnoreOrder(a: seq<real>, b: seq<real>)
    requires multiset(a) == multiset(b)
    ensures InductorsSeries(a) == InductorsSeries(b)
    ensures SumOfReciprocals(a) == SumOfReciprocals(b)
    ensures AllNonZero(a) && SumOfReciprocals(a) != 0.0 ==>
              AllNonZero(b) && ReciprocalTotal(a) == ReciprocalTotal(b)
  {
    SumOfPermutation(a, b, Identity);
    SumOfPermutation(a, b, Reciprocal);
    forall k | 0 <= k < |b| ensures b[k] in multiset(a) {
      assert b[k] in multiset(b);
    }
  }

  /** N equal inductors L ≠ 0: N × L in series, L/N in parallel. */
  lemma EqualInductors(values: seq<real>, l: real)
    requires values != [] && l != 0.0
    requires forall k | 0 <= k < |values| :: values[k] == l
    ensures InductorsSeries(values) == |values| as real * l
    ensures AllNonZero(values) && SumOfReciprocals(values) != 0.0
    ensures ReciprocalTotal(values) == l / |values| as real
  {
    SumOfConstant(values, l, Identity);
    ReciprocalTotalOfEqual(values, l);
  }

  /** Stored energy is non-negative for L ≥ 0. */
  lemma EnergyInductorNonNegative(inductance: real, current: real)
    requires inductance >= 0.0
    ensures EnergyInductor(inductance, current) >= 0.0
  {
    SquareNonNegative(current);
    NonNegativeProduct(0.5 * inductance, Square(current));
  }
}
