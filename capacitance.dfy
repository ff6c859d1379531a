/**
 * The capacitance calculators: C from charge and voltage, N capacitors in
 * series (a loop summing reciprocals) and in parallel (a reduce), and the
 * energy a capacitor stores.
 */
module Capacitance {
  import opened Sums
  import opened RealArith

  /** C = Q / V: the capacitance that holds charge Q at voltage V. */
  function Capacitance(charge: real, voltage: real): (c: real)
    requires voltage != 0.0
    ensures c * voltage == charge
  {
    charge / voltage
  }

  /**
   * 1/C = Σ 1/Ci. The loop keeps `sum` equal to the sum of the reciprocals of
   * the values seen so far and returns 1/sum.
   */
  method CapacitorsSeries(values: seq<real>) returns (total: real)
    requires AllNonZero(values) && SumOfReciprocals(values) != 0.0
    ensures total == ReciprocalTotal(values)
  {
    var sum := 0.0;
    for i := 0 to |values|
      invariant sum == SumOfReciprocals(values[..i])
    {
      assert values[..i + 1][..i] == values[..i];
      sum := sum + 1.0 / values[i];
    }
    assert values[..|values|] == values;
    total := 1.0 / sum;
  }

  /** C = Σ Ci, the reduce from 0. */
  function CapacitorsParallel(values: seq<real>): real
  {
    Sum(values)
  }

  /** E = 0.5 × C × V². */
  function EnergyCapacitor(capacitance: real, voltage: real): real
  {
    0.5 * capacitance * Square(voltage)
  }

  /** No capacitors in parallel add up to nothing. */
  lemma ParallelOfNone()
    ensures CapacitorsParallel([]) == 0.0
  {
  }

  /** N equal capacitors C ≠ 0: C/N in series, N × C in parallel. */
  lemma EqualCapacitors(values: seq<real>, c: real)
    requires values != [] && c != 0.0
    requires forall k | 0 <= k < |values| :: values[k] == c
    ensures AllNonZero(values) && SumOfReciprocals(values) != 0.0
    ensures ReciprocalTotal(values) == c / |values| as real
    ensures CapacitorsParallel(values) == |values| as real * c
  {
    ReciprocalTotalOfEqual(values, c);
    SumOfConstant(values, c, Identity);
  }

  /** Positive capacitors in series give a positive total no larger than the smallest of them. */
  lemma SeriesBelowSmallest(values: seq<real>)
    requires values != [] && AllPositive(values)
    ensures AllNonZero(values) && SumOfReciprocals(values) != 0.0
    ensures 0.0 < ReciprocalTotal(values)
    ensures forall k | 0 <= k < |values| :: ReciprocalTotal(values) <= values[k]
  {
    ReciprocalTotalBounds(values);
  }

  /** Stored energy is non-negative for C ≥ 0 and does not depend on the sign of V. */
  lemma EnergyCapacitorSign(capacitance: real, voltage: real)
    requires capacitance >= 0.0
    ensures EnergyCapacitor(capacitance, voltage) >= 0.0
    ensures EnergyCapacitor(capacitance, -voltage) == EnergyCapacitor(capacitance, voltage)
  {
    SquareNonNegative(voltage);
    NonNegativeProduct(0.5 * capacitance, Square(voltage));
    SquareOfNegation(voltage);
  }
}
