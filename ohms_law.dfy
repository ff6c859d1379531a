/**
 * The Ohm's-law calculators: voltage, current and resistance from the other
 * two quantities, and the total of two or three resistors in series or in
 * parallel. Division by zero (IEEE infinity) is excluded by preconditions.
 */
module OhmsLaw {
  import opened Wrappers
  import Sums

  /** V = I × R. */
  function Voltage(current: real, resistance: real): real
  {
    current * resistance
  }

  /** I = V / R: the current that the resistance carries at that voltage. */
  function Current(voltage: real, resistance: real): (i: real)
    requires resistance != 0.0
    ensures Voltage(i, resistance) == voltage
  {
    voltage / resistance
  }

  /** R = V / I: the resistance that carries that current at that voltage. */
  function Resistance(voltage: real, current: real): (r: real)
    requires current != 0.0
    ensures Voltage(current, r) == voltage
  {
    voltage / current
  }

  /**
   * The optional third resistor as JavaScript's `inputs.r3 || 0` reads it:
   * an absent field and a zero field are both falsy.
   */
  predicate Present(r3: Option<real>)
  {
    r3.Some? && r3.value != 0.0
  }

  /** R1 + R2 + (R3 || 0). */
  function ResistorsSeries(r1: real, r2: real, r3: Option<real>): real
  {
    r1 + r2 + (if Present(r3) then r3.value else 0.0)
  }

  /** 1/R1 + 1/R2, plus 1/R3 only when R3 is present and non-zero. */
  function ParallelConductance(r1: real, r2: real, r3: Option<real>): real
    requires r1 != 0.0 && r2 != 0.0
  {
    var sum := 1.0 / r1 + 1.0 / r2;
    if Present(r3) then sum + 1.0 / r3.value else sum
  }

  /** 1 / (1/R1 + 1/R2 [+ 1/R3]): the resistance whose conductance is the sum of the branch conductances. */
  function ResistorsParallel(r1: real, r2: real, r3: Option<real>): (total: real)
    requires r1 != 0.0 && r2 != 0.0 && ParallelConductance(r1, r2, r3) != 0.0
    ensures total * ParallelConductance(r1, r2, r3) == 1.0
  {
    1.0 / ParallelConductance(r1, r2, r3)
  }

  /** Current(Voltage(I, R), R) == I. */
  lemma CurrentOfVoltage(current: real, resistance: real)
    requires resistance != 0.0
    ensures Current(Voltage(current, resistance), resistance) == current
  {
  }

  /** Resistance(V, Current(V, R)) == R. */
  lemma ResistanceOfCurrent(voltage: real, resistance: real)
    requires voltage != 0.0 && resistance != 0.0
    ensures Current(voltage, resistance) != 0.0
    ensures Resistance(voltage, Current(voltage, resistance)) == resistance
  {
    var i := Current(voltage, resistance);
    assert i * resistance == voltage;
  }

  /** A missing or zero R3 leaves both totals those of R1 and R2 alone. */
  lemma AbsentThirdResistor(r1: real, r2: real, r3: Option<real>)
    requires r3 == None || r3 == Some(0.0)
    ensures ResistorsSeries(r1, r2, r3) == r1 + r2
    ensures r1 != 0.0 && r2 != 0.0 ==> ParallelConductance(r1, r2, r3) == 1.0 / r1 + 1.0 / r2
  {
  }

  /** Two equal resistors: 2R in series, R/2 in parallel. */
  lemma EqualResistors(r: real)
    requires r != 0.0
    ensures ResistorsSeries(r, r, None) == 2.0 * r
    ensures ParallelConductance(r, r, None) != 0.0
    ensures ResistorsParallel(r, r, None) == r / 2.0
  {
  }

  /** The two- and three-resistor parallel entry is the N-element reciprocal combination of its present resistors. */
  lemma ParallelIsReciprocalTotal(r1: real, r2: real, r3: Option<real>)
    requires r1 != 0.0 && r2 != 0.0 && ParallelConductance(r1, r2, r3) != 0.0
    ensures var rs := if Present(r3) then [r1, r2, r3.value] else [r1, r2];
            Sums.AllNonZero(rs) && Sums.SumOfReciprocals(rs) != 0.0 &&
            ResistorsParallel(r1, r2, r3) == Sums.ReciprocalTotal(rs)
  {
    var rs := if Present(r3) then [r1, r2, r3.value] else [r1, r2];
    ConductanceOfPresentResistors(r1, r2, r3);
    assert Sums.AllNonZero(rs);
  }

  /** The summed conductance is Σ 1/r over the resistors actually present. */
  lemma ConductanceOfPresentResistors(r1: real, r2: real, r3: Option<real>)
    requires r1 != 0.0 && r2 != 0.0
    ensures Sums.SumOfReciprocals(if Present(r3) then [r1, r2, r3.value] else [r1, r2])
            == ParallelConductance(r1, r2, r3)
  {
    var pair := [r1, r2];
    calc {
      Sums.SumOfReciprocals(pair);
    == { assert pair == [r1] + [r2]; Sums.SumOfSnoc([r1], r2, Sums.Reciprocal); }
      Sums.SumOfReciprocals([r1]) + Sums.Reciprocal(r2);
    == { assert [r1] == [] + [r1]; Sums.SumOfSnoc([], r1, Sums.Reciprocal); }
      Sums.Reciprocal(r1) + Sums.Reciprocal(r2);
    == 
      1.0 / r1 + 1.0 / r2;
    }
    if Present(r3) {
      assert [r1, r2, r3.value] == pair + [r3.value];
      Sums.SumOfSnoc(pair, r3.value, Sums.Reciprocal);
    }
  }

  /** Positive resistors in parallel give a positive total smaller than each of them. */
  lemma ParallelBelowEachResistor(r1: real, r2: real, r3: Option<real>)
    requires r1 > 0.0 && r2 > 0.0
    requires r3.Some? ==> r3.value >= 0.0
    ensures ParallelConductance(r1, r2, r3) > 0.0
    ensures 0.0 < ResistorsParallel(r1, r2, r3)
    ensures ResistorsParallel(r1, r2, r3) < r1 && ResistorsParallel(r1, r2, r3) < r2
    ensures Present(r3) ==> ResistorsParallel(r1, r2, r3) < r3.value
  {
    var g := ParallelConductance(r1, r2, r3);
    var g1, g2 := 1.0 / r1, 1.0 / r2;
    assert g1 > 0.0 && g2 > 0.0;
    var g3 := if Present(r3) then 1.0 / r3.value else 0.0;
    assert g3 >= 0.0;
    assert g == g1 + g2 + g3;
    var t := ResistorsParallel(r1, r2, r3);
    assert t * g == 1.0;
    assert t > 0.0;
    BelowBranch(r1, g1, t, g);
    BelowBranch(r2, g2, t, g);
    if Present(r3) {
      BelowBranch(r3.value, g3, t, g);
    }
  }

  /** A branch of conductance 1/r in a total conductance g > 1/r leaves the total resistance 1/g below r. */
  lemma BelowBranch(r: real, branch: real, t: real, g: real)
    requires r > 0.0 && branch == 1.0 / r && g > branch && t > 0.0 && t * g == 1.0
    ensures t < r
  {
    assert r * branch == 1.0;
    assert t * g == r * branch;
    assert t * branch < t * g;
    assert t * branch < r * branch;
  }
}
