/** The power calculators: P from V and I, from I and R, from V and R; energy; efficiency. */
module Power {
  import opened RealArith

  /** P = V × I. */
  function PowerVI(voltage: real, current: real): real
  {
    voltage * current
  }

  /** P = I² × R. */
  function PowerI2R(current: real, resistance: real): real
  {
    Square(current) * resistance
  }

  /** P = V² / R. */
  function PowerV2R(voltage: real, resistance: real): real
    requires resistance != 0.0
  {
    Square(voltage) / resistance
  }

  /** E = P × t. */
  function Energy(power: real, time: real): real
  {
    power * time
  }

  /** η = Pout / Pin × 100: the percentage of the input power that is delivered. */
  function Efficiency(powerOut: real, powerIn: real): (eta: real)
    requires powerIn != 0.0
    ensures eta * powerIn == 100.0 * powerOut
  {
    (powerOut / powerIn) * 100.0
  }

  /** Dissipation in a non-negative resistance is never negative. */
  lemma DissipationNonNegative(current: real, resistance: real)
    requires resistance >= 0.0
    ensures PowerI2R(current, resistance) >= 0.0
  {
    SquareNonNegative(current);
    NonNegativeProduct(Square(current), resistance);
  }

  /** With V = I·R and R ≠ 0 the three power formulas agree. */
  lemma PowerFormulasAgree(voltage: real, current: real, resistance: real)
    requires resistance != 0.0 && voltage == current * resistance
    ensures PowerVI(voltage, current) == PowerI2R(current, resistance)
    ensures PowerI2R(current, resistance) == PowerV2R(voltage, resistance)
  {
    assert Square(voltage) == Square(current) * resistance * resistance;
  }

  /** Energy is linear in time: running twice as long uses twice the energy. */
  lemma EnergyAdditiveInTime(power: real, t1: real, t2: real)
    ensures Energy(power, t1 + t2) == Energy(power, t1) + Energy(power, t2)
  {
  }

  /** Delivering all of a non-zero input gives 100 %. */
  lemma FullEfficiency(power: real)
    requires power != 0.0
    ensures Efficiency(power, power) == 100.0
  {
  }

  /** 0 ≤ Pout ≤ Pin with Pin > 0 gives an efficiency between 0 and 100 %. */
  lemma EfficiencyBounded(powerOut: real, powerIn: real)
    requires powerIn > 0.0 && 0.0 <= powerOut <= powerIn
    ensures 0.0 <= Efficiency(powerOut, powerIn) <= 100.0
  {
    var eta := Efficiency(powerOut, powerIn);
    assert eta * powerIn == 100.0 * powerOut;
    assert eta * powerIn <= 100.0 * powerIn;
  }
}
