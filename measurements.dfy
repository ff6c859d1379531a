/** The measurement calculators: energy-meter constant, ammeter shunt and voltmeter multiplier. */
module Measurements {

  /** K = 3600 × N / (Eh × t). */
  function MeterConstant(revolutions: real, energy: real, time: real): (k: real)
    requires energy * time != 0.0
    ensures k * (energy * time) == 3600.0 * revolutions
  {
    (3600.0 * revolutions) / (energy * time)
  }

  /** Rs = Rm × Im / (I − Im). Nothing guards I = Im, so it is a precondition. */
  function ShuntResistance(meterResistance: real, meterCurrent: real, totalCurrent: real): real
    requires totalCurrent != meterCurrent
  {
    (meterResistance * meterCurrent) / (totalCurrent - meterCurrent)
  }

  /** Rm = V / Im − Ri. Nothing guards Im = 0, so it is a precondition. */
  function MultiplierResistance(voltage: real, current: real, internalResistance: real): real
    requires current != 0.0
  {
    (voltage / current) - internalResistance
  }

  /** The shunt carries the excess current I − Im at the meter's voltage Rm × Im. */
  lemma ShuntSharesMeterVoltage(meterResistance: real, meterCurrent: real, totalCurrent: real)
    requires totalCurrent != meterCurrent
    ensures ShuntResistance(meterResistance, meterCurrent, totalCurrent) * (totalCurrent - meterCurrent)
            == meterResistance * meterCurrent
  {
  }

  /** A positive meter resistance and current with I > Im need a positive shunt. */
  lemma ShuntPositive(meterResistance: real, meterCurrent: real, totalCurrent: real)
    requires meterResistance > 0.0 && meterCurrent > 0.0 && totalCurrent > meterCurrent
    ensures ShuntResistance(meterResistance, meterCurrent, totalCurrent) > 0.0
  {
    assert meterResistance * meterCurrent > 0.0;
  }

  /** The multiplier in series with the meter drops the full range voltage at full-scale current. */
  lemma MultiplierReachesRange(voltage: real, current: real, internalResistance: real)
    requires current != 0.0
    ensures (MultiplierResistance(voltage, current, internalResistance) + internalResistance) * current == voltage
  {
  }
}
