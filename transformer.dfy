/** The ideal-transformer calculators: secondary voltage and current, turns ratio, efficiency and power. */
module Transformer {
  import Power

  /** Vs = Vp × (Ns / Np). */
  function SecondaryVoltage(primaryVoltage: real, primaryTurns: real, secondaryTurns: real): real
    requires primaryTurns != 0.0
  {
    primaryVoltage * (secondaryTurns / primaryTurns)
  }

  /** Is = Ip × (Np / Ns). */
  function SecondaryCurrent(primaryCurrent: real, primaryTurns: real, secondaryTurns: real): real
    requires secondaryTurns != 0.0
  {
    primaryCurrent * (primaryTurns / secondaryTurns)
  }

  /** a = Vp / Vs: the voltage ratio that names the turns ratio. */
  function TurnsRatio(primaryVoltage: real, secondaryVoltage: real): (a: real)
    requires secondaryVoltage != 0.0
    ensures a * secondaryVoltage == primaryVoltage
  {
    primaryVoltage / secondaryVoltage
  }

  /** The transformer's efficiency entry is the same percentage as the power calculators' one. */
  function Efficiency(outputPower: real, inputPower: real): (eta: real)
    requires inputPower != 0.0
    ensures eta * inputPower == 100.0 * outputPower
  {
    Power.Efficiency(outputPower, inputPower)
  }

  /** P = V × I × cos φ. */
  function TransformerPower(voltage: real, current: real, powerFactor: real): real
  {
    voltage * current * powerFactor
  }

  /** The ideal transformer conserves apparent power: Vs × Is = Vp × Ip. */
  lemma PowerConserved(primaryVoltage: real, primaryCurrent: real, primaryTurns: real, secondaryTurns: real)
    requires primaryTurns != 0.0 && secondaryTurns != 0.0
    ensures SecondaryVoltage(primaryVoltage, primaryTurns, secondaryTurns)
              * SecondaryCurrent(primaryCurrent, primaryTurns, secondaryTurns)
            == primaryVoltage * primaryCurrent
  {
    assert (secondaryTurns / primaryTurns) * (primaryTurns / secondaryTurns) == 1.0;
  }

  /** Equal turns leave voltage and current unchanged. */
  lemma UnityRatio(primaryVoltage: real, primaryCurrent: real, turns: real)
    requires turns != 0.0
    ensures SecondaryVoltage(primaryVoltage, turns, turns) == primaryVoltage
    ensures SecondaryCurrent(primaryCurrent, turns, turns) == primaryCurrent
  {
  }

  /** The turns ratio recovered from the computed secondary voltage is Np / Ns. */
  lemma TurnsRatioOfSecondaryVoltage(primaryVoltage: real, primaryTurns: real, secondaryTurns: real)
    requires primaryVoltage != 0.0 && primaryTurns != 0.0 && secondaryTurns != 0.0
    ensures SecondaryVoltage(primaryVoltage, primaryTurns, secondaryTurns) != 0.0
    ensures TurnsRatio(primaryVoltage, SecondaryVoltage(primaryVoltage, primaryTurns, secondaryTurns))
            == primaryTurns / secondaryTurns
  {
    var vs := SecondaryVoltage(primaryVoltage, primaryTurns, secondaryTurns);
    assert vs * primaryTurns == primaryVoltage * secondaryTurns;
    var a := TurnsRatio(primaryVoltage, vs);
    assert a * vs == primaryVoltage;
    assert a * secondaryTurns * primaryVoltage == primaryTurns * primaryVoltage;
  }

  /** For every power factor, the transformer power is that fraction of the V × I product. */
  lemma PowerFactorScales(voltage: real, current: real, powerFactor: real)
    ensures TransformerPower(voltage, current, powerFactor) == powerFactor * Power.PowerVI(voltage, current)
    ensures 0.0 <= powerFactor <= 1.0 && Power.PowerVI(voltage, current) >= 0.0 ==>
              0.0 <= TransformerPower(voltage, current, powerFactor) <= Power.PowerVI(voltage, current)
  {
    var p := Power.PowerVI(voltage, current);
    if 0.0 <= powerFactor <= 1.0 && p >= 0.0 {
      assert powerFactor * p <= 1.0 * p;
      assert 0.0 <= powerFactor * p;
    }
  }

  /** With unity power factor the transformer power is the V × I product of the power calculators. */
  lemma UnityPowerFactor(voltage: real, current: real)
    ensures TransformerPower(voltage, current, 1.0) == Power.PowerVI(voltage, current)
  {
  }
}
