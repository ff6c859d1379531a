/** The electrical-machine calculators: DC motor torque, slip, synchronous speed, referred rotor resistance, starting torque. */
module ElectricalMachines {
  import opened RealArith

  /** T = kΦ × Ia. */
  function Torque(fluxConstant: real, armatureCurrent: real): real
  {
    fluxConstant * armatureCurrent
  }

  /** s = (Ns − Nr) / Ns × 100, in percent. */
  function Slip(syncSpeed: real, rotorSpeed: real): (s: real)
    requires syncSpeed != 0.0
    ensures s * syncSpeed == 100.0 * (syncSpeed - rotorSpeed)
  {
    ((syncSpeed - rotorSpeed) / syncSpeed) * 100.0
  }

  /** Ns = 120 × f / P, in rpm. */
  function SynchronousSpeed(frequency: real, poles: real): (ns: real)
    requires poles != 0.0
    ensures ns * poles == 120.0 * frequency
  {
    (120.0 * frequency) / poles
  }

  /** R2' = R2 × a². */
  function ReferredResistance(rotorResistance: real, turnsRatio: real): real
  {
    rotorResistance * Square(turnsRatio)
  }

  /** Tst = 3 V² R2' / (ωs (R1 + R2')²). */
  function StartingTorque(voltage: real, rotorResistance: real, statorResistance: real, syncSpeed: real): real
    requires syncSpeed != 0.0 && statorResistance + rotorResistance != 0.0
  {
    var z := statorResistance + rotorResistance;
    SquarePositive(z);
    NonZeroProduct(syncSpeed, Square(z));
    (3.0 * Square(voltage) * rotorResistance) / (syncSpeed * Square(z))
  }

  /** Torque is linear in the armature current. */
  lemma TorqueLinear(fluxConstant: real, i1: real, i2: real, c: real)
    ensures Torque(fluxConstant, i1 + i2) == Torque(fluxConstant, i1) + Torque(fluxConstant, i2)
    ensures Torque(fluxConstant, c * i1) == c * Torque(fluxConstant, i1)
  {
  }

  /** A rotor at synchronous speed has no slip; a stalled rotor has 100 % slip. */
  lemma SlipExtremes(syncSpeed: real)
    requires syncSpeed != 0.0
    ensures Slip(syncSpeed, syncSpeed) == 0.0
    ensures Slip(syncSpeed, 0.0) == 100.0
  {
  }

  /** Doubling the number of poles halves the synchronous speed. */
  lemma DoublePolesHalveSpeed(frequency: real, poles: real)
    requires poles != 0.0
    ensures SynchronousSpeed(frequency, 2.0 * poles) == SynchronousSpeed(frequency, poles) / 2.0
  {
    var n1 := SynchronousSpeed(frequency, poles);
    var n2 := SynchronousSpeed(frequency, 2.0 * poles);
    assert n2 * (2.0 * poles) == n1 * poles;
  }

  /** A unity turns ratio (either sign) refers R2 unchanged; the referred value is non-negative for R2 ≥ 0. */
  lemma ReferredResistanceProperties(rotorResistance: real, turnsRatio: real)
    ensures ReferredResistance(rotorResistance, 1.0) == rotorResistance
    ensures ReferredResistance(rotorResistance, -1.0) == rotorResistance
    ensures rotorResistance >= 0.0 ==> ReferredResistance(rotorResistance, turnsRatio) >= 0.0
  {
    SquareNonNegative(turnsRatio);
    if rotorResistance >= 0.0 {
      NonNegativeProduct(rotorResistance, Square(turnsRatio));
    }
  }

  /** With a non-zero voltage, positive referred resistance and positive synchronous speed, the starting torque is positive. */
  lemma StartingTorquePositive(voltage: real, rotorResistance: real, statorResistance: real, syncSpeed: real)
    requires voltage != 0.0 && rotorResistance > 0.0 && syncSpeed > 0.0
    requires statorResistance + rotorResistance != 0.0
    ensures StartingTorque(voltage, rotorResistance, statorResistance, syncSpeed) > 0.0
  {
    var z := statorResistance + rotorResistance;
    SquarePositive(voltage);
    SquarePositive(z);
    PositiveProduct(3.0 * Square(voltage), rotorResistance);
    PositiveProduct(syncSpeed, Square(z));
    PositiveQuotient(3.0 * Square(voltage) * rotorResistance, syncSpeed * Square(z));
  }
}
