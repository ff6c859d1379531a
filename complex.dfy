/**
 * Complex numbers in rectangular form (`{ real, imag }`) and the conversion
 * to polar form that the Y-Bus result uses. Square root, atan2 and π are
 * not part of real arithmetic, so the conversion takes them as parameters:
 * what is verified is which operations are applied to which parts.
 */
module Complex {
  import opened RealArith

  datatype Complex = Complex(re: real, im: real)

  const Zero := Complex(0.0, 0.0)
  const One := Complex(1.0, 0.0)

  function Add(a: Complex, b: Complex): Complex
  {
    Complex(a.re + b.re, a.im + b.im)
  }

  function Neg(a: Complex): Complex
  {
    Complex(-a.re, -a.im)
  }

  function Mul(a: Complex, b: Complex): Complex
  {
    Complex(a.re * b.re - a.im * b.im, a.re * b.im + a.im * b.re)
  }

  /** A number in polar form: a magnitude and an angle in degrees. */
  datatype Polar = Polar(magnitude: real, angle: real)

  /**
   * magnitude = sqrt(re² + im²), angle = atan2(im, re) × 180 / π.
   * `sqrt`, `atan2` and `pi` stand for `Math.sqrt`, `Math.atan2` and `Math.PI`.
   */
  function ToPolar(z: Complex, sqrt: real -> real, atan2: (real, real) -> real, pi: real): Polar
    requires pi != 0.0
  {
    Polar(sqrt(z.re * z.re + z.im * z.im), (atan2(z.im, z.re) * 180.0) / pi)
  }

  /** A square root that returns the non-negative root of a non-negative argument. */
  ghost predicate IsSquareRoot(sqrt: real -> real)
  {
    forall v: real :: v >= 0.0 ==> sqrt(v) >= 0.0 && sqrt(v) * sqrt(v) == v
  }

  /** The magnitude is the non-negative length of z: its square is re² + im². */
  lemma MagnitudeIsLength(z: Complex, sqrt: real -> real, atan2: (real, real) -> real, pi: real)
    requires pi != 0.0 && IsSquareRoot(sqrt)
    ensures ToPolar(z, sqrt, atan2, pi).magnitude >= 0.0
    ensures Square(ToPolar(z, sqrt, atan2, pi).magnitude) == z.re * z.re + z.im * z.im
  {
    var m := z.re * z.re + z.im * z.im;
    assert m >= 0.0 by {
      assert z.re * z.re >= 0.0 && z.im * z.im >= 0.0;
    }
  }

  /** The angle of the zero entry of an unreferenced bus is atan2(0, 0) scaled, which JavaScript gives as 0°. */
  lemma ZeroEntryAngle(sqrt: real -> real, atan2: (real, real) -> real, pi: real)
    requires pi != 0.0 && atan2(0.0, 0.0) == 0.0
    ensures ToPolar(Zero, sqrt, atan2, pi).angle == 0.0
  {
  }
}
