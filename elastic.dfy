/**
 * `isotropic_stiffness`: the three stiffness constants _11, _12, _44 of an isotropic
 * material from its Young's modulus E and Poisson ratio ν,
 *
 *   _11 = E (1 - ν) / D,   _12 = E ν / D,   _44 = (E (1 - 2ν) / D) / 2,   D = (1 + ν)(1 - 2ν).
 *
 * A zero denominator (ν = -1 or ν = 1/2) raises a division error, modelled as Failure.
 */
module Elastic {
  import opened Wrappers
  import opened Tensors
  import opened Rotation
  import opened Rotate
  import opened Cubic
  import opened Invariance
  import opened ClosedForm

  /** The error of a zero denominator. */
  datatype StiffnessError = DivisionByZero

  /** The stiffness constants (_11, _12, _44). */
  datatype Constants = Constants(c11: real, c12: real, c44: real)

  /** The common denominator (1 + ν)(1 - 2ν). */
  function Denominator(nu: real): real {
    (1.0 + nu) * (1.0 - 2.0 * nu)
  }

  function IsotropicStiffness(e: real, nu: real): (r: Result<Constants, StiffnessError>)
    ensures r.Failure? <==> nu == -1.0 || nu == 0.5
  {
    var den := Denominator(nu);
    if den == 0.0 then Failure(DivisionByZero)
    else Success(Constants(e * (1.0 - nu) / den, e * nu / den, (e * (1.0 - 2.0 * nu) / den) / 2.0))
  }

  /**
   * The constants are those of an isotropic solid: _11 - _12 = 2 _44, the ratio
   * _12 / _11 = ν / (1 - ν), and _44 is the shear modulus E / (2 (1 + ν)).
   */
  lemma IsotropicRelations(e: real, nu: real)
    requires nu != -1.0 && nu != 0.5
    ensures var k := IsotropicStiffness(e, nu).value;
      && k.c11 - k.c12 == 2.0 * k.c44
      && k.c11 * nu == k.c12 * (1.0 - nu)
      && (nu != 0.0 ==> k.c11 == k.c12 * (1.0 - nu) / nu)
      && k.c44 == e / (2.0 * (1.0 + nu))
  {
    var den := Denominator(nu);
    var k := IsotropicStiffness(e, nu).value;
    Quotients(e, nu, den);
    if nu != 0.0 {
      assert k.c12 * (1.0 - nu) / nu == k.c11 * nu / nu;
    }
  }

  /** The three quotients over the denominator, related. */
  lemma Quotients(e: real, nu: real, den: real)
    requires den == (1.0 + nu) * (1.0 - 2.0 * nu) && den != 0.0
    ensures e * (1.0 - nu) / den - e * nu / den == 2.0 * ((e * (1.0 - 2.0 * nu) / den) / 2.0)
    ensures e * (1.0 - nu) / den * nu == e * nu / den * (1.0 - nu)
    ensures (e * (1.0 - 2.0 * nu) / den) / 2.0 == e / (2.0 * (1.0 + nu))
  {
    var g, h := 1.0 + nu, 1.0 - 2.0 * nu;
    var x := e * h / den;
    assert x * den == e * h;
    assert (x * g - e) * h == 0.0;
    assert x * g == e;
  }

  /**
   * Rotating the expanded constants of an isotropic solid by any orthonormal matrix, and
   * then writing the closed form over the result, returns the expanded tensor unchanged.
   */
  lemma IsotropicStiffnessInvariant(e: real, nu: real, m: Matrix, ang: Angle)
    requires nu != -1.0 && nu != 0.5 && Orthonormal(m)
    ensures var k := IsotropicStiffness(e, nu).value;
      && Rotated(Isotropic(k.c11, k.c12, k.c44), m) == Isotropic(k.c11, k.c12, k.c44)
      && Override(Rotated(Isotropic(k.c11, k.c12, k.c44), m), k.c11, k.c12, k.c44, ang) == Isotropic(k.c11, k.c12, k.c44)
  {
    var k := IsotropicStiffness(e, nu).value;
    IsotropicRelations(e, nu);
    IsotropicInvariant(k.c11, k.c12, k.c44, m);
    OverrideIsotropic(k.c11, k.c12, k.c44, m, ang);
  }
}
