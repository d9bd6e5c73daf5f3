/**
 * The hand-derived closed form that `rotate_axis` writes over sixteen stiffness entries
 * after the kernel's write-back: the rotated values of the cubic pattern about the z axis,
 * as functions of the unrotated _11, _12, _44 and of cos 4θ and sin 4θ.
 *
 * cos 4θ and sin 4θ are computed from the angle's cosine c and sine s by the multiple-angle
 * formulas cos 4θ = 1 - 8c²s² and sin 4θ = 4cs(c² - s²).
 *
 * Two discrepancies with the kernel are stated and proved here: the closed form has the
 * sign of the _16 and _26 couplings reversed, and it is written over the kernel's output
 * whatever the axis. The corrected form fixes the sign and applies only about the z axis;
 * it then agrees with the kernel entry for entry.
 */
module ClosedForm {
  import opened Wrappers
  import opened Voigt
  import opened Tensors
  import opened Rotation
  import opened Rotate
  import opened Cubic
  import opened Invariance
  import opened ZRotation

  /** cos 4θ from the cosine and sine of θ. */
  function Cos4(ang: Angle): real {
    1.0 - 8.0 * CosSin2(ang)
  }

  /** sin 4θ from the cosine and sine of θ. */
  function Sin4(ang: Angle): real {
    4.0 * Twist(ang)
  }

  /** The pair (v, w) is one of the four shear couplings _16, _61, _26, _62. */
  predicate IsCoupling(v: VoigtIndex, w: VoigtIndex) {
    (v == 5 && w < 2) || (w == 5 && v < 2)
  }

  /**
   * The sixteen entries the closed form assigns, as written, from the unrotated a = _11,
   * b = _12, d = _44; None for the twenty entries it leaves to the kernel.
   */
  function OverrideValue(a: real, b: real, d: real, ang: Angle, v: VoigtIndex, w: VoigtIndex): Option<real> {
    var c4, s4 := Cos4(ang), Sin4(ang);
    if v < 2 && w == v then Some(0.25 * (a * (3.0 + c4) + (b + 2.0 * d) * (1.0 - c4)))
    else if v == 2 && w == 2 then Some(a)
    else if v < 2 && w < 2 then Some(0.25 * (b * (3.0 + c4) + (a - 2.0 * d) * (1.0 - c4)))
    else if v < 3 && w < 3 then Some(b)
    else if (v == 3 || v == 4) && w == v then Some(d)
    else if v == 5 && w == 5 then Some(0.25 * (2.0 * d * (1.0 + c4) + (a - b) * (1.0 - c4)))
    else if IsCoupling(v, w) && (v == 0 || w == 0) then Some(0.25 * s4 * (2.0 * d + b - a))
    else if IsCoupling(v, w) then Some(0.25 * s4 * (a - b - 2.0 * d))
    else None
  }

  /** The kernel's output r with the closed form written over it. */
  function Override(r: Tensor, a: real, b: real, d: real, ang: Angle): Tensor {
    seq(6, v requires 0 <= v < 6 => seq(6, w requires 0 <= w < 6 =>
      match OverrideValue(a, b, d, ang, v, w)
      case Some(x) => x
      case None => r[v][w]))
  }

  /** The entry [v][w] of the overridden tensor. */
  lemma OverrideAt(r: Tensor, a: real, b: real, d: real, ang: Angle, v: VoigtIndex, w: VoigtIndex)
    ensures Override(r, a, b, d, ang)[v][w]
         == match OverrideValue(a, b, d, ang, v, w) case Some(x) => x case None => r[v][w]
  {
  }

  /**
   * What the closed form keeps and carries over, whatever it is written on: _33 is the old
   * _11, the _13 family the old _12, _44 and _55 the old _44; _11 = _22, _12 = _21,
   * _16 = _61, _26 = _62; and every entry outside the sixteen keeps the kernel's value.
   */
  lemma OverrideCarries(r: Tensor, a: real, b: real, d: real, ang: Angle)
    ensures var t := Override(r, a, b, d, ang);
      && t[2][2] == a
      && t[0][2] == b && t[1][2] == b && t[2][0] == b && t[2][1] == b
      && t[3][3] == d && t[4][4] == d
      && t[0][0] == t[1][1] && t[0][1] == t[1][0]
      && t[0][5] == t[5][0] && t[1][5] == t[5][1]
    ensures forall v: VoigtIndex, w: VoigtIndex ::
      OverrideValue(a, b, d, ang, v, w).None? ==> Override(r, a, b, d, ang)[v][w] == r[v][w]
  {
    forall v: VoigtIndex, w: VoigtIndex | OverrideValue(a, b, d, ang, v, w).None?
      ensures Override(r, a, b, d, ang)[v][w] == r[v][w]
    {
      OverrideAt(r, a, b, d, ang, v, w);
    }
  }

  /** The closed form assigns exactly the upper-left 3 x 3 block, the diagonal and the four couplings. */
  lemma OverrideEntries(a: real, b: real, d: real, ang: Angle, v: VoigtIndex, w: VoigtIndex)
    ensures OverrideValue(a, b, d, ang, v, w).Some? <==> (v < 3 && w < 3) || v == w || IsCoupling(v, w)
  {
  }

  /** The upper-left 3 x 3 block's sum: _11 + _22 + _33 + 2 (_12 + _13 + _23) for a symmetric tensor. */
  function BlockSum(t: Tensor): real {
    t[0][0] + t[0][1] + t[0][2] + t[1][0] + t[1][1] + t[1][2] + t[2][0] + t[2][1] + t[2][2]
  }

  /** Whatever the angle, the closed form's block sums to 3 _11 + 6 _12. */
  lemma OverrideBlockSum(r: Tensor, a: real, b: real, d: real, ang: Angle)
    ensures BlockSum(Override(r, a, b, d, ang)) == 3.0 * a + 6.0 * b
  {
    OverrideCarries(r, a, b, d, ang);
    OverrideAt(r, a, b, d, ang, 0, 0);
    OverrideAt(r, a, b, d, ang, 0, 1);
    InPlanePair(a, b, d, Cos4(ang));
  }

  /** The in-plane _11 and _12 of the closed form add up to the unrotated _11 + _12. */
  lemma InPlanePair(a: real, b: real, d: real, c4: real)
    ensures 0.25 * (a * (3.0 + c4) + (b + 2.0 * d) * (1.0 - c4)) + 0.25 * (b * (3.0 + c4) + (a - 2.0 * d) * (1.0 - c4)) == a + b
  {
  }

  /** About the z axis the kernel's block sums to 3 _11 + 6 _12 as well. */
  lemma KernelBlockSum(a: real, b: real, d: real, ang: Angle)
    requires OnUnitCircle(ang)
    ensures BlockSum(Rotated(Isotropic(a, b, d), ZMatrix(ang))) == 3.0 * a + 6.0 * b
  {
    ZRotatedCubic(a, b, d, ang);
  }

  /**
   * As written, about the z axis: the closed form agrees with the kernel on every entry but
   * the four couplings, where it has the opposite sign.
   */
  lemma OverrideZ(a: real, b: real, d: real, ang: Angle)
    requires OnUnitCircle(ang)
    ensures var r := Rotated(Isotropic(a, b, d), ZMatrix(ang));
      forall v: VoigtIndex, w: VoigtIndex ::
        Override(r, a, b, d, ang)[v][w] == if IsCoupling(v, w) then -r[v][w] else r[v][w]
  {
    var r := Rotated(Isotropic(a, b, d), ZMatrix(ang));
    ZRotatedCubic(a, b, d, ang);
    forall v: VoigtIndex, w: VoigtIndex
      ensures Override(r, a, b, d, ang)[v][w] == if IsCoupling(v, w) then -r[v][w] else r[v][w]
    {
      OverrideAt(r, a, b, d, ang, v, w);
      OverrideZEntry(a, b, d, ang, v, w);
    }
  }

  /** The angle -θ: the same cosine, the opposite sine. */
  function Reversed(ang: Angle): Angle {
    Angle(ang.cos, -ang.sin)
  }

  /** The z matrix of -θ is the transpose of the z matrix of θ. */
  lemma ReversedTransposes(ang: Angle)
    ensures forall i: Cart, j: Cart :: ZMatrix(Reversed(ang))[i][j] == ZMatrix(ang)[j][i]
  {
  }

  /**
   * The other reading of the sign discrepancy: about the z axis the closed form as written
   * is exactly the kernel's rotation by -θ, that is, with the transposed matrix.
   */
  lemma OverrideZReversed(a: real, b: real, d: real, ang: Angle)
    requires OnUnitCircle(ang)
    ensures Override(Rotated(Isotropic(a, b, d), ZMatrix(ang)), a, b, d, ang) == Rotated(Isotropic(a, b, d), ZMatrix(Reversed(ang)))
  {
    var r := Rotated(Isotropic(a, b, d), ZMatrix(ang));
    var o, z := Override(r, a, b, d, ang), ZCubic(a, b, d, Reversed(ang));
    ReversedTerms(a, b, d, ang);
    OverrideZ(a, b, d, ang);
    ZRotatedCubic(a, b, d, ang);
    ZRotatedCubic(a, b, d, Reversed(ang));
    forall v: VoigtIndex
      ensures o[v] == z[v]
    {
      forall w: VoigtIndex
        ensures o[v][w] == z[v][w]
      {
        ZCubicReversed(a, b, d, ang, v, w);
      }
    }
  }

  /** Reversing the angle negates the couplings of the z closed form and keeps every other entry. */
  lemma ZCubicReversed(a: real, b: real, d: real, ang: Angle, v: VoigtIndex, w: VoigtIndex)
    ensures ZCubic(a, b, d, Reversed(ang))[v][w] == if IsCoupling(v, w) then -ZCubic(a, b, d, ang)[v][w] else ZCubic(a, b, d, ang)[v][w]
  {
    var e, h := ZShift(a, b, d, ang), ZCoupling(a, b, d, ang);
    ReversedTerms(a, b, d, ang);
    assert ZCubic(a, b, d, ang)[v][w] == ZValue(a, b, d, e, h, v, w);
    assert ZCubic(a, b, d, Reversed(ang))[v][w] == ZValue(a, b, d, e, -h, v, w);
  }

  /** Reversing the angle keeps it on the unit circle, keeps the shift and negates the coupling. */
  lemma ReversedTerms(a: real, b: real, d: real, ang: Angle)
    ensures OnUnitCircle(Reversed(ang)) == OnUnitCircle(ang)
    ensures ZShift(a, b, d, Reversed(ang)) == ZShift(a, b, d, ang)
    ensures ZCoupling(a, b, d, Reversed(ang)) == -ZCoupling(a, b, d, ang)
  {
    assert CosSin2(Reversed(ang)) == CosSin2(ang);
    assert Twist(Reversed(ang)) == -Twist(ang);
  }

  /** The closed form's value against the z closed form of the kernel, one entry at a time. */
  lemma OverrideZEntry(a: real, b: real, d: real, ang: Angle, v: VoigtIndex, w: VoigtIndex)
    ensures IsCoupling(v, w) ==> OverrideValue(a, b, d, ang, v, w).Some?
    ensures OverrideValue(a, b, d, ang, v, w).Some? ==>
      OverrideValue(a, b, d, ang, v, w).value == if IsCoupling(v, w) then -ZCubic(a, b, d, ang)[v][w] else ZCubic(a, b, d, ang)[v][w]
  {
    OverrideCorrected(a, b, d, ang, v, w);
    CorrectedZEntry(a, b, d, ang, v, w);
  }

  /**
   * The closed form's five formulas in terms of x = c²s² and t = cs(c² - s²), with
   * K = _11 - _12 - 2 _44, e = 2Kx and h = Kt: the in-plane _11 and _12 move by -e and +e,
   * _66 by +e, and the couplings are -h and +h.
   */
  lemma ZFormulas(a: real, b: real, d: real, x: real, t: real, c4: real, s4: real, e: real, h: real)
    requires c4 == 1.0 - 8.0 * x && s4 == 4.0 * t
    requires e == 2.0 * (a - b - 2.0 * d) * x && h == (a - b - 2.0 * d) * t
    ensures 0.25 * (a * (3.0 + c4) + (b + 2.0 * d) * (1.0 - c4)) == a - e
    ensures 0.25 * (b * (3.0 + c4) + (a - 2.0 * d) * (1.0 - c4)) == b + e
    ensures 0.25 * (2.0 * d * (1.0 + c4) + (a - b) * (1.0 - c4)) == d + e
    ensures 0.25 * s4 * (2.0 * d + b - a) == -h
    ensures 0.25 * s4 * (a - b - 2.0 * d) == h
  {
  }

  /** The normal stiffness along the rotation axis is the unrotated _11, whatever the angle. */
  lemma FixedAxisEntry(a: real, b: real, d: real, axis: string, ang: Angle)
    requires IsAxisLabel(axis) && OnUnitCircle(ang)
    ensures var x := AxisOf(axis);
      Rotated(Isotropic(a, b, d), AxisMatrix(axis, ang).value)[x][x] == a
  {
    var m, x := AxisMatrix(axis, ang).value, AxisOf(axis);
    AxisOrthonormal(axis, ang);
    RotatedEntryAt(Isotropic(a, b, d), m, x, x);
    ComponentOrthonormal(a, b, d, m, x, x, x, x);
    UnitRowQuartic(m[x], x);
  }

  /** A row of the identity has quartic sum 1. */
  lemma UnitRowQuartic(r: Vec3, x: Cart)
    requires r == Identity[x]
    ensures Quartic(r, r, r, r) == 1.0
  {
  }

  /** An angle on the unit circle with cos θ = 3/5, sin θ = 4/5. */
  const Sample: Angle := Angle(0.6, 0.8)

  /**
   * _11 + 2 _12 alone is not kept by a rotation: for _11 = 1, _12 = _44 = 0 rotated about z
   * by Sample it grows from 1 to 1.4608, while the block sum stays 3.
   */
  lemma RowSumChanges()
    ensures OnUnitCircle(Sample)
    ensures var r := Rotated(Isotropic(1.0, 0.0, 0.0), ZMatrix(Sample));
      r[0][0] + 2.0 * r[0][1] == 1.4608 && BlockSum(r) == 3.0
  {
    ZRotatedCubic(1.0, 0.0, 0.0, Sample);
    KernelBlockSum(1.0, 0.0, 0.0, Sample);
  }

  /**
   * The sign of the couplings: for _11 = 1, _12 = _44 = 0 rotated about z by Sample, the
   * kernel gives _16 = -84/625 and the closed form +84/625.
   */
  lemma CouplingSignCounterexample()
    ensures OnUnitCircle(Sample)
    ensures var r := Rotated(Isotropic(1.0, 0.0, 0.0), ZMatrix(Sample));
      r[0][5] == -0.1344 && Override(r, 1.0, 0.0, 0.0, Sample)[0][5] == 0.1344
  {
    var r := Rotated(Isotropic(1.0, 0.0, 0.0), ZMatrix(Sample));
    ZRotatedCubic(1.0, 0.0, 0.0, Sample);
    OverrideAt(r, 1.0, 0.0, 0.0, Sample, 0, 5);
  }

  /**
   * The axis: for _11 = 1, _12 = _44 = 0 rotated about x by Sample, the kernel keeps
   * _11 = 1 and the closed form writes 337/625 over it.
   */
  lemma AxisCounterexample()
    ensures OnUnitCircle(Sample)
    ensures var r := RotateSpec(Isotropic(1.0, 0.0, 0.0), XAxis, Sample).value;
      r[0][0] == 1.0 && Override(r, 1.0, 0.0, 0.0, Sample)[0][0] == 0.5392
  {
    var r := RotateSpec(Isotropic(1.0, 0.0, 0.0), XAxis, Sample).value;
    FixedAxisEntry(1.0, 0.0, 0.0, XAxis, Sample);
    OverrideAt(r, 1.0, 0.0, 0.0, Sample, 0, 0);
  }

  /** Without anisotropy (_11 - _12 = 2 _44) every value of the closed form is the pattern's own entry. */
  lemma OverrideIsotropicEntry(a: real, b: real, d: real, ang: Angle, v: VoigtIndex, w: VoigtIndex)
    requires a - b == 2.0 * d
    ensures OverrideValue(a, b, d, ang, v, w).Some? ==> OverrideValue(a, b, d, ang, v, w).value == PatternEntry(a, b, d, v, w)
  {
    Isotropic4(a, b, d, Cos4(ang), Sin4(ang));
  }

  /** The closed form's four formulas when _11 - _12 = 2 _44. */
  lemma Isotropic4(a: real, b: real, d: real, c4: real, s4: real)
    requires a - b == 2.0 * d
    ensures 0.25 * (a * (3.0 + c4) + (b + 2.0 * d) * (1.0 - c4)) == a
    ensures 0.25 * (b * (3.0 + c4) + (a - 2.0 * d) * (1.0 - c4)) == b
    ensures 0.25 * (2.0 * d * (1.0 + c4) + (a - b) * (1.0 - c4)) == d
    ensures 0.25 * s4 * (2.0 * d + b - a) == 0.0 && 0.25 * s4 * (a - b - 2.0 * d) == 0.0
  {
  }

  /**
   * For the output of `isotropic_stiffness` (_11 - _12 = 2 _44) neither discrepancy shows:
   * the kernel and then the closed form return the expanded tensor unchanged, about any axis.
   */
  lemma OverrideIsotropic(a: real, b: real, d: real, m: Matrix, ang: Angle)
    requires Orthonormal(m) && a - b == 2.0 * d
    ensures Override(Rotated(Isotropic(a, b, d), m), a, b, d, ang) == Isotropic(a, b, d)
  {
    var t := Isotropic(a, b, d);
    IsotropicInvariant(a, b, d, m);
    forall v: VoigtIndex
      ensures Override(t, a, b, d, ang)[v] == t[v]
    {
      forall w: VoigtIndex
        ensures Override(t, a, b, d, ang)[v][w] == t[v][w]
      {
        OverridePatternAt(a, b, d, ang, v, w);
      }
    }
  }

  /** One entry of the closed form written over the isotropic pattern. */
  lemma OverridePatternAt(a: real, b: real, d: real, ang: Angle, v: VoigtIndex, w: VoigtIndex)
    requires a - b == 2.0 * d
    ensures Override(Isotropic(a, b, d), a, b, d, ang)[v][w] == Isotropic(a, b, d)[v][w]
  {
    OverrideAt(Isotropic(a, b, d), a, b, d, ang, v, w);
    OverrideIsotropicEntry(a, b, d, ang, v, w);
    PatternAt(a, b, d, v, w);
  }

  // ---------------------------------------------------------------------------------
  // The corrected closed form

  /** The closed form with the couplings' sign as the kernel has it: _16 = K sin 4θ / 4, _26 = -K sin 4θ / 4. */
  function CorrectedValue(a: real, b: real, d: real, ang: Angle, v: VoigtIndex, w: VoigtIndex): Option<real> {
    var c4, s4 := Cos4(ang), Sin4(ang);
    if v < 2 && w == v then Some(0.25 * (a * (3.0 + c4) + (b + 2.0 * d) * (1.0 - c4)))
    else if v == 2 && w == 2 then Some(a)
    else if v < 2 && w < 2 then Some(0.25 * (b * (3.0 + c4) + (a - 2.0 * d) * (1.0 - c4)))
    else if v < 3 && w < 3 then Some(b)
    else if (v == 3 || v == 4) && w == v then Some(d)
    else if v == 5 && w == 5 then Some(0.25 * (2.0 * d * (1.0 + c4) + (a - b) * (1.0 - c4)))
    else if IsCoupling(v, w) && (v == 0 || w == 0) then Some(0.25 * s4 * (a - b - 2.0 * d))
    else if IsCoupling(v, w) then Some(0.25 * s4 * (2.0 * d + b - a))
    else None
  }

  /** The kernel's output r with the corrected closed form written over it. */
  function CorrectedOverride(r: Tensor, a: real, b: real, d: real, ang: Angle): Tensor {
    seq(6, v requires 0 <= v < 6 => seq(6, w requires 0 <= w < 6 =>
      match CorrectedValue(a, b, d, ang, v, w)
      case Some(x) => x
      case None => r[v][w]))
  }

  /**
   * The closed form as written and the corrected one assign the same sixteen entries, and
   * differ only in the sign of the four couplings.
   */
  lemma OverrideCorrected(a: real, b: real, d: real, ang: Angle, v: VoigtIndex, w: VoigtIndex)
    ensures OverrideValue(a, b, d, ang, v, w).Some? <==> CorrectedValue(a, b, d, ang, v, w).Some?
    ensures IsCoupling(v, w) ==> CorrectedValue(a, b, d, ang, v, w).Some?
    ensures OverrideValue(a, b, d, ang, v, w).Some? ==>
      OverrideValue(a, b, d, ang, v, w).value
      == if IsCoupling(v, w) then -CorrectedValue(a, b, d, ang, v, w).value else CorrectedValue(a, b, d, ang, v, w).value
  {
    CouplingNegated(a, b, d, Sin4(ang));
  }

  /** The two coupling formulas are each other's negation. */
  lemma CouplingNegated(a: real, b: real, d: real, s4: real)
    ensures 0.25 * s4 * (2.0 * d + b - a) == -(0.25 * s4 * (a - b - 2.0 * d))
  {
  }

  /** The corrected value against the z closed form of the kernel, one entry at a time. */
  lemma CorrectedZEntry(a: real, b: real, d: real, ang: Angle, v: VoigtIndex, w: VoigtIndex)
    ensures CorrectedValue(a, b, d, ang, v, w).Some? ==> CorrectedValue(a, b, d, ang, v, w).value == ZCubic(a, b, d, ang)[v][w]
  {
    var e, h := ZShift(a, b, d, ang), ZCoupling(a, b, d, ang);
    assert ZCubic(a, b, d, ang)[v][w] == ZValue(a, b, d, e, h, v, w);
    ZFormulas(a, b, d, CosSin2(ang), Twist(ang), Cos4(ang), Sin4(ang), e, h);
  }

  /** About the z axis the corrected closed form agrees with the kernel on all 36 entries. */
  lemma CorrectedZ(a: real, b: real, d: real, ang: Angle)
    requires OnUnitCircle(ang)
    ensures var r := Rotated(Isotropic(a, b, d), ZMatrix(ang));
      CorrectedOverride(r, a, b, d, ang) == r
  {
    var r := Rotated(Isotropic(a, b, d), ZMatrix(ang));
    ZRotatedCubic(a, b, d, ang);
    forall v: VoigtIndex
      ensures CorrectedOverride(r, a, b, d, ang)[v] == r[v]
    {
      forall w: VoigtIndex
        ensures CorrectedOverride(r, a, b, d, ang)[v][w] == r[v][w]
      {
        CorrectedZEntry(a, b, d, ang, v, w);
      }
    }
  }

  /**
   * The stiffness rotation of `rotate_axis` as intended: expand, rotate, and write the
   * corrected closed form over the result only for the z axis.
   */
  function StiffnessRotation(a: real, b: real, d: real, axis: string, ang: Angle): Result<Tensor, RotationError> {
    match RotateSpec(Isotropic(a, b, d), axis, ang)
    case Success(r) => Success(if axis == ZAxis then CorrectedOverride(r, a, b, d, ang) else r)
    case Failure(e) => Failure(e)
  }

  /** The intended stiffness rotation is the kernel's rotation of the expanded tensor, for every axis. */
  lemma StiffnessRotationIsKernel(a: real, b: real, d: real, axis: string, ang: Angle)
    requires OnUnitCircle(ang)
    ensures StiffnessRotation(a, b, d, axis, ang) == RotateSpec(Isotropic(a, b, d), axis, ang)
  {
    if axis == ZAxis {
      ZMatrixIs(ang);
      CorrectedZ(a, b, d, ang);
    }
  }
}
