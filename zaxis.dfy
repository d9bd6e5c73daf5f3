/**
 * The kernel's output for the expanded cubic pattern rotated about the z axis, worked out
 * entry by entry. With K = _11 - _12 - 2 _44 the anisotropy, c and s the cosine and sine,
 * only the in-plane block changes:
 *
 *   [0][0] = [1][1] = _11 - 2K c²s²      [0][1] = [1][0] = _12 + 2K c²s²
 *   [5][5] = _44 + 2K c²s²               [0][5] = [5][0] = K cs(c² - s²) = -[1][5] = -[5][1]
 *
 * and [2][2] = _11, [0][2] = [1][2] = _12, [3][3] = [4][4] = _44 keep their values.
 */
module ZRotation {
  import opened Wrappers
  import opened Voigt
  import opened Tensors
  import opened Rotation
  import opened Rotate
  import opened Cubic
  import opened Invariance

  /** c² s², an eighth of 1 - cos 4θ. */
  function CosSin2(a: Angle): real {
    (a.cos * a.cos) * (a.sin * a.sin)
  }

  /** c s (c² - s²), a quarter of sin 4θ. */
  function Twist(a: Angle): real {
    (a.cos * a.sin) * (a.cos * a.cos - a.sin * a.sin)
  }

  /** The matrix of a rotation about the z axis. */
  function ZMatrix(a: Angle): Matrix {
    [[a.cos, -a.sin, 0.0], [a.sin, a.cos, 0.0], [0.0, 0.0, 1.0]]
  }

  lemma ZMatrixIs(a: Angle)
    ensures AxisMatrix(ZAxis, a) == Success(ZMatrix(a))
  {
  }

  /**
   * The entry [v][w] of the z closed form, given e = 2K c²s² and h = K cs(c² - s²):
   *
   *   [[a - e, b + e, b, 0, 0,  h],
   *    [b + e, a - e, b, 0, 0, -h],
   *    [b,     b,     a, 0, 0,  0],
   *    [0,     0,     0, d, 0,  0],
   *    [0,     0,     0, 0, d,  0],
   *    [h,    -h,     0, 0, 0,  d + e]]
   */
  function ZValue(a: real, b: real, d: real, e: real, h: real, v: VoigtIndex, w: VoigtIndex): real {
    if v < 2 && w == v then a - e
    else if v == 2 && w == 2 then a
    else if v < 2 && w < 2 then b + e
    else if v < 3 && w < 3 then b
    else if (v == 3 || v == 4) && w == v then d
    else if v == 5 && w == 5 then d + e
    else if (v == 0 && w == 5) || (v == 5 && w == 0) then h
    else if (v == 1 && w == 5) || (v == 5 && w == 1) then -h
    else 0.0
  }

  /** e = 2K c²s², the shift of the in-plane entries, with K = _11 - _12 - 2 _44. */
  function ZShift(a: real, b: real, d: real, ang: Angle): real {
    2.0 * (a - b - 2.0 * d) * CosSin2(ang)
  }

  /** h = K cs(c² - s²), the coupling _16. */
  function ZCoupling(a: real, b: real, d: real, ang: Angle): real {
    (a - b - 2.0 * d) * Twist(ang)
  }

  /** The closed form of the rotated cubic pattern about the z axis. */
  function ZCubic(a: real, b: real, d: real, ang: Angle): Tensor {
    seq(6, v requires 0 <= v < 6 => seq(6, w requires 0 <= w < 6 =>
      ZValue(a, b, d, ZShift(a, b, d, ang), ZCoupling(a, b, d, ang), v, w)))
  }

  /** How many of the four indices are n. */
  function Count(n: Cart, i: Cart, j: Cart, k: Cart, l: Cart): nat {
    (if i == n then 1 else 0) + (if j == n then 1 else 0) + (if k == n then 1 else 0) + (if l == n then 1 else 0)
  }

  /**
   * The quartic sum of four rows of the z matrix, by how many of them are the fixed row 2
   * and how many are row 1.
   */
  function ZQuartic(ang: Angle, i: Cart, j: Cart, k: Cart, l: Cart): real {
    var fixed, second := Count(2, i, j, k, l), Count(1, i, j, k, l);
    if fixed == 4 then 1.0
    else if fixed > 0 then 0.0
    else if second == 0 || second == 4 then 1.0 - 2.0 * CosSin2(ang)
    else if second == 2 then 2.0 * CosSin2(ang)
    else if second == 1 then Twist(ang)
    else -Twist(ang)
  }

  /** c⁴ + s⁴ = 1 - 2 c² s² on the unit circle. */
  lemma FourthPowers(ang: Angle)
    requires OnUnitCircle(ang)
    ensures var c, s := ang.cos, ang.sin;
      c * c * c * c + s * s * s * s == 1.0 - 2.0 * CosSin2(ang)
  {
    var c2, s2 := ang.cos * ang.cos, ang.sin * ang.sin;
    assert (c2 + s2) * (c2 + s2) == 1.0;
  }

  /** The quartic sums of the z matrix's rows. */
  lemma ZQuarticAt(ang: Angle, i: Cart, j: Cart, k: Cart, l: Cart)
    requires OnUnitCircle(ang)
    ensures var m := ZMatrix(ang);
      Quartic(m[i], m[j], m[k], m[l]) == ZQuartic(ang, i, j, k, l)
  {
    FourthPowers(ang);
  }

  /** The pattern value at the deltas and z quartic sums of Pair(v), Pair(w) is the closed form's entry. */
  lemma ZPattern(a: real, b: real, d: real, ang: Angle, v: VoigtIndex, w: VoigtIndex)
    ensures var i, j, k, l := Pair(v).0, Pair(v).1, Pair(w).0, Pair(w).1;
      PatternValue(a, b, d, Delta(i, j), Delta(k, l), Delta(i, k), Delta(j, l), Delta(i, l), Delta(j, k), ZQuartic(ang, i, j, k, l))
      == ZCubic(a, b, d, ang)[v][w]
  {
    assert ZCubic(a, b, d, ang)[v][w] == ZValue(a, b, d, ZShift(a, b, d, ang), ZCoupling(a, b, d, ang), v, w);
    QuarticScaled(a - b - 2.0 * d, CosSin2(ang), Twist(ang));
    // One case for the upper-left block, one for the mixed blocks, one for the shear block.
    if v < 3 && w < 3 {
    } else if v < 3 || w < 3 {
    } else {
    }
  }

  /** The anisotropy times each value of the z quartic sums. */
  lemma QuarticScaled(k: real, x: real, t: real)
    ensures k * (1.0 - 2.0 * x) == k - 2.0 * k * x
    ensures k * (2.0 * x) == 2.0 * k * x
    ensures k * -t == -(k * t)
  {
  }

  /** One entry of the rotated cubic pattern about the z axis. */
  lemma ZEntry(a: real, b: real, d: real, ang: Angle, v: VoigtIndex, w: VoigtIndex)
    requires OnUnitCircle(ang)
    ensures Rotated(Isotropic(a, b, d), ZMatrix(ang))[v][w] == ZCubic(a, b, d, ang)[v][w]
  {
    var m := ZMatrix(ang);
    var i, j, k, l := Pair(v).0, Pair(v).1, Pair(w).0, Pair(w).1;
    ZMatrixIs(ang);
    AxisOrthonormal(ZAxis, ang);
    RotatedEntryAt(Isotropic(a, b, d), m, v, w);
    ComponentOrthonormal(a, b, d, m, i, j, k, l);
    ZQuarticAt(ang, i, j, k, l);
    ZPattern(a, b, d, ang, v, w);
  }

  /**
   * The kernel's output for the cubic pattern rotated about the z axis by an angle on the
   * unit circle is the closed form ZCubic.
   */
  lemma ZRotatedCubic(a: real, b: real, d: real, ang: Angle)
    requires OnUnitCircle(ang)
    ensures Rotated(Isotropic(a, b, d), ZMatrix(ang)) == ZCubic(a, b, d, ang)
  {
    var r, z := Rotated(Isotropic(a, b, d), ZMatrix(ang)), ZCubic(a, b, d, ang);
    forall v: VoigtIndex
      ensures r[v] == z[v]
    {
      forall w: VoigtIndex
        ensures r[v][w] == z[v][w]
      {
        ZEntry(a, b, d, ang, v, w);
      }
    }
  }

  /** The expansion of the closed form keeps its rotated _11, _12 and _44 and nothing else. */
  lemma ExpandZCubic(a: real, b: real, d: real, ang: Angle)
    ensures var e := 2.0 * (a - b - 2.0 * d) * CosSin2(ang);
      Expand(ZCubic(a, b, d, ang)) == Isotropic(a - e, b + e, d)
  {
    var z, e := ZCubic(a, b, d, ang), 2.0 * (a - b - 2.0 * d) * CosSin2(ang);
    assert z[0][0] == a - e && z[0][1] == b + e && z[3][3] == d;
  }

  /**
   * A second rotation starts from the expansion of the first one's result: it keeps only the
   * rotated _11, _12 and _44 and drops the couplings _16 and _26 the first rotation produced.
   */
  lemma ReExpandZ(a: real, b: real, d: real, ang: Angle)
    requires OnUnitCircle(ang)
    ensures var r, e := Rotated(Isotropic(a, b, d), ZMatrix(ang)), 2.0 * (a - b - 2.0 * d) * CosSin2(ang);
      && r[0][5] == (a - b - 2.0 * d) * Twist(ang) && r[1][5] == -r[0][5]
      && Expand(r) == Isotropic(a - e, b + e, d)
      && Expand(r)[0][5] == 0.0 && Expand(r)[1][5] == 0.0
  {
    var z, e := ZCubic(a, b, d, ang), 2.0 * (a - b - 2.0 * d) * CosSin2(ang);
    ZRotatedCubic(a, b, d, ang);
    assert z[0][5] == (a - b - 2.0 * d) * Twist(ang) && z[1][5] == -z[0][5];
    ExpandZCubic(a, b, d, ang);
    PatternZeros(a - e, b + e, d, 0, 5);
    PatternZeros(a - e, b + e, d, 1, 5);
  }
}
