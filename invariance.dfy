/**
 * What rotation by an orthonormal matrix does to the cubic pattern: the dot products
 * of rows become deltas, so only the anisotropy _11 - _12 - 2 _44 is left to depend on
 * the matrix, through the quartic sum.
 */
module Invariance {
  import opened Voigt
  import opened Tensors
  import opened Rotation
  import opened Kernel
  import opened Rotate
  import opened Cubic

  // ---------------------------------------------------------------------------------
  // The rotated pattern

  /** Kronecker's delta on Cartesian indices. */
  function Delta(i: Cart, j: Cart): real {
    if i == j then 1.0 else 0.0
  }

  /** The rows of m are orthonormal. */
  ghost predicate Orthonormal(m: Matrix) {
    forall i: Cart, j: Cart :: Dot3(m[i], m[j]) == Delta(i, j)
  }

  /** Every axis matrix at an angle on the unit circle is orthonormal. */
  lemma AxisOrthonormal(axis: string, a: Angle)
    requires IsAxisLabel(axis) && OnUnitCircle(a)
    ensures Orthonormal(AxisMatrix(axis, a).value)
  {
    forall i: Cart, j: Cart
      ensures Dot3(AxisMatrix(axis, a).value[i], AxisMatrix(axis, a).value[j]) == Delta(i, j)
    {
      RotationOrthonormal(axis, a, i, j);
    }
  }

  /** The rotated component of the cubic pattern, for any matrix. */
  lemma ComponentIsotropic(a: real, b: real, d: real, m: Matrix, i: Cart, j: Cart, k: Cart, l: Cart)
    ensures Component(Isotropic(a, b, d), m, i, j, k, l)
         == PatternValue(a, b, d, Dot3(m[i], m[j]), Dot3(m[k], m[l]), Dot3(m[i], m[k]), Dot3(m[j], m[l]),
                         Dot3(m[i], m[l]), Dot3(m[j], m[k]), Quartic(m[i], m[j], m[k], m[l]))
  {
    ComponentBilinear(Isotropic(a, b, d), m, i, j, k, l);
    WeightsIsotropic(m[i], m[j], m[k], m[l], a, b, d);
  }

  /**
   * For an orthonormal matrix the dot products become deltas:
   * T'(i, j, k, l) = b δij δkl + d (δik δjl + δil δjk) + (a - b - 2d) Q(i, j, k, l).
   */
  lemma ComponentOrthonormal(a: real, b: real, d: real, m: Matrix, i: Cart, j: Cart, k: Cart, l: Cart)
    requires Orthonormal(m)
    ensures Component(Isotropic(a, b, d), m, i, j, k, l)
         == PatternValue(a, b, d, Delta(i, j), Delta(k, l), Delta(i, k), Delta(j, l),
                         Delta(i, l), Delta(j, k), Quartic(m[i], m[j], m[k], m[l]))
  {
    ComponentIsotropic(a, b, d, m, i, j, k, l);
    assert Dot3(m[i], m[j]) == Delta(i, j) && Dot3(m[k], m[l]) == Delta(k, l);
    assert Dot3(m[i], m[k]) == Delta(i, k) && Dot3(m[j], m[l]) == Delta(j, l);
    assert Dot3(m[i], m[l]) == Delta(i, l) && Dot3(m[j], m[k]) == Delta(j, k);
  }

  /** Without anisotropy, the deltas at Pair(v), Pair(w) rebuild the pattern's entry [v][w], whatever the quartic sum. */
  lemma DeltaPattern(a: real, b: real, d: real, v: VoigtIndex, w: VoigtIndex, quartic: real)
    requires a - b == 2.0 * d
    ensures var (i, j), (k, l) := Pair(v), Pair(w);
      PatternValue(a, b, d, Delta(i, j), Delta(k, l), Delta(i, k), Delta(j, l), Delta(i, l), Delta(j, k), quartic)
      == PatternEntry(a, b, d, v, w)
  {
  }

  /** The entry [v][w] of a rotated tensor is the component at Pair(v), Pair(w). */
  lemma RotatedEntryAt(t: Tensor, m: Matrix, v: VoigtIndex, w: VoigtIndex)
    ensures Rotated(t, m)[v][w] == Component(t, m, Pair(v).0, Pair(v).1, Pair(w).0, Pair(w).1)
  {
  }

  /** The entry [v][w] of the cubic pattern. */
  lemma PatternAt(a: real, b: real, d: real, v: VoigtIndex, w: VoigtIndex)
    ensures Isotropic(a, b, d)[v][w] == PatternEntry(a, b, d, v, w)
  {
  }

  /** One entry of the rotated isotropic pattern. */
  lemma IsotropicEntry(a: real, b: real, d: real, m: Matrix, v: VoigtIndex, w: VoigtIndex)
    requires Orthonormal(m) && a - b == 2.0 * d
    ensures Rotated(Isotropic(a, b, d), m)[v][w] == Isotropic(a, b, d)[v][w]
  {
    var i, j, k, l := Pair(v).0, Pair(v).1, Pair(w).0, Pair(w).1;
    ComponentOrthonormal(a, b, d, m, i, j, k, l);
    DeltaPattern(a, b, d, v, w, Quartic(m[i], m[j], m[k], m[l]));
    RotatedEntryAt(Isotropic(a, b, d), m, v, w);
    PatternAt(a, b, d, v, w);
  }

  /**
   * Isotropic invariance: when _11 - _12 = 2 _44, every rotation by an orthonormal matrix
   * returns the expanded tensor unchanged.
   */
  lemma IsotropicInvariant(a: real, b: real, d: real, m: Matrix)
    requires Orthonormal(m) && a - b == 2.0 * d
    ensures Rotated(Isotropic(a, b, d), m) == Isotropic(a, b, d)
  {
    var t := Isotropic(a, b, d);
    forall v: VoigtIndex
      ensures Rotated(t, m)[v] == t[v]
    {
      forall w: VoigtIndex
        ensures Rotated(t, m)[v][w] == t[v][w]
      {
        IsotropicEntry(a, b, d, m, v, w);
      }
    }
  }
}
