/**
 * The cubic-symmetry pattern that `rotate_axis` builds from the three constants
 * _11, _12, _44 of a tensor before rotating it, and what rotation does to it.
 *
 * For an orthogonal R the rotated pattern has the closed form
 *
 *   T'(i, j, k, l) = b δij δkl + d (δik δjl + δil δjk) + (a - b - 2d) Q(i, j, k, l),
 *   Q(i, j, k, l)  = sum over m of R[i][m] R[j][m] R[k][m] R[l][m],
 *
 * with a, b, d the constants _11, _12, _44. The anisotropy a - b - 2d is the only part
 * that depends on R: an isotropic pattern (a - b = 2d) is unchanged by every rotation.
 */
module Cubic {
  import opened Voigt
  import opened Tensors
  import opened Kernel

  /** The entry [v][w] of the cubic pattern with constants a = _11, b = _12, d = _44. */
  function PatternEntry(a: real, b: real, d: real, v: VoigtIndex, w: VoigtIndex): real {
    if v < 3 && w < 3 then (if v == w then a else b)
    else if v == w then d
    else 0.0
  }

  /**
   * The expansion of `rotate_axis`: the diagonal of the upper-left 3 x 3 block is _11,
   * the rest of that block _12, the diagonal of the lower-right block _44, and the other
   * 24 entries 0.
   */
  function Isotropic(a: real, b: real, d: real): (t: Tensor)
    ensures IsSymmetric(t)
    ensures t[0][0] == a && t[0][1] == b && t[3][3] == d
  {
    seq(6, v requires 0 <= v < 6 => seq(6, w requires 0 <= w < 6 => PatternEntry(a, b, d, v, w)))
  }

  /** The expansion `rotate_axis` applies to a tensor: the pattern of its own _11, _12, _44. */
  function Expand(t: Tensor): Tensor {
    Isotropic(t[0][0], t[0][1], t[3][3])
  }

  /** The tensor has the cubic pattern of its own entries [0][0], [0][1], [3][3]. */
  ghost predicate IsCubic(t: Tensor) {
    t == Expand(t)
  }

  /**
   * The expansion keeps the three constants it reads and yields a cubic tensor, so
   * expanding twice is expanding once; a tensor is cubic exactly when expansion leaves it be.
   */
  lemma ExpandIdempotent(t: Tensor)
    ensures Expand(t)[0][0] == t[0][0] && Expand(t)[0][1] == t[0][1] && Expand(t)[3][3] == t[3][3]
    ensures IsCubic(Expand(t)) && Expand(Expand(t)) == Expand(t)
  {
  }

  /** Outside the upper-left 3 x 3 block and the diagonal, the pattern is 0. */
  lemma PatternZeros(a: real, b: real, d: real, v: VoigtIndex, w: VoigtIndex)
    requires !(v < 3 && w < 3) && v != w
    ensures Isotropic(a, b, d)[v][w] == 0.0
  {
  }

  /** The sum over m of p[m] q[m] u[m] w[m]. */
  function Quartic(p: Vec3, q: Vec3, u: Vec3, w: Vec3): real {
    p[0] * q[0] * u[0] * w[0] + p[1] * q[1] * u[1] * w[1] + p[2] * q[2] * u[2] * w[2]
  }

  /** The products of matching diagonal Voigt entries. */
  function DiagonalPairs(x: Vec6, y: Vec6): real {
    x[0] * y[0] + x[1] * y[1] + x[2] * y[2]
  }

  /** The products of distinct diagonal Voigt entries. */
  function MixedPairs(x: Vec6, y: Vec6): real {
    x[0] * y[1] + x[0] * y[2] + x[1] * y[0] + x[1] * y[2] + x[2] * y[0] + x[2] * y[1]
  }

  /** The products of matching off-diagonal Voigt entries. */
  function ShearPairs(x: Vec6, y: Vec6): real {
    x[3] * y[3] + x[4] * y[4] + x[5] * y[5]
  }

  /** The rows of the cubic pattern against y. */
  lemma PatternRows(y: Vec6, a: real, b: real, d: real)
    ensures var t := Isotropic(a, b, d);
      && Dot6(y, t[0]) == a * y[0] + b * y[1] + b * y[2]
      && Dot6(y, t[1]) == b * y[0] + a * y[1] + b * y[2]
      && Dot6(y, t[2]) == b * y[0] + b * y[1] + a * y[2]
      && Dot6(y, t[3]) == d * y[3] && Dot6(y, t[4]) == d * y[4] && Dot6(y, t[5]) == d * y[5]
  {
    var t := Isotropic(a, b, d);
    assert t[0] == [a, b, b, 0.0, 0.0, 0.0] && t[1] == [b, a, b, 0.0, 0.0, 0.0] && t[2] == [b, b, a, 0.0, 0.0, 0.0];
    assert t[3] == [0.0, 0.0, 0.0, d, 0.0, 0.0] && t[4] == [0.0, 0.0, 0.0, 0.0, d, 0.0] && t[5] == [0.0, 0.0, 0.0, 0.0, 0.0, d];
  }

  /** The bilinear form of the cubic pattern. */
  lemma BilinearIsotropic(x: Vec6, y: Vec6, a: real, b: real, d: real)
    ensures Bilinear(x, y, Isotropic(a, b, d)) == a * DiagonalPairs(x, y) + b * MixedPairs(x, y) + d * ShearPairs(x, y)
  {
    PatternRows(y, a, b, d);
    Distribute(x, y, Isotropic(a, b, d), a, b, d);
  }

  /** The bilinear form of any tensor whose rows against y are those of the cubic pattern. */
  lemma Distribute(x: Vec6, y: Vec6, t: Tensor, a: real, b: real, d: real)
    requires Dot6(y, t[0]) == a * y[0] + b * y[1] + b * y[2]
    requires Dot6(y, t[1]) == b * y[0] + a * y[1] + b * y[2]
    requires Dot6(y, t[2]) == b * y[0] + b * y[1] + a * y[2]
    requires Dot6(y, t[3]) == d * y[3] && Dot6(y, t[4]) == d * y[4] && Dot6(y, t[5]) == d * y[5]
    ensures Bilinear(x, y, t) == a * DiagonalPairs(x, y) + b * MixedPairs(x, y) + d * ShearPairs(x, y)
  {
    var col := seq(6, v requires 0 <= v < 6 => Dot6(y, t[v]));
    assert Bilinear(x, y, t) == x[0] * col[0] + x[1] * col[1] + x[2] * col[2] + x[3] * col[3] + x[4] * col[4] + x[5] * col[5];
  }

  /** The diagonal Voigt weights pair up to the quartic sum. */
  lemma WeightsDiagonal(p: Vec3, q: Vec3, u: Vec3, w: Vec3)
    ensures DiagonalPairs(Weights(p, q), Weights(u, w)) == Quartic(p, q, u, w)
  {
  }

  /** The product of two three-term sums, multiplied out. */
  lemma ProductOfSums(x0: real, x1: real, x2: real, y0: real, y1: real, y2: real)
    ensures (x0 + x1 + x2) * (y0 + y1 + y2)
         == x0 * y0 + x1 * y1 + x2 * y2 + (x0 * y1 + x0 * y2 + x1 * y0 + x1 * y2 + x2 * y0 + x2 * y1)
  {
  }

  /** The diagonal weights add up to the dot product. */
  lemma WeightsTrace(p: Vec3, q: Vec3)
    ensures Weights(p, q)[0] + Weights(p, q)[1] + Weights(p, q)[2] == Dot3(p, q)
  {
  }

  /** The mixed products of the diagonal weights: the product of the dot products, less the quartic sum. */
  lemma WeightsMixed(p: Vec3, q: Vec3, u: Vec3, w: Vec3)
    ensures MixedPairs(Weights(p, q), Weights(u, w)) == Dot3(p, q) * Dot3(u, w) - Quartic(p, q, u, w)
  {
    var x, y := Weights(p, q), Weights(u, w);
    WeightsTrace(p, q);
    WeightsTrace(u, w);
    WeightsDiagonal(p, q, u, w);
    ProductOfSums(x[0], x[1], x[2], y[0], y[1], y[2]);
  }

  /** Two dot products multiplied out. */
  lemma DotProduct(p: Vec3, u: Vec3, q: Vec3, w: Vec3)
    ensures Dot3(p, u) * Dot3(q, w)
         == p[0] * u[0] * q[0] * w[0] + p[0] * u[0] * q[1] * w[1] + p[0] * u[0] * q[2] * w[2]
          + p[1] * u[1] * q[0] * w[0] + p[1] * u[1] * q[1] * w[1] + p[1] * u[1] * q[2] * w[2]
          + p[2] * u[2] * q[0] * w[0] + p[2] * u[2] * q[1] * w[1] + p[2] * u[2] * q[2] * w[2]
  {
    ProductOfSums(p[0] * u[0], p[1] * u[1], p[2] * u[2], q[0] * w[0], q[1] * w[1], q[2] * w[2]);
  }

  /** The off-diagonal Voigt weights pair up to the two cross products of dot products, less twice the quartic sum. */
  lemma WeightsOffDiagonal(p: Vec3, q: Vec3, u: Vec3, w: Vec3)
    ensures ShearPairs(Weights(p, q), Weights(u, w))
         == Dot3(p, u) * Dot3(q, w) + Dot3(p, w) * Dot3(q, u) - 2.0 * Quartic(p, q, u, w)
  {
    var x, y := Weights(p, q), Weights(u, w);
    DotProduct(p, u, q, w);
    DotProduct(p, w, q, u);
    assert x[3] * y[3] == p[1] * q[2] * u[1] * w[2] + p[1] * q[2] * u[2] * w[1] + p[2] * q[1] * u[1] * w[2] + p[2] * q[1] * u[2] * w[1];
    assert x[4] * y[4] == p[0] * q[2] * u[0] * w[2] + p[0] * q[2] * u[2] * w[0] + p[2] * q[0] * u[0] * w[2] + p[2] * q[0] * u[2] * w[0];
    assert x[5] * y[5] == p[0] * q[1] * u[0] * w[1] + p[0] * q[1] * u[1] * w[0] + p[1] * q[0] * u[0] * w[1] + p[1] * q[0] * u[1] * w[0];
  }

  /**
   * The value b (pq uw) + d (pu qw + pw qu) + (a - b - 2d) quartic, in which the six
   * dot products of four vectors and their quartic sum are arguments.
   */
  function PatternValue(a: real, b: real, d: real, pq: real, uw: real, pu: real, qw: real, pw: real, qu: real, quartic: real): real {
    b * (pq * uw) + d * (pu * qw + pw * qu) + (a - b - 2.0 * d) * quartic
  }

  /**
   * The cubic pattern's bilinear form at the Voigt weights of four vectors, in terms of
   * their dot products and the quartic sum.
   */
  lemma WeightsIsotropic(p: Vec3, q: Vec3, u: Vec3, w: Vec3, a: real, b: real, d: real)
    ensures Bilinear(Weights(p, q), Weights(u, w), Isotropic(a, b, d))
         == PatternValue(a, b, d, Dot3(p, q), Dot3(u, w), Dot3(p, u), Dot3(q, w), Dot3(p, w), Dot3(q, u), Quartic(p, q, u, w))
  {
    var x, y := Weights(p, q), Weights(u, w);
    BilinearIsotropic(x, y, a, b, d);
    WeightsDiagonal(p, q, u, w);
    WeightsMixed(p, q, u, w);
    WeightsOffDiagonal(p, q, u, w);
    Regroup(a, b, d, DiagonalPairs(x, y), MixedPairs(x, y), ShearPairs(x, y),
      Dot3(p, q), Dot3(u, w), Dot3(p, u), Dot3(q, w), Dot3(p, w), Dot3(q, u), Quartic(p, q, u, w));
  }

  /** Collecting the three constants' coefficients. */
  lemma Regroup(a: real, b: real, d: real, diag: real, mixed: real, shear: real,
                 pq: real, uw: real, pu: real, qw: real, pw: real, qu: real, quartic: real)
    requires diag == quartic && mixed == pq * uw - quartic && shear == pu * qw + pw * qu - 2.0 * quartic
    ensures a * diag + b * mixed + d * shear == PatternValue(a, b, d, pq, uw, pu, qw, pw, qu, quartic)
  {
  }
}
