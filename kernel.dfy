/**
 * The rotation kernel `rotation_matrix_sum`: one component of the rotated fourth-rank
 * tensor,
 *
 *   T'(i, j, k, l) = sum over q, r, s, t in 0 .. 2 of
 *                    R[i][q] * R[j][r] * R[k][s] * R[l][t] * T[V(q, r)][V(s, t)],
 *
 * where the fourth-rank tensor is read from its 6 x 6 Voigt form through V = ToVoigt.
 * The method accumulates the 81 terms in the source's loop order; InnerTerms and
 * OuterTerms are the running sums of that order. The specification Component groups the
 * same terms pair by pair,
 *
 *   T'(i, j, k, l)    = Contract(R[i], R[j], Inner),
 *   Inner[v]          = Contract(R[k], R[l], T[v]),
 *   Contract(a, b, w) = sum over s, u of a[s] * b[u] * w[V(s, u)],
 *
 * and the lemmas rewrite it as the bilinear form W(i, j)^T * T * W(k, l), with W the
 * Voigt weights of two rows of R, from which the index symmetries on which
 * `rotate_tensor` relies follow.
 */
module Kernel {
  import opened Voigt
  import opened Tensors

  /** One term of a contraction: a[s] * b[u] * w[V(s, u)]. */
  function Coef(a: Vec3, b: Vec3, w: Vec6, s: Cart, u: Cart): real {
    a[s] * b[u] * w[ToVoigt(s, u)]
  }

  /** sum over s, u of a[s] * b[u] * w[V(s, u)]: two rows of R against a Voigt vector. */
  function Contract(a: Vec3, b: Vec3, w: Vec6): real {
    CoefTerms(a, b, w, 3, 0)
  }

  /** The terms of a contraction in row-major order: the rows before s and n terms of row s. */
  function CoefTerms(a: Vec3, b: Vec3, w: Vec6, s: int, n: int): real
    requires 0 <= s <= 3 && 0 <= n <= 3 && (s == 3 ==> n == 0)
    decreases s, n
  {
    if n > 0 then CoefTerms(a, b, w, s, n - 1) + Coef(a, b, w, s, n - 1)
    else if s > 0 then CoefTerms(a, b, w, s - 1, 3)
    else 0.0
  }

  /** Every row of the tensor contracted with rows k and l of R. */
  function Inner(t: Tensor, m: Matrix, k: Cart, l: Cart): Vec6 {
    seq(6, v requires 0 <= v < 6 => Contract(m[k], m[l], t[v]))
  }

  /** The rotated component T'(i, j, k, l). */
  function Component(t: Tensor, m: Matrix, i: Cart, j: Cart, k: Cart, l: Cart): real {
    Contract(m[i], m[j], Inner(t, m, k, l))
  }

  // ---------------------------------------------------------------------------------
  // The source's loop

  /** The term the innermost loop adds for q, r, s, u, given the tensor entry e it reads. */
  function Term(m: Matrix, i: Cart, j: Cart, k: Cart, l: Cart, q: Cart, r: Cart, s: Cart, u: Cart, e: real): real {
    m[i][q] * m[j][r] * m[k][s] * m[l][u] * e
  }

  /** The term for q, r, s, u with the entry it reads from the tensor. */
  function SourceTerm(t: Tensor, m: Matrix, i: Cart, j: Cart, k: Cart, l: Cart, q: Cart, r: Cart, s: Cart, u: Cart): real {
    Term(m, i, j, k, l, q, r, s, u, t[ToVoigt(q, r)][ToVoigt(s, u)])
  }

  /** For fixed q, r: the terms of the rows before s and the first n terms of row s. */
  function InnerTerms(t: Tensor, m: Matrix, i: Cart, j: Cart, k: Cart, l: Cart, q: Cart, r: Cart, s: int, n: int): real
    requires 0 <= s <= 3 && 0 <= n <= 3 && (s == 3 ==> n == 0)
    decreases s, n
  {
    if n > 0 then InnerTerms(t, m, i, j, k, l, q, r, s, n - 1) + SourceTerm(t, m, i, j, k, l, q, r, s, n - 1)
    else if s > 0 then InnerTerms(t, m, i, j, k, l, q, r, s - 1, 3)
    else 0.0
  }

  /** The terms of the outer pairs (q', r') before (q, n). */
  function OuterTerms(t: Tensor, m: Matrix, i: Cart, j: Cart, k: Cart, l: Cart, q: int, n: int): real
    requires 0 <= q <= 3 && 0 <= n <= 3 && (q == 3 ==> n == 0)
    decreases q, n
  {
    if n > 0 then OuterTerms(t, m, i, j, k, l, q, n - 1) + InnerTerms(t, m, i, j, k, l, q, n - 1, 3, 0)
    else if q > 0 then OuterTerms(t, m, i, j, k, l, q - 1, 3)
    else 0.0
  }

  /**
   * `rotation_matrix_sum`: four nested loops over q, r, s, t, each step adding the term
   * R[i][q] * R[j][r] * R[k][s] * R[l][t] * T[V(q, r)][V(s, t)] to the running sum.
   */
  method RotationMatrixSum(i: Cart, j: Cart, k: Cart, l: Cart, orig: Tensor, m: Matrix) returns (comp: real)
    ensures comp == Component(orig, m, i, j, k, l)
  {
    comp := 0.0;
    for q := 0 to 3
      invariant comp == OuterTerms(orig, m, i, j, k, l, q, 0)
    {
      for r := 0 to 3
        invariant comp == OuterTerms(orig, m, i, j, k, l, q, r)
      {
        var v1 := ToVoigt(q, r);
        for s := 0 to 3
          invariant comp == OuterTerms(orig, m, i, j, k, l, q, r) + InnerTerms(orig, m, i, j, k, l, q, r, s, 0)
        {
          for t := 0 to 3
            invariant comp == OuterTerms(orig, m, i, j, k, l, q, r) + InnerTerms(orig, m, i, j, k, l, q, r, s, t)
          {
            var v2 := ToVoigt(s, t);
            comp := comp + Term(m, i, j, k, l, q, r, s, t, orig[v1][v2]);
          }
        }
      }
    }
    SourceSumGrouped(orig, m, i, j, k, l);
  }

  // ---------------------------------------------------------------------------------
  // Regrouping the source's sum

  /** The product x * y * z as one application, so that products of equal factors are equal terms. */
  function Scale(x: real, y: real, z: real): real {
    x * y * z
  }

  /** Scaling distributes over a sum of two. */
  lemma ScaleAdd(x: real, y: real, a: real, b: real)
    ensures Scale(x, y, a) + Scale(x, y, b) == Scale(x, y, a + b)
  {
  }

  /** The nine terms of a contraction written out. */
  lemma ContractExplicit(a: Vec3, b: Vec3, w: Vec6)
    ensures Contract(a, b, w)
         == Coef(a, b, w, 0, 0) + Coef(a, b, w, 0, 1) + Coef(a, b, w, 0, 2)
          + Coef(a, b, w, 1, 0) + Coef(a, b, w, 1, 1) + Coef(a, b, w, 1, 2)
          + Coef(a, b, w, 2, 0) + Coef(a, b, w, 2, 1) + Coef(a, b, w, 2, 2)
  {
    assert CoefTerms(a, b, w, 1, 0) == CoefTerms(a, b, w, 0, 3);
    assert CoefTerms(a, b, w, 2, 0) == CoefTerms(a, b, w, 1, 3);
  }

  /** A term of the source is its outer weight R[i][q] * R[j][r] times a term of the inner contraction. */
  lemma TermSplit(t: Tensor, m: Matrix, i: Cart, j: Cart, k: Cart, l: Cart, q: Cart, r: Cart, s: Cart, u: Cart)
    ensures SourceTerm(t, m, i, j, k, l, q, r, s, u) == Scale(m[i][q], m[j][r], Coef(m[k], m[l], t[ToVoigt(q, r)], s, u))
  {
  }

  /** A term of a contraction is its weight a[s] * b[u] times the entry it reads. */
  lemma CoefScaled(a: Vec3, b: Vec3, w: Vec6, s: Cart, u: Cart)
    ensures Coef(a, b, w, s, u) == Scale(a[s], b[u], w[ToVoigt(s, u)])
  {
  }

  /**
   * For fixed q, r, every running sum of the source's terms is the outer weight times
   * the running sum of the inner contraction.
   */
  lemma {:induction false} InnerFactored(t: Tensor, m: Matrix, i: Cart, j: Cart, k: Cart, l: Cart, q: Cart, r: Cart, s: int, n: int)
    requires 0 <= s <= 3 && 0 <= n <= 3 && (s == 3 ==> n == 0)
    ensures InnerTerms(t, m, i, j, k, l, q, r, s, n) == Scale(m[i][q], m[j][r], CoefTerms(m[k], m[l], t[ToVoigt(q, r)], s, n))
    decreases s, n
  {
    if n > 0 {
      InnerFactored(t, m, i, j, k, l, q, r, s, n - 1);
      TermSplit(t, m, i, j, k, l, q, r, s, n - 1);
      ScaleAdd(m[i][q], m[j][r], CoefTerms(m[k], m[l], t[ToVoigt(q, r)], s, n - 1), Coef(m[k], m[l], t[ToVoigt(q, r)], s, n - 1));
    } else if s > 0 {
      InnerFactored(t, m, i, j, k, l, q, r, s - 1, 3);
    }
  }

  /** The nine terms of one outer pair are its outer weight times the inner contraction. */
  lemma InnerGrouped(t: Tensor, m: Matrix, i: Cart, j: Cart, k: Cart, l: Cart, q: Cart, r: Cart)
    ensures InnerTerms(t, m, i, j, k, l, q, r, 3, 0) == Scale(m[i][q], m[j][r], Contract(m[k], m[l], t[ToVoigt(q, r)]))
  {
    InnerFactored(t, m, i, j, k, l, q, r, 3, 0);
  }

  /** A term of the outer contraction is the outer weight times the inner contraction. */
  lemma OuterCoef(t: Tensor, m: Matrix, i: Cart, j: Cart, k: Cart, l: Cart, q: Cart, r: Cart)
    ensures Coef(m[i], m[j], Inner(t, m, k, l), q, r) == Scale(m[i][q], m[j][r], Contract(m[k], m[l], t[ToVoigt(q, r)]))
  {
    InnerEntry(t, m, k, l, ToVoigt(q, r));
    CoefScaled(m[i], m[j], Inner(t, m, k, l), q, r);
  }

  /** An entry of Inner is the contraction of the matching row of the tensor. */
  lemma InnerEntry(t: Tensor, m: Matrix, k: Cart, l: Cart, v: VoigtIndex)
    ensures Inner(t, m, k, l)[v] == Contract(m[k], m[l], t[v])
  {
  }

  /** Every running sum over the outer pairs is a running sum of the outer contraction. */
  lemma {:induction false} OuterGrouped(t: Tensor, m: Matrix, i: Cart, j: Cart, k: Cart, l: Cart, q: int, n: int)
    requires 0 <= q <= 3 && 0 <= n <= 3 && (q == 3 ==> n == 0)
    ensures OuterTerms(t, m, i, j, k, l, q, n) == CoefTerms(m[i], m[j], Inner(t, m, k, l), q, n)
    decreases q, n
  {
    if n > 0 {
      OuterGrouped(t, m, i, j, k, l, q, n - 1);
      InnerGrouped(t, m, i, j, k, l, q, n - 1);
      OuterCoef(t, m, i, j, k, l, q, n - 1);
    } else if q > 0 {
      OuterGrouped(t, m, i, j, k, l, q - 1, 3);
    }
  }

  /** The 81 terms in the source's order add up to the grouped component. */
  lemma SourceSumGrouped(t: Tensor, m: Matrix, i: Cart, j: Cart, k: Cart, l: Cart)
    ensures OuterTerms(t, m, i, j, k, l, 3, 0) == Component(t, m, i, j, k, l)
  {
    OuterGrouped(t, m, i, j, k, l, 3, 0);
  }

  // ---------------------------------------------------------------------------------
  // The bilinear form

  /**
   * The Voigt weights of two 3-vectors: the coefficient that Contract gives to each
   * Voigt entry, an off-diagonal entry collecting both orders of its pair.
   */
  function Weights(a: Vec3, b: Vec3): Vec6 {
    [a[0] * b[0], a[1] * b[1], a[2] * b[2],
     a[1] * b[2] + a[2] * b[1], a[0] * b[2] + a[2] * b[0], a[0] * b[1] + a[1] * b[0]]
  }

  /** The bilinear form x^T * t * y. */
  function Bilinear(x: Vec6, y: Vec6, t: Tensor): real {
    Dot6(x, seq(6, v requires 0 <= v < 6 => Dot6(y, t[v])))
  }

  /** The 6-vector with 1 at index v and 0 elsewhere. */
  function Unit(v: VoigtIndex): Vec6 {
    seq(6, u requires 0 <= u < 6 => if u == v then 1.0 else 0.0)
  }

  /** Contract is linear in its Voigt vector, with the Voigt weights as coefficients. */
  lemma ContractLinear(a: Vec3, b: Vec3, w: Vec6)
    ensures Contract(a, b, w) == Dot6(Weights(a, b), w)
  {
    ContractExplicit(a, b, w);
  }

  /** The rotated component is the bilinear form W(i, j)^T * t * W(k, l). */
  lemma ComponentBilinear(t: Tensor, m: Matrix, i: Cart, j: Cart, k: Cart, l: Cart)
    ensures Component(t, m, i, j, k, l) == Bilinear(Weights(m[i], m[j]), Weights(m[k], m[l]), t)
  {
    var inner := Inner(t, m, k, l);
    ContractLinear(m[i], m[j], inner);
    forall v: VoigtIndex
      ensures inner[v] == Dot6(Weights(m[k], m[l]), t[v])
    {
      ContractLinear(m[k], m[l], t[v]);
    }
    assert inner == seq(6, v requires 0 <= v < 6 => Dot6(Weights(m[k], m[l]), t[v]));
  }

  /** The component does not change when i and j trade places. */
  lemma ComponentSwapFirstPair(t: Tensor, m: Matrix, i: Cart, j: Cart, k: Cart, l: Cart)
    ensures Component(t, m, i, j, k, l) == Component(t, m, j, i, k, l)
  {
    ComponentBilinear(t, m, i, j, k, l);
    ComponentBilinear(t, m, j, i, k, l);
    assert Weights(m[i], m[j]) == Weights(m[j], m[i]);
  }

  /** The component does not change when k and l trade places. */
  lemma ComponentSwapSecondPair(t: Tensor, m: Matrix, i: Cart, j: Cart, k: Cart, l: Cart)
    ensures Component(t, m, i, j, k, l) == Component(t, m, i, j, l, k)
  {
    ComponentBilinear(t, m, i, j, k, l);
    ComponentBilinear(t, m, i, j, l, k);
    assert Weights(m[k], m[l]) == Weights(m[l], m[k]);
  }

  /** For a symmetric tensor, x^T * t * y == y^T * t * x. */
  lemma BilinearSymmetric(x: Vec6, y: Vec6, t: Tensor)
    requires IsSymmetric(t)
    ensures Bilinear(x, y, t) == Bilinear(y, x, t)
  {
    assert t[0][1] == t[1][0] && t[0][2] == t[2][0] && t[0][3] == t[3][0] && t[0][4] == t[4][0];
    assert t[0][5] == t[5][0] && t[1][2] == t[2][1] && t[1][3] == t[3][1] && t[1][4] == t[4][1];
    assert t[1][5] == t[5][1] && t[2][3] == t[3][2] && t[2][4] == t[4][2] && t[2][5] == t[5][2];
    assert t[3][4] == t[4][3] && t[3][5] == t[5][3] && t[4][5] == t[5][4];
  }

  /** For a symmetric tensor, the pairs (i, j) and (k, l) may trade places. */
  lemma ComponentSwapPairs(t: Tensor, m: Matrix, i: Cart, j: Cart, k: Cart, l: Cart)
    requires IsSymmetric(t)
    ensures Component(t, m, i, j, k, l) == Component(t, m, k, l, i, j)
  {
    ComponentBilinear(t, m, i, j, k, l);
    ComponentBilinear(t, m, k, l, i, j);
    BilinearSymmetric(Weights(m[i], m[j]), Weights(m[k], m[l]), t);
  }

  /** The Voigt weights of two rows of the identity pick out their Voigt index. */
  lemma IdentityWeights(i: Cart, j: Cart)
    ensures Weights(Identity[i], Identity[j]) == Unit(ToVoigt(i, j))
  {
  }

  /** With R the identity, the component is the original entry at the pairs' Voigt indices. */
  lemma ComponentIdentity(t: Tensor, i: Cart, j: Cart, k: Cart, l: Cart)
    ensures Component(t, Identity, i, j, k, l) == t[ToVoigt(i, j)][ToVoigt(k, l)]
  {
    ComponentBilinear(t, Identity, i, j, k, l);
    IdentityWeights(i, j);
    IdentityWeights(k, l);
    BilinearUnits(ToVoigt(i, j), ToVoigt(k, l), t);
  }

  /** The bilinear form of two unit vectors picks out one entry. */
  lemma BilinearUnits(v: VoigtIndex, w: VoigtIndex, t: Tensor)
    ensures Bilinear(Unit(v), Unit(w), t) == t[v][w]
  {
    var col := seq(6, u requires 0 <= u < 6 => Dot6(Unit(w), t[u]));
    assert col[v] == t[v][w];
    assert Dot6(Unit(v), col) == col[v];
  }
}
