/**
 * The Voigt index table `to_Voigt`: a pair of Cartesian axes (x, y, z as 0, 1, 2)
 * collapses to one of the six Voigt indices, xx, yy, zz, yz, xz, xy as 0 .. 5.
 */
module Voigt {

  /** A Cartesian axis index. */
  type Cart = i: int | 0 <= i < 3

  /** A Voigt index: a row or column of a 6 x 6 tensor. */
  type VoigtIndex = v: int | 0 <= v < 6

  /**
   * The fixed table [[0, 5, 4], [5, 1, 3], [4, 3, 2]]. A diagonal pair keeps its axis;
   * an off-diagonal pair goes to 3 plus the axis it does not mention.
   */
  function ToVoigt(i: Cart, j: Cart): (v: VoigtIndex)
    ensures if i == j then v == i else v == 6 - i - j
    ensures v < 3 <==> i == j
  {
    [[0, 5, 4], [5, 1, 3], [4, 3, 2]][i][j]
  }

  /** The Cartesian pair an index stands for, with the smaller axis first. */
  function Pair(v: VoigtIndex): (p: (Cart, Cart))
    ensures p.0 <= p.1
    ensures ToVoigt(p.0, p.1) == v
  {
    [(0, 0), (1, 1), (2, 2), (1, 2), (0, 2), (0, 1)][v]
  }

  /** The table is symmetric: swapping the two axes leaves the Voigt index unchanged. */
  lemma ToVoigtSymmetric(i: Cart, j: Cart)
    ensures ToVoigt(i, j) == ToVoigt(j, i)
  {
  }

  /** A Voigt index has exactly the preimages Pair(v) and its swap: the table is onto 0 .. 5. */
  lemma ToVoigtPreimage(i: Cart, j: Cart, v: VoigtIndex)
    ensures ToVoigt(i, j) == v <==> (i, j) == Pair(v) || (j, i) == Pair(v)
  {
  }
}
