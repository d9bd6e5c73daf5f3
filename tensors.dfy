/**
 * Shapes of the values the rotation engine works on: 3-vectors and 3 x 3 rotation
 * matrices over the Cartesian axes, 6-vectors and 6 x 6 Voigt-notation tensors.
 * Entries are exact reals.
 */
module Tensors {
  import opened Voigt

  type Vec3 = v: seq<real> | |v| == 3 witness [0.0, 0.0, 0.0]
  type Vec6 = v: seq<real> | |v| == 6 witness [0.0, 0.0, 0.0, 0.0, 0.0, 0.0]

  const Zero3: Vec3 := [0.0, 0.0, 0.0]
  const Zero6: Vec6 := [0.0, 0.0, 0.0, 0.0, 0.0, 0.0]

  /** A 3 x 3 matrix, row by row. */
  type Matrix = m: seq<Vec3> | |m| == 3 witness [Zero3, Zero3, Zero3]

  /** A 6 x 6 tensor in Voigt notation, row by row. */
  type Tensor = t: seq<Vec6> | |t| == 6 witness [Zero6, Zero6, Zero6, Zero6, Zero6, Zero6]

  const Identity: Matrix := [[1.0, 0.0, 0.0], [0.0, 1.0, 0.0], [0.0, 0.0, 1.0]]

  ghost predicate IsSymmetric(t: Tensor) {
    forall v: VoigtIndex, w: VoigtIndex :: t[v][w] == t[w][v]
  }

  /** The dot product of two 6-vectors. */
  function Dot6(x: Vec6, y: Vec6): real {
    x[0] * y[0] + x[1] * y[1] + x[2] * y[2] + x[3] * y[3] + x[4] * y[4] + x[5] * y[5]
  }

  /** The dot product of two 3-vectors. */
  function Dot3(x: Vec3, y: Vec3): real {
    x[0] * y[0] + x[1] * y[1] + x[2] * y[2]
  }

  /** The tensor with entry `x` at row `v`, column `w`, and every other entry of `t`. */
  function SetEntry(t: Tensor, v: VoigtIndex, w: VoigtIndex, x: real): (r: Tensor)
    ensures r[v][w] == x
    ensures forall v': VoigtIndex, w': VoigtIndex :: (v', w') != (v, w) ==> r[v'][w'] == t[v'][w']
  {
    t[v := t[v][w := x]]
  }
}
