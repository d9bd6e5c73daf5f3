/**
 * The rotation matrices of `rotate_tensor`: a right-handed rotation by an angle about
 * one of the three principal axes, chosen by the labels "x-axis", "y-axis", "z-axis".
 * The angle enters only through its cosine and sine, so it is given as that pair.
 */
module Rotation {
  import opened Wrappers
  import opened Voigt
  import opened Tensors

  /** An angle by its cosine and sine. */
  datatype Angle = Angle(cos: real, sin: real)

  /** The pair is the cosine and sine of a real angle. */
  predicate OnUnitCircle(a: Angle) {
    a.cos * a.cos + a.sin * a.sin == 1.0
  }

  /** The angle 0. */
  const Zero: Angle := Angle(1.0, 0.0)

  /** The errors of a rotation request. */
  datatype RotationError =
    | InvalidAxis      // the axis label is none of the three
    | NotImplemented   // the material's tensors are anisotropic

  const XAxis: string := "x-axis"
  const YAxis: string := "y-axis"
  const ZAxis: string := "z-axis"

  predicate IsAxisLabel(axis: string) {
    axis == XAxis || axis == YAxis || axis == ZAxis
  }

  /** The Cartesian index of the axis a label names. */
  function AxisOf(axis: string): (x: Cart)
    requires IsAxisLabel(axis)
    ensures axis == XAxis ==> x == 0
    ensures axis == YAxis ==> x == 1
    ensures axis == ZAxis ==> x == 2
  {
    if axis == XAxis then 0 else if axis == YAxis then 1 else 2
  }

  /**
   * The rotation matrix for an axis label, or InvalidAxis. A rotation about an axis leaves
   * that axis fixed: its row and its column are those of the identity.
   */
  function AxisMatrix(axis: string, a: Angle): (r: Result<Matrix, RotationError>)
    ensures r.Failure? <==> !IsAxisLabel(axis)
    ensures r.Failure? ==> r.error == InvalidAxis
    ensures r.Success? ==> r.value[AxisOf(axis)] == Identity[AxisOf(axis)]
    ensures r.Success? ==> forall i: Cart :: r.value[i][AxisOf(axis)] == Identity[i][AxisOf(axis)]
  {
    var c, s := a.cos, a.sin;
    if axis == XAxis then Success([[1.0, 0.0, 0.0], [0.0, c, -s], [0.0, s, c]])
    else if axis == YAxis then Success([[c, 0.0, s], [0.0, 1.0, 0.0], [-s, 0.0, c]])
    else if axis == ZAxis then Success([[c, -s, 0.0], [s, c, 0.0], [0.0, 0.0, 1.0]])
    else Failure(InvalidAxis)
  }

  /** At the angle 0 each of the three matrices is the identity. */
  lemma RotationAtZero(axis: string)
    requires IsAxisLabel(axis)
    ensures AxisMatrix(axis, Zero) == Success(Identity)
  {
  }

  /** On the unit circle the rows of each matrix are orthonormal: R is orthogonal. */
  lemma RotationOrthonormal(axis: string, a: Angle, i: Cart, j: Cart)
    requires IsAxisLabel(axis) && OnUnitCircle(a)
    ensures Dot3(AxisMatrix(axis, a).value[i], AxisMatrix(axis, a).value[j]) == if i == j then 1.0 else 0.0
  {
  }
}
