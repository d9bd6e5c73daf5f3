/**
 * The driver `rotate_tensor`: pick the rotation matrix for an axis label, then fill a
 * fresh 6 x 6 array by visiting all 81 Cartesian tuples (i, j, k, l) and writing the
 * rotated component at [V(i, j)][V(k, l)].
 *
 * Several tuples land on the same Voigt entry; the kernel's index symmetries make them
 * all write the same value, so the result is the function Rotated below, whose entry
 * [v][w] is the component at the ordered pairs Pair(v), Pair(w).
 */
module Rotate {
  import opened Wrappers
  import opened Voigt
  import opened Tensors
  import opened Rotation
  import opened Kernel

  /** The entry [v][w] of the rotated tensor. */
  function RotatedEntry(t: Tensor, m: Matrix, v: VoigtIndex, w: VoigtIndex): real {
    Component(t, m, Pair(v).0, Pair(v).1, Pair(w).0, Pair(w).1)
  }

  /** The rotated tensor, entry by entry. */
  function Rotated(t: Tensor, m: Matrix): Tensor {
    seq(6, v requires 0 <= v < 6 => seq(6, w requires 0 <= w < 6 => RotatedEntry(t, m, v, w)))
  }

  /** `rotate_tensor` as a value: the rotated tensor, or the error of an unknown axis label. */
  function RotateSpec(t: Tensor, axis: string, a: Angle): Result<Tensor, RotationError> {
    match AxisMatrix(axis, a)
    case Success(m) => Success(Rotated(t, m))
    case Failure(e) => Failure(e)
  }

  /**
   * Consistent overwrites: every tuple (i, j, k, l) that the loop sends to the entry
   * [V(i, j)][V(k, l)] computes the value that entry ends up with.
   */
  lemma ComponentAtVoigt(t: Tensor, m: Matrix, i: Cart, j: Cart, k: Cart, l: Cart)
    ensures Component(t, m, i, j, k, l) == RotatedEntry(t, m, ToVoigt(i, j), ToVoigt(k, l))
  {
    ToVoigtPreimage(i, j, ToVoigt(i, j));
    ToVoigtPreimage(k, l, ToVoigt(k, l));
    ComponentSwapFirstPair(t, m, i, j, k, l);
    ComponentSwapSecondPair(t, m, i, j, k, l);
    ComponentSwapSecondPair(t, m, j, i, k, l);
  }

  /** The entry of the rotated tensor at [V(i, j)][V(k, l)] is the component at (i, j, k, l). */
  lemma RotatedAt(t: Tensor, m: Matrix, i: Cart, j: Cart, k: Cart, l: Cart)
    ensures Rotated(t, m)[ToVoigt(i, j)][ToVoigt(k, l)] == Component(t, m, i, j, k, l)
  {
    ComponentAtVoigt(t, m, i, j, k, l);
  }

  /** The position of the tuple Pair(v), Pair(w) in the loop's order. */
  function Order(v: VoigtIndex, w: VoigtIndex): int {
    27 * Pair(v).0 + 9 * Pair(v).1 + 3 * Pair(w).0 + Pair(w).1
  }

  /** Every entry whose tuple Pair(v), Pair(w) the loop has passed holds its value in goal. */
  ghost predicate Filled(prime: array2<real>, goal: Tensor, n: int)
    requires prime.Length0 == 6 && prime.Length1 == 6
    reads prime
  {
    forall v: VoigtIndex, w: VoigtIndex :: Order(v, w) < n ==> prime[v, w] == goal[v][w]
  }

  /** The entries of a 6 x 6 array as a tensor. */
  function Contents(prime: array2<real>): Tensor
    requires prime.Length0 == 6 && prime.Length1 == 6
    reads prime
  {
    seq(6, v requires 0 <= v < 6 reads prime => seq(6, w requires 0 <= w < 6 reads prime => prime[v, w]))
  }

  /** The tuple at position 27i + 9j + 3k + l is Pair(v), Pair(w) only for v = V(i, j), w = V(k, l). */
  lemma OrderAt(v: VoigtIndex, w: VoigtIndex, i: Cart, j: Cart, k: Cart, l: Cart)
    requires Order(v, w) == 27 * i + 9 * j + 3 * k + l
    ensures v == ToVoigt(i, j) && w == ToVoigt(k, l)
  {
    Digits(Pair(v).0, Pair(v).1, Pair(w).0, Pair(w).1, i, j, k, l);
  }

  /** Base-3 digits are unique. */
  lemma Digits(a: Cart, b: Cart, c: Cart, d: Cart, i: Cart, j: Cart, k: Cart, l: Cart)
    requires 27 * a + 9 * b + 3 * c + d == 27 * i + 9 * j + 3 * k + l
    ensures a == i && b == j && c == k && d == l
  {
  }

  /**
   * `rotate_tensor`: the matrix for the axis label, then the four loops writing
   * `rotation_matrix_sum(i, j, k, l)` at [V(i, j)][V(k, l)] of a zeroed array.
   * An unknown label leaves the matrix unbound: the call fails before writing anything.
   */
  method RotateTensor(orig: Tensor, a: Angle, axis: string) returns (r: Result<Tensor, RotationError>)
    ensures r == RotateSpec(orig, axis, a)
  {
    var mat := AxisMatrix(axis, a);
    if mat.Failure? {
      return Failure(mat.error);
    }
    var m := mat.value;
    var prime := new real[6, 6]((_, _) => 0.0);
    ghost var goal := Rotated(orig, m);
    for i := 0 to 3
      invariant Filled(prime, goal, 27 * i)
    {
      for j := 0 to 3
        invariant Filled(prime, goal, 27 * i + 9 * j)
      {
        FillPairs(prime, orig, m, i, j);
      }
    }
    FilledContents(prime, goal);
    r := Success(Contents(prime));
  }

  /** The two inner loops of `rotate_tensor`: every (k, l) for the pair (i, j). */
  method FillPairs(prime: array2<real>, orig: Tensor, m: Matrix, i: Cart, j: Cart)
    requires prime.Length0 == 6 && prime.Length1 == 6
    requires Filled(prime, Rotated(orig, m), 27 * i + 9 * j)
    modifies prime
    ensures Filled(prime, Rotated(orig, m), 27 * i + 9 * j + 9)
  {
    ghost var goal := Rotated(orig, m);
    var v1 := ToVoigt(i, j);
    for k := 0 to 3
      invariant Filled(prime, goal, 27 * i + 9 * j + 3 * k)
    {
      for l := 0 to 3
        invariant Filled(prime, goal, 27 * i + 9 * j + 3 * k + l)
      {
        var v2 := ToVoigt(k, l);
        var comp := RotationMatrixSum(i, j, k, l, orig, m);
        RotatedAt(orig, m, i, j, k, l);
        prime[v1, v2] := comp;
        forall v: VoigtIndex, w: VoigtIndex | Order(v, w) == 27 * i + 9 * j + 3 * k + l
          ensures v == v1 && w == v2
        {
          OrderAt(v, w, i, j, k, l);
        }
      }
    }
  }

  /** Once the loop has passed every tuple, the array holds goal. */
  lemma FilledContents(prime: array2<real>, goal: Tensor)
    requires prime.Length0 == 6 && prime.Length1 == 6
    requires Filled(prime, goal, 81)
    ensures Contents(prime) == goal
  {
    forall v: VoigtIndex
      ensures Contents(prime)[v] == goal[v]
    {
      forall w: VoigtIndex
        ensures Contents(prime)[v][w] == goal[v][w]
      {
        assert Order(v, w) < 81;
      }
    }
  }

  // ---------------------------------------------------------------------------------
  // Properties of the rotated tensor

  /** With R the identity, rotation returns its input entry for entry. */
  lemma RotatedIdentity(t: Tensor)
    ensures Rotated(t, Identity) == t
  {
    forall v: VoigtIndex
      ensures Rotated(t, Identity)[v] == t[v]
    {
      forall w: VoigtIndex
        ensures Rotated(t, Identity)[v][w] == t[v][w]
      {
        ComponentIdentity(t, Pair(v).0, Pair(v).1, Pair(w).0, Pair(w).1);
      }
    }
  }

  /** At the angle 0, rotating about any of the three axes returns the input unchanged. */
  lemma RotateAtZero(t: Tensor, axis: string)
    requires IsAxisLabel(axis)
    ensures RotateSpec(t, axis, Zero) == Success(t)
  {
    RotationAtZero(axis);
    RotatedIdentity(t);
  }

  /** Rotation maps a symmetric 6 x 6 tensor to a symmetric one. */
  lemma RotatedSymmetric(t: Tensor, m: Matrix)
    requires IsSymmetric(t)
    ensures IsSymmetric(Rotated(t, m))
  {
    forall v: VoigtIndex, w: VoigtIndex
      ensures Rotated(t, m)[v][w] == Rotated(t, m)[w][v]
    {
      ComponentSwapPairs(t, m, Pair(v).0, Pair(v).1, Pair(w).0, Pair(w).1);
    }
  }

  /** An unknown axis label is the only way rotation fails. */
  lemma RotateFails(t: Tensor, axis: string, a: Angle)
    ensures RotateSpec(t, axis, a).Failure? <==> !IsAxisLabel(axis)
    ensures RotateSpec(t, axis, a).Failure? ==> RotateSpec(t, axis, a).error == InvalidAxis
  {
  }
}
