# NumBAT crystal-tensor rotation engine, in Dafny

This project models the part of NumBAT's `backend/materials.py` that rotates a material's
crystal axes. A material carries three 6 x 6 tensors in Voigt notation: the stiffness `c`,
the photoelastic `p` and the acoustic loss `eta`. It also carries a flag saying whether all
108 of their entries were given in its data file.

The modelled parts are:

- the Voigt index table `to_Voigt`;
- the rotation kernel `rotation_matrix_sum`, an 81-term sum over the Cartesian indices;
- the driver `rotate_tensor`. It picks the rotation matrix for `"x-axis"`, `"y-axis"` or
  `"z-axis"` and fills a fresh 6 x 6 tensor from the kernel in four nested loops;
- `Material.rotate_axis`. It refuses anisotropic materials. Otherwise it expands each tensor
  from its `_11`, `_12`, `_44` into the cubic pattern, rotates it and writes it back. For the
  stiffness only, it then writes a hand-derived closed form over 16 entries;
- the loading decision of `load_data_file`. The base keys must be present. The 108 full-tensor
  keys are then read in order, and the flag is set exactly when none is missing;
- `isotropic_stiffness(E, ν)`.

An angle is given by its cosine and sine (`Rotation.Angle`). Where the proof needs it, the
pair is required to lie on the unit circle. The closed form's cos 4θ and sin 4θ are written
as 1 - 8c²s² and 4cs(c² - s²).

Module layout:

| file | module | contents |
|---|---|---|
| wrappers.dfy | Wrappers | `Result`, `Option`, `Outcome` |
| voigt.dfy | Voigt | the index table and its inverse pairs |
| tensors.dfy | Tensors | 6 x 6 tensors, vectors, matrices, symmetry |
| rotation.dfy | Rotation | the three rotation matrices and the axis labels |
| kernel.dfy | Kernel | `rotation_matrix_sum` as a loop, and the component as a bilinear form |
| rotate.dfy | Rotate | `rotate_tensor` as a loop filling a tensor, proved against `RotateSpec` |
| cubic.dfy | Cubic | the cubic pattern of the expansion, and the algebra of rotating it |
| invariance.dfy | Invariance | an isotropic pattern is unchanged by any orthonormal matrix |
| zaxis.dfy | ZRotation | the kernel's output for the cubic pattern about z, in closed form |
| closedform.dfy | ClosedForm | the stiffness closed form as written, its two discrepancies, the corrected form |
| elastic.dfy | Elastic | `isotropic_stiffness` |
| materials.dfy | Materials | file keys, loading, and the `Material` class with `RotateAxis` |

Two facts about the code shape the model:

- An unknown axis label fails only inside `rotate_tensor`, because the matrix variable is
  never bound. By then `rotate_axis` has already expanded the stiffness fields. So
  `RotateAxis` leaves `c` expanded and `p`, `eta` untouched.
- `_11 + 2 _12` is not kept by a rotation: `ClosedForm.RowSumChanges` exhibits a z rotation
  that changes it. The sum of the upper-left 3 x 3 block is kept by the closed form at every
  angle (`ClosedForm.OverrideBlockSum`) and by the kernel about z
  (`ClosedForm.KernelBlockSum`).

`Materials.Material.RotateAxis` is the code as written. After rotating the expanded
stiffness, it writes the closed form `ClosedForm.Override` over it for every axis. The lemmas
beside it say what that gives. About z, the stiffness is the kernel's rotation with its four
couplings negated (`Materials.RotatedStiffnessZ`). For an isotropic stiffness it is the
unrotated expansion about every axis (`Materials.RotatedStiffnessIsotropic`). "## Findings"
records the two places where the closed form departs from the kernel. The corrected
behaviour is `ClosedForm.StiffnessRotation`, which is proved equal to the kernel's rotation
for every axis.

## Model

| member | source | states |
|---|---|---|
| Voigt.ToVoigt | backend/materials.py:382 | a diagonal pair (i, i) maps to i; an off-diagonal pair maps to 6 - i - j; the index is below 3 exactly for diagonal pairs |
| Voigt.Pair | backend/materials.py:382 | each Voigt index 0 .. 5 has a preimage under the table, so the table is onto |
| Voigt.ToVoigtSymmetric | backend/materials.py:382 | the table is symmetric: V(i, j) = V(j, i) |
| Voigt.ToVoigtPreimage | backend/materials.py:382 | V(i, j) = v exactly when (i, j) is Pair(v) or its swap |
| Rotation.AxisMatrix | backend/materials.py:398-404 | a matrix exists exactly for the three labels, and any other label gives InvalidAxis; the rotation axis's row and column are those of the identity |
| Rotation.RotationAtZero | backend/materials.py:399-404 | at c = 1, s = 0 each of the three matrices is the identity |
| Rotation.RotationOrthonormal | backend/materials.py:399-404 | on the unit circle the rows of each matrix are orthonormal |
| Invariance.AxisOrthonormal | backend/materials.py:399-404 | each axis matrix on the unit circle satisfies the orthonormality predicate |
| Kernel.RotationMatrixSum | backend/materials.py:385-395 | the four nested loops accumulate exactly the component Σ R[i][q] R[j][r] R[k][s] R[l][t] T[V(q, r)][V(s, t)] |
| Kernel.SourceSumGrouped | backend/materials.py:389-393 | the 81 terms in the loops' order add up to the grouped component |
| Kernel.ComponentBilinear | backend/materials.py:385-395 | the component equals the bilinear form W(R[i], R[j])ᵀ T W(R[k], R[l]) of the Voigt weight vectors |
| Kernel.ComponentSwapFirstPair | backend/materials.py:389-393 | swapping i and j leaves the component unchanged |
| Kernel.ComponentSwapSecondPair | backend/materials.py:389-393 | swapping k and l leaves the component unchanged |
| Kernel.ComponentSwapPairs | backend/materials.py:385-395 | for a symmetric T, trading (i, j) with (k, l) leaves the component unchanged |
| Kernel.BilinearSymmetric | backend/materials.py:385-395 | for a symmetric T the bilinear form is symmetric in its two vectors |
| Kernel.ComponentIdentity | backend/materials.py:385-395 | with R the identity, the component is T[V(i, j)][V(k, l)] |
| Rotate.ComponentAtVoigt | backend/materials.py:406-413 | the component for (i, j, k, l) is the value specified at [V(i, j)][V(k, l)], whichever of the tuples mapping there is used |
| Rotate.RotatedAt | backend/materials.py:406-413 | the rotated tensor holds at [V(i, j)][V(k, l)] the kernel component of (i, j, k, l) |
| Rotate.OrderAt | backend/materials.py:406-413 | the loop position of a tuple determines the entry it writes |
| Rotate.RotateTensor | backend/materials.py:398-415 | the driver's loops fill all 36 entries, and the result is the specified rotated tensor; an unknown label gives InvalidAxis |
| Rotate.FillPairs | backend/materials.py:409-413 | the two inner loops for a pair (i, j) fill, in loop order, the next nine tuples' entries with their rotated values |
| Rotate.FilledContents | backend/materials.py:406-415 | once all 81 tuples are passed, the array holds the rotated tensor |
| Rotate.RotatedIdentity | backend/materials.py:406-413 | rotating by the identity returns the input tensor, entry for entry |
| Rotate.RotateAtZero | backend/materials.py:398-415 | at angle 0 every axis returns the input tensor unchanged |
| Rotate.RotatedSymmetric | backend/materials.py:406-413 | a symmetric input gives a symmetric result |
| Rotate.RotateFails | backend/materials.py:398-404 | the rotation fails exactly for an unknown label, with InvalidAxis |
| Cubic.Isotropic | backend/materials.py:202-218 | the expanded pattern is symmetric and keeps _11, _12 and _44 |
| Cubic.ExpandIdempotent | backend/materials.py:199-218 | the expansion keeps the three constants it reads, so expanding twice is expanding once |
| Cubic.PatternZeros | backend/materials.py:202-206 | outside the upper-left block and the diagonal, the expansion is 0 |
| Cubic.WeightsIsotropic | backend/materials.py:385-395 | the kernel's bilinear form on the cubic pattern is b (p·q)(u·w) + d ((p·u)(q·w) + (p·w)(q·u)) + (a - b - 2d) Σ pₘqₘuₘwₘ |
| Invariance.ComponentIsotropic | backend/materials.py:385-395 | the kernel component of the cubic pattern, in terms of dot products of the matrix rows and their quartic sum |
| Invariance.ComponentOrthonormal | backend/materials.py:385-395 | for an orthonormal matrix the dot products become Kronecker deltas, leaving the anisotropy a - b - 2d to multiply the quartic sum |
| Invariance.IsotropicEntry | backend/materials.py:220-235 | for an isotropic pattern (_11 - _12 = 2 _44), each rotated entry equals the unrotated one |
| Invariance.IsotropicInvariant | backend/materials.py:220-235 | an isotropic pattern is unchanged by rotation with any orthonormal matrix |
| ZRotation.ZMatrixIs | backend/materials.py:403-404 | the z-axis matrix is [[c, -s, 0], [s, c, 0], [0, 0, 1]] |
| ZRotation.ZRotatedCubic | backend/materials.py:220-235 | about z, the kernel's output on the cubic pattern is the closed form ZCubic: only _11, _22, _12, _66 and the couplings _16, _26 change |
| ZRotation.ReExpandZ | backend/materials.py:196-218 | a second call re-expands from the rotated _11, _12, _44, so the couplings the first rotation produced become 0 |
| ClosedForm.OverrideCarries | backend/materials.py:238-245 | after the closed form, _33 = old _11, the _13 family = old _12, _44 = _55 = old _44, _11 = _22, _12 = _21, _16 = _61, _26 = _62, and every other entry keeps the kernel's value |
| ClosedForm.OverrideEntries | backend/materials.py:238-245 | the closed form writes exactly the upper-left block, the diagonal and the four couplings |
| ClosedForm.OverrideBlockSum | backend/materials.py:238-243 | whatever the angle, the closed form's upper-left block sums to 3 _11 + 6 _12 |
| ClosedForm.KernelBlockSum | backend/materials.py:220-235 | about z, the kernel's upper-left block also sums to 3 _11 + 6 _12 |
| ClosedForm.RowSumChanges | backend/materials.py:220-235 | _11 + 2 _12 is not kept by a z rotation, while the block sum is |
| ClosedForm.OverrideZ | backend/materials.py:238-245 | about z, the closed form as written equals the kernel on every entry except the four couplings, where it has the opposite sign |
| ClosedForm.FixedAxisEntry | backend/materials.py:220-235 | the kernel keeps the normal stiffness along the rotation axis at _11, for every angle |
| ClosedForm.CouplingSignCounterexample | backend/materials.py:244-245 | for _11 = 1, _12 = _44 = 0 about z at (0.6, 0.8), the kernel's _16 is -0.1344 and the closed form's is +0.1344 |
| ClosedForm.AxisCounterexample | backend/materials.py:238 | for the same tensor about x, the kernel keeps _11 = 1 and the closed form writes 0.5392 over it |
| ClosedForm.OverrideIsotropic | backend/materials.py:238-245 | for an isotropic pattern, the closed form after any orthonormal rotation returns the unrotated tensor |
| ClosedForm.OverrideCorrected | backend/materials.py:238-245 | the closed form as written and the corrected one write the same entries, and differ only in the sign of the four couplings |
| ClosedForm.ReversedTransposes | backend/materials.py:403-404 | the z matrix at angle -θ is the transpose of the one at θ |
| ClosedForm.ZCubicReversed | backend/materials.py:220-235 | reversing the angle negates the kernel's four couplings about z and keeps every other entry |
| ClosedForm.OverrideZReversed | backend/materials.py:238-245 | about z, the closed form as written equals the kernel's rotation by -θ, that is, with R transposed |
| ClosedForm.CorrectedZ | backend/materials.py:244-245 | with the coupling signs fixed, the closed form equals the kernel about z on all 36 entries |
| ClosedForm.StiffnessRotationIsKernel | backend/materials.py:220-245 | the corrected stiffness rotation (closed form about z only) equals the kernel's rotation of the expanded tensor for every axis |
| Elastic.IsotropicStiffness | backend/materials.py:418-433 | the division fails exactly when ν = -1 or ν = 1/2 |
| Elastic.IsotropicRelations | backend/materials.py:429-431 | _11 - _12 = 2 _44; _11 ν = _12 (1 - ν), so _11 = _12 (1 - ν) / ν for ν ≠ 0; _44 = E / (2 (1 + ν)) |
| Elastic.IsotropicStiffnessInvariant | backend/materials.py:429-431 | the constants of an isotropic solid pass through both the kernel and the closed form unchanged, for any orthonormal rotation |
| Materials.SpellingInjective | backend/materials.py:51-177 | no two keys, metadata or tensor entry, have the same spelling |
| Materials.FullKeySpelling | backend/materials.py:71-177 | the full keys run from "c_11" through "c_66", "p_11", ... to "eta_66" |
| Materials.FullKeys | backend/materials.py:70-178 | the 108 full keys, in the order they are read |
| Materials.FirstMissing | backend/materials.py:70-181 | the keys before the position are all present and the one at it is missing |
| Materials.FirstMissingUnique | backend/materials.py:70-181 | that position is the only one with this property |
| Materials.AllFullKeysFirstMissing | backend/materials.py:178-181 | all 108 keys are present exactly when no full key is missing |
| Materials.BaseTensor | backend/materials.py:60-68 | after the base keys only _11, _12, _44 hold file values; every other entry is unassigned |
| Materials.FillAt | backend/materials.py:70-181 | after the full-key block, an entry holds the file's value exactly when its key comes before the first missing key, and its earlier value otherwise |
| Materials.FullKeysAt | backend/materials.py:71-177 | entry [v][w] of tensor n is among the first k full keys exactly when 36n + 6v + w < k |
| Materials.LoadedEntry | backend/materials.py:70-181 | a loaded entry is the file's value when its key comes before the first missing one, and its base value otherwise |
| Materials.AnisotropicEntries | backend/materials.py:70-179 | when the flag is set, every entry of c, p and eta is the file's value |
| Materials.Material.FromBase | backend/materials.py:51-68 | the material after the base keys, with the flag unset |
| Materials.Material.LoadFull | backend/materials.py:70-181 | the tensors after the block are the fill of the 108 keys, and the flag is set exactly when all are present |
| Materials.Load | backend/materials.py:36-181 | a missing base key fails, naming the first one missing; otherwise a fresh material whose tensors are the fill of the base tensors and whose flag is as above |
| Materials.Material.RotateAxis | backend/materials.py:184-379 | an anisotropic material is refused with nothing changed; an unknown label fails with c expanded and p, eta unchanged; otherwise c is the closed form written over the rotation of its expansion, with the old _11, _12, _44, and p, eta are the rotations of their expansions; the flag never changes |
| Materials.RotatedStiffnessZ | backend/materials.py:220-245 | after a z rotation the stiffness is the kernel's rotation of its expansion with the four couplings negated, and equal to it elsewhere |
| Materials.RotatedStiffnessIsotropic | backend/materials.py:220-245 | for an isotropic stiffness (_11 - _12 = 2 _44), the stiffness after any axis rotation is its unrotated expansion |

## Left out

- Reading the file, the `//`-comment regex and JSON parsing. The model starts from the parsed
  key-value map, with the numbers as reals.
- The metadata fields (file_name, chemical, author, date, institution, doi, n, s) are checked only
  for presence. Their values are not stored.
- An attribute the file never assigns does not exist in the source, and reading it would fail.
  The model holds such an entry as 0.0 (`Materials.Unassigned`).
- `np.cos` and `np.sin`, and IEEE double rounding. The angle is a (cosine, sine) pair over exact
  reals, and cos 4θ and sin 4θ come from the multiple-angle formulas.
- The `print` calls, the commented-out alternative stiffness block and the commented-out
  photoelastic closed form.
- The module-level catalogue of materials (backend/materials.py:436-450), which are file loads
  at import time.
- backend/plotting.py is not part of this model (figures, file output, interpolation).
- Materials.Material.RotateAxis: the fields change together per tensor rather than one
  attribute at a time. The intermediate states inside one tensor's write-back are not modelled.

## Findings

| source | as written | input that shows it | evidently intended | confidence | as-written member | corrected member |
|---|---|---|---|---|---|---|
| backend/materials.py:244-245 | _16 = _61 = ¼ sin 4θ (2 _44 + _12 - _11) and _26 = _62 = ¼ sin 4θ (_11 - _12 - 2 _44) | _11 = 1, _12 = _44 = 0, about z at cos θ = 0.6, sin θ = 0.8: the kernel gives _16 = -0.1344 and the closed form +0.1344 | the kernel's values: either exchange the two sign factors (ClosedForm.CorrectedZ), or keep the signs and rotate by -θ, that is, transpose R in the kernel (ClosedForm.OverrideZReversed) | not executed | ClosedForm.CouplingSignCounterexample | ClosedForm.CorrectedZ, ClosedForm.OverrideZReversed |
| backend/materials.py:238-245 | the z-axis closed form is written over the stiffness whatever the rotation axis | the same tensor about x: the kernel keeps _11 = 1, the closed form writes 0.5392 | apply the closed form only for the z axis | not executed | ClosedForm.AxisCounterexample | ClosedForm.StiffnessRotationIsKernel |
