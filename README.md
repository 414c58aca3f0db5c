# Matrix Basis Change and knot-vector utilities, modelled in Dafny

This project models two pieces of Sverchok, the node-based geometry add-on for Blender.

**The "Matrix Basis Change" node** (`SvMatrixBasisChangeNode`) does the following:
- It takes four lists of 3-vectors: locations L, scales S, and two direction vectors A and B.
- It broadcasts the lists to a common length with `match_long_repeat` and zips them.
- For each item it picks T and U from A, B, -A and -B.
- It runs one of six orthogonalisers, chosen by the priority order "X Y  Z" … "Z Y  X". Each keeps T as one axis and derives the other two by cross products.
- It optionally normalises the three axes.
- It assembles the composite matrix M = Translation · Rotation · Scale.
- It writes the matrices to the Matrix output and the axes to the X, Y and Z outputs. An unlinked X, Y or Z output gets `[[]]`, the Matrix output always gets the full matrix list, and nothing happens at all when no output is linked.

**The knot-vector utilities** come from geomdl:
- `generate` builds an equally spaced B-spline knot vector, clamped or unclamped.
- `normalize` rescales a knot vector to [0, 1].
- `check` tests the rule m = p + n + 1 (The NURBS Book, 2nd ed., p. 50) and ascending order.

The modules are:
- `Vector3` (vector3.dfy): exact real 3-vectors and the cross and dot product facts the proofs need. It also models the in-place `normalize()`.
- `DataStructure` (data_structure.dfy): `match_long_repeat`.
- `MatrixBasisChange` (matrix_basis_change.dfy): the node. Its loop is a `method` with invariants, and the node is a `class` whose `Process` method writes the output fields.
- `KnotVector` (knotvector.dfy): the three utilities. `check` is a method with its loop.
- `Wrappers` (wrappers.dfy): the `Result` type that carries the exceptions the utilities raise.

**Behaviour of the code that the model keeps, although one might expect otherwise:**
- Normalising a zero vector raises nothing. Blender's `normalize()` leaves a zero vector zero, and `IsReciprocalLength` and `NormalizedLength` state exactly that.
- The four outputs need not have equal length. The code appends to the X, Y or Z list only when that output is linked (lines 178-183), so an unlinked axis output receives `[[]]`.
- The frame is not always strictly right-handed. It is flat whenever T and U are parallel. The model proves X · (Y × Z) ≥ 0 in general, > 0 when T × U is not zero, and = 0 when T and U come from the same input vector.

## Model

| member | source | states |
|---|---|---|
| MatrixBasisChange.Select | nodes/matrix/matrix_basis_change.py:167-168 | T (and U) is one of A, B, -A, -B |
| MatrixBasisChange.OrthogonalizeXYZ | nodes/matrix/matrix_basis_change.py:104-107 | keeps X (= T), Z = X × Y, then Y = Z × X; its properties are stated for all six orders by `Orthogonalize`, `OrthogonalizeSound`, `ParallelInputsDegenerate` and `OrthogonalInputsReproduced` |
| MatrixBasisChange.OrthogonalizeXZY | nodes/matrix/matrix_basis_change.py:109-112 | keeps X (= T), Y = Z × X, then Z = X × Y; its properties are stated for all six orders by `Orthogonalize`, `OrthogonalizeSound`, `ParallelInputsDegenerate` and `OrthogonalInputsReproduced` |
| MatrixBasisChange.OrthogonalizeYXZ | nodes/matrix/matrix_basis_change.py:114-117 | keeps Y (= T), Z = X × Y, then X = Y × Z; its properties are stated for all six orders by `Orthogonalize`, `OrthogonalizeSound`, `ParallelInputsDegenerate` and `OrthogonalInputsReproduced` |
| MatrixBasisChange.OrthogonalizeYZX | nodes/matrix/matrix_basis_change.py:119-122 | keeps Y (= T), X = Y × Z, then Z = X × Y; its properties are stated for all six orders by `Orthogonalize`, `OrthogonalizeSound`, `ParallelInputsDegenerate` and `OrthogonalInputsReproduced` |
| MatrixBasisChange.OrthogonalizeZXY | nodes/matrix/matrix_basis_change.py:124-127 | keeps Z (= T), Y = Z × X, then X = Y × Z; its properties are stated for all six orders by `Orthogonalize`, `OrthogonalizeSound`, `ParallelInputsDegenerate` and `OrthogonalInputsReproduced` |
| MatrixBasisChange.OrthogonalizeZYX | nodes/matrix/matrix_basis_change.py:129-132 | keeps Z (= T), X = Y × Z, then Y = Z × X; its properties are stated for all six orders by `Orthogonalize`, `OrthogonalizeSound`, `ParallelInputsDegenerate` and `OrthogonalInputsReproduced` |
| MatrixBasisChange.Orthogonalize | nodes/matrix/matrix_basis_change.py:104-137 | the orthogonaliser for the configured order keeps T as its kept axis; its first derived axis is T × U for XYZ/YZX/ZXY and U × T for the others; the last axis crosses that with T in the same orientation |
| MatrixBasisChange.OrthogonalizeSound | nodes/matrix/matrix_basis_change.py:104-132 | for every order the three axes are pairwise perpendicular; the first derived axis is perpendicular to U; X · (Y × Z) equals \|T\|² \|T × U\|², so it is never negative |
| MatrixBasisChange.OrthogonalizeStrictlyRightHanded | nodes/matrix/matrix_basis_change.py:104-132 | for every order, T and U that are not parallel (T × U is not zero) give X · (Y × Z) > 0 |
| MatrixBasisChange.ParallelInputsDegenerate | nodes/matrix/matrix_basis_change.py:104-132 | parallel T and U (equal, opposite, or one of them zero) make both derived axes the zero vector |
| MatrixBasisChange.OrthogonalInputsReproduced | nodes/matrix/matrix_basis_change.py:104-132 | a unit T perpendicular to U comes back as the kept axis, and U comes back as the recomputed axis, in every order |
| MatrixBasisChange.NormalizeFrame | nodes/matrix/matrix_basis_change.py:172-175 | the three in-place `normalize()` calls; `NormalizeFrameOrthogonal`, `NormalizeFrameHandedness` and `NormalizedAxes` state what they keep |
| MatrixBasisChange.ItemFrame | nodes/matrix/matrix_basis_change.py:167-175 | the frame one loop iteration builds; `ItemFrameOrthogonal`, `ItemFrameRightHanded`, `ItemFrameFollowsT`, `ItemFrameUnitAxes` and `SameSourceDegenerate` state its properties |
| MatrixBasisChange.NormalizeFrameOrthogonal | nodes/matrix/matrix_basis_change.py:172-175 | normalising each axis on its own keeps perpendicular axes perpendicular |
| MatrixBasisChange.NormalizeFrameHandedness | nodes/matrix/matrix_basis_change.py:172-175 | normalising by positive factors never turns a frame left-handed |
| MatrixBasisChange.ItemFrameOrthogonal | nodes/matrix/matrix_basis_change.py:167-175 | the frame of every item, normalised or not, is orthogonal |
| MatrixBasisChange.ItemFrameRightHanded | nodes/matrix/matrix_basis_change.py:167-175 | the frame of every item has X · (Y × Z) ≥ 0, and X · (Y × Z) > 0 when T and U are not parallel (T × U is not zero), normalised or not |
| MatrixBasisChange.ItemFrameFollowsT | nodes/matrix/matrix_basis_change.py:167-175 | the kept axis is T without normalisation and a positive multiple of T with it; the first derived axis is perpendicular to U |
| MatrixBasisChange.NormalizedAxes | nodes/matrix/matrix_basis_change.py:172-175 | each output axis is the orthogonaliser's axis times its own factor, or times 1 when normalisation is off |
| MatrixBasisChange.ItemFrameUnitAxes | nodes/matrix/matrix_basis_change.py:172-175 | with normalisation on and T, U not parallel, every axis of the frame has unit length |
| MatrixBasisChange.SameSourceParallel | nodes/matrix/matrix_basis_change.py:167-168 | T and U naming the same input vector (such as A and -A) are parallel |
| MatrixBasisChange.SameSourceDegenerate | nodes/matrix/matrix_basis_change.py:167-175 | T and U naming the same input vector give two zero derived axes, normalised or not, and a flat frame |
| MatrixBasisChange.ZeroAxisFlat | nodes/matrix/matrix_basis_change.py:170 | a frame with a zero axis has X · (Y × Z) = 0 |
| MatrixBasisChange.OrthonormalInputsUnchanged | nodes/matrix/matrix_basis_change.py:167-175 | for an orthonormal T and U normalisation changes nothing, and the frame keeps T and U |
| MatrixBasisChange.DefaultConfigKeepsOrthonormalInputs | nodes/matrix/matrix_basis_change.py:32-60 | under the property defaults (order "X Y  Z", T = A, U = B, normalise on) an orthonormal A and B give the frame A, B, A × B |
| MatrixBasisChange.AssembleMatrix | nodes/matrix/matrix_basis_change.py:185-189 | the composite matrix literal; `AssembleMatrixColumns`, `AssembleMatrixComposes`, `AssembleMatrixDeterminant` and `AssembleMatrixOrthogonalColumns` state what it means |
| MatrixBasisChange.AssembleMatrixColumns | nodes/matrix/matrix_basis_change.py:185-189 | the matrix is 4x4 with last row 0 0 0 1; its columns are X·S.x, Y·S.y, Z·S.z and L |
| MatrixBasisChange.AssembleMatrixComposes | nodes/matrix/matrix_basis_change.py:185-189 | M = T · R · S: the matrix maps a point p to L + S.x p.x X + S.y p.y Y + S.z p.z Z |
| MatrixBasisChange.AssembleMatrixDeterminant | nodes/matrix/matrix_basis_change.py:185-189 | the determinant of the 3x3 block is S.x S.y S.z times X · (Y × Z) |
| MatrixBasisChange.AssembleMatrixOrthogonalColumns | nodes/matrix/matrix_basis_change.py:185-189 | for an orthogonal frame the three scaled columns are pairwise perpendicular |
| MatrixBasisChange.AssembleMatrixExample | nodes/matrix/matrix_basis_change.py:186-189 | the standard frame with L = (1, 2, 3) and S = (2, 2, 2) gives the rows 2 0 0 1, 0 2 0 2, 0 0 2 3, 0 0 0 1 |
| MatrixBasisChange.Zip4 | nodes/matrix/matrix_basis_change.py:166 | `zip` yields as many items as the shortest list, item i pairing the i-th elements |
| MatrixBasisChange.Batch | nodes/matrix/matrix_basis_change.py:158-166 | `zip(*match_long_repeat([L, S, A, B]))`; `BatchShape` states its length and contents |
| MatrixBasisChange.BatchShape | nodes/matrix/matrix_basis_change.py:158-166 | an empty input list yields no items; otherwise there are as many items as the longest list has, each list's last element standing in past its end |
| MatrixBasisChange.Coordinates | nodes/matrix/matrix_basis_change.py:178-183 | the entry of an axis list has three coordinates |
| MatrixBasisChange.CoordinatesRoundTrip | nodes/matrix/matrix_basis_change.py:178-183 | an axis list entry is read back as the same vector |
| MatrixBasisChange.OutputsAgree | nodes/matrix/matrix_basis_change.py:178-191 | matrix i is affine with location i as translation, and its first three columns are the X, Y and Z entries i scaled by S |
| MatrixBasisChange.AxisListsOrthogonal | nodes/matrix/matrix_basis_change.py:172-183 | the X, Y and Z entries of one item are pairwise perpendicular and not left-handed |
| MatrixBasisChange.AxisListsStrictlyRightHanded | nodes/matrix/matrix_basis_change.py:172-183 | the X, Y and Z entries of an item whose T and U are not parallel are strictly right-handed |
| MatrixBasisChange.ComputeItemFrame | nodes/matrix/matrix_basis_change.py:167-175 | the statement-by-statement rendering of `ItemFrame`, with the normalise step overwriting the frame as `normalize()` does in place: it computes exactly the item's frame, whose properties the `ItemFrame…` lemmas state |
| MatrixBasisChange.BuildOutputs | nodes/matrix/matrix_basis_change.py:162-191 | after the loop the matrix list holds every item's matrix in order, and each axis list holds every item's axis when that output is linked and nothing otherwise |
| MatrixBasisChange.BasisChangeNode.constructor | nodes/matrix/matrix_basis_change.py:32-60 | a new node has the property defaults and no output data |
| MatrixBasisChange.BasisChangeNode.Process | nodes/matrix/matrix_basis_change.py:139-196 | with no output linked nothing changes; otherwise Matrix receives the matrix list and X, Y, Z their lists wrapped once more |
| DataStructure.MaxLength | nodes/matrix/matrix_basis_change.py:158 | the longest length: it bounds every list and is reached by one of them |
| DataStructure.RepeatLast | nodes/matrix/matrix_basis_change.py:158 | a non-empty list is padded to length n by repeating its last element, keeping its own elements first |
| DataStructure.MatchLongRepeat | nodes/matrix/matrix_basis_change.py:158 | every non-empty list is brought to the longest length, broadcasting its last element; a list already that long is unchanged |
| Vector3.Normalized | nodes/matrix/matrix_basis_change.py:172-175 | Blender's `normalize()` as a rescale by the reciprocal length; `NormalizedLength`, `NormalizeUnit` and `NormalizeIdempotent` state its properties |
| Vector3.NormalizedLength | nodes/matrix/matrix_basis_change.py:172-175 | `normalize()` gives a non-zero vector unit length and leaves the zero vector zero |
| Vector3.NormalizeUnit | nodes/matrix/matrix_basis_change.py:172-175 | a unit vector is left unchanged by `normalize()` |
| Vector3.NormalizeIdempotent | nodes/matrix/matrix_basis_change.py:172-175 | normalising twice is normalising once |
| Vector3.StandardBasis | nodes/matrix/matrix_basis_change.py:50-56 | the default A = (1, 0, 0) and B = (0, 1, 0) are orthonormal, and A × B = (0, 0, 1) |
| Vector3.Cross | nodes/matrix/matrix_basis_change.py:105-131 | mathutils `Vector.cross` by the right-handed component rule; `CrossOrthogonal` and `CrossAntiCommutes` state its properties |
| Vector3.CrossOrthogonal | nodes/matrix/matrix_basis_change.py:105-131 | `a.cross(b)` is perpendicular to a and to b |
| KnotVector.Repeat | utils/curve/knotvector.py:58-65 | `[x for _ in range(0, n)]` has n copies of x, and none when n is not positive |
| KnotVector.Linspace | utils/curve/knotvector.py:62 | `np.linspace(0.0, 1.0, k)` has k samples; `LinspaceProperties` states their endpoints, bounds and order, and `LinspaceEquallySpaced` their spacing 1/(k − 1) |
| KnotVector.LinspaceEquallySpaced | utils/curve/knotvector.py:62 | consecutive samples of k ≥ 2 lie exactly 1/(k − 1) apart |
| KnotVector.LinspaceProperties | utils/curve/knotvector.py:62 | the samples of [0, 1] start at 0, end at 1 when there are two or more, lie in [0, 1] and strictly increase |
| KnotVector.SampleCount | utils/curve/knotvector.py:50-62 | the `num_segments + 2` samples asked of `np.linspace`: n − p + 1 when clamped and p + n + 1 when not; `GenerateErrors` states that a negative count is the second error |
| KnotVector.Generate | utils/curve/knotvector.py:21-68 | `generate`, with its two exceptions as `Failure`; `GenerateErrors`, `GenerateLength`, `GenerateClamped`, `GenerateUnclamped`, `GenerateSorted` and `GenerateEquallySpaced` state its properties |
| KnotVector.GenerateErrors | utils/curve/knotvector.py:43-62 | `generate` raises exactly when degree or control-point count is zero, or when the sample count is negative, and succeeds otherwise |
| KnotVector.GenerateLength | utils/curve/knotvector.py:24-65 | a generated vector has p + n + 1 knots, unclamped or with positive degree |
| KnotVector.GenerateEquallySpaced | utils/curve/knotvector.py:22-62 | the knot vector is equally spaced: after the repeated leading zeros, consecutive sample knots lie exactly 1/(k − 1) apart, k being the sample count |
| KnotVector.GenerateClamped | utils/curve/knotvector.py:47-65 | a clamped vector with at least p + 1 control points starts with p + 1 zeros and ends with p + 1 ones |
| KnotVector.GenerateUnclamped | utils/curve/knotvector.py:52-62 | an unclamped vector is the samples alone: no repeated knot, from 0 to 1 |
| KnotVector.GenerateSorted | utils/curve/knotvector.py:58-68 | every generated vector is sorted and lies in [0, 1] |
| KnotVector.ClampedSorted | utils/curve/knotvector.py:58-65 | zeros, then sorted samples of [0, 1], then ones, form a sorted vector |
| KnotVector.GenerateIsValid | utils/curve/knotvector.py:21-118 | every generated vector, unclamped or with positive degree, has p + n + 1 knots in ascending order, the condition `check` tests on a non-empty vector |
| KnotVector.CheckGenerated | utils/curve/knotvector.py:21-118 | `check(p, generate(p, n), n)` returns true for every generated vector that is unclamped or of positive degree, except the empty unclamped vector of p + n + 1 = 0, on which it raises; for a clamped vector of negative degree it returns false, or raises when the vector is empty |
| KnotVector.GenerateIsNormalized | utils/curve/knotvector.py:21-82 | `normalize` leaves a generated vector of positive degree and control-point count unchanged |
| KnotVector.NonDecreasingIffSorted | utils/curve/knotvector.py:111-116 | the adjacent test of the loop is equivalent to every knot being at most every later knot |
| KnotVector.NonDecreasingIsSorted | utils/curve/knotvector.py:111-116 | adjacent ascending order implies all-pairs order |
| KnotVector.SortedIsNonDecreasing | utils/curve/knotvector.py:111-116 | all-pairs order implies adjacent ascending order |
| KnotVector.Min | utils/curve/knotvector.py:78 | `min()` is at most every knot and is one of them |
| KnotVector.Max | utils/curve/knotvector.py:79 | `max()` is at least every knot and is one of them |
| KnotVector.Normalize | utils/curve/knotvector.py:70-82 | `normalize`, with its exceptions as `Failure`; `NormalizeErrors`, `NormalizeRange`, `NormalizeOrder` and `NormalizeIdempotent` state its properties |
| KnotVector.NormalizeErrors | utils/curve/knotvector.py:78-81 | `normalize` raises on an empty array, and on a non-empty one exactly when all knots are equal |
| KnotVector.NormalizeRange | utils/curve/knotvector.py:82 | the result has the input's length and lies in [0, 1]; exactly the minimal knots map to 0 and exactly the maximal knots to 1 |
| KnotVector.NormalizeOrder | utils/curve/knotvector.py:82 | the order of any two knots, strict or not, is preserved |
| KnotVector.NormalizeFixesUnitRange | utils/curve/knotvector.py:78-82 | a vector within [0, 1] that reaches 0 and 1 is its own normalisation |
| KnotVector.NormalizeIdempotent | utils/curve/knotvector.py:78-82 | normalising a normalised vector changes nothing |
| KnotVector.Check | utils/curve/knotvector.py:84-118 | an empty vector raises; otherwise the result is true exactly when the length is p + n + 1 and every knot is at least its predecessor |

## Left out

- The square root in `normalize()`: the reciprocal length is a parameter `invLength`. The model only assumes that it is positive and that it brings a non-zero vector to unit length (`IsReciprocalLength`).
- Floating point: all values are exact reals, so identities hold exactly rather than within a tolerance, and the rounding of `np.linspace` is not modelled.
- Host code:
  - the Blender property and socket machinery (`sv_init`, `draw_buttons`, `split_columns`, `register`, `unregister`, `updateNode`);
  - an unlinked input falling back to its property value (`origin`, `scale`, `vA`, `vB`);
  - reading the sockets (`sv_get()[0]`) and the `Vector(...)` conversions.
  
  The four input lists and the set of linked outputs are parameters of `Process`.
- `orthogonalizer` looks its method up with `eval`, and T and U are resolved with `eval` too. These are modelled as `match` over the `Order` and `Selector` datatypes.
- The body of `match_long_repeat` lives in `sverchok/data_structure.py`, which is not part of this model. It is modelled by the assumption that every list is padded by repeating its last element, and that an empty list stays empty.
- `check`'s `TypeError` branch and its `print`: a knot vector of type `seq<real>` can be neither `None` nor of the wrong type.
- Aliasing of the axis objects: every orthogonaliser returns its first argument as the kept axis, so with T = A or B, `X.normalize()` (line 173) normalises that input `Vector` in place. A later item that shares the object, as when `match_long_repeat` repeats the last element by reference, then sees the normalised A or B. The model works on values and does not capture this sharing. Over exact reals it changes no output: rescaling T by a positive factor rescales both derived axes by positive factors, and normalising removes those factors.
- `generate` returns an `np.array`. It is modelled as a sequence of reals.
- GenerateLength: a clamped vector of negative degree has no repeated end knots (`range` of a negative count is empty). Its length is then n − p + 1, and the lemma states that length rather than p + n + 1.
- The other files of the repository (`nodes/mesh/mesh_group_edit.py`, `utils/field/rbf.py`, `utils/handle_blender_data.py`) are not part of this model.
