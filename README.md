# paper.js cubic Bezier kernel and PathItem.create, in Dafny

This project models two parts of paper.js, the vector-graphics library.

The first part is the kernel of `src/path/CurveUtils.js`. It takes a cubic
Bezier curve as its eight values `[x0, y0, x1, y1, x2, y2, x3, y3]`:

- `classify`: the Loop–Blinn classification by inflection coefficients.
- `subdivide`: the de Casteljau split.
- `isStraight` and `isStraightInternal`: the straight-line tests.
- `getLength`: the arc length, with its helpers `getIterations` and `getLengthIntegrand`.
- `getTimeAt`: inverts the arc length.
- `evaluateCurve`: the point, tangent, normal or curvature at a parameter.
- `getPeaks`: the peak parameters.

The second part is the decision in `src/path/PathItem.Create.js` between a
`Path` and a `CompoundPath`.

The arithmetic is over `real`. The library's numerical collaborators are not
defined here. These are `Math.sqrt`, `Math.pow`, `Numerical.isZero`,
`Numerical.integrate`, `Numerical.findRoot`, `Numerical.solveCubic` and the
epsilon constants. Each is a field of the value `Numerical.Numerics`, and the
predicate `Numerics.Valid()` states what the kernel relies on:

- `sqrt` is a non-negative square root on non-negative arguments.
- `pow(x, 1.5)` is non-negative, and zero only at zero.
- `isZero(0)` holds.
- A step of the root search never widens its bracket.
- `solveCubic` reports at most three roots of its cubic, each inside the
  interval it was given.

The textbook Bernstein form of the curve, in `bezier.dfy`, is the reference.
The kernel's monomial arithmetic is proved against it.

Files:

- `wrappers.dfy`: `Option`.
- `numerical.dfy`: the collaborators and small facts about quotients and roots.
- `bezier.dfy`: points and the Bernstein form.
- `curve_utils.dfy`: the kernel.
- `path_item_create.dfy`: `PathItem.create`.

The pure functions of the kernel are Dafny functions. The seven listed above
(`classify`, `subdivide`, `isStraight`, `isStraightInternal`, `getLength`,
`getIterations`, `getLengthIntegrand`) and the compound decision are among
them.

Three places change state, and they are imperative Dafny:

- **The callback of `getTimeAt`.** It updates the captured `length` and
  `start`. The class `LengthAccumulator` holds that state, and `FindRoot`
  drives it.
- **`getPeaks`.** It fills an array through the solver and sorts it in place
  (`SortRoots`).
- **`evaluateCurve`.** It reassigns its locals step by step. The method
  `EvaluateCurve` does the same, and is proved equal to the specification
  function `Evaluation`.

## Model

| member | source | states |
|---|---|---|
| CurveUtils.ClassifyAs | src/path/CurveUtils.js:42-61 | the inner `type`: roots lie strictly inside (0, 1), are sorted and are exactly the interior candidates; a loop without two interior roots, or a serpentine or cusp without one, becomes an arch with no roots |
| CurveUtils.InflectionCoefficients | src/path/CurveUtils.js:21-40 | no ensures of its own: computes a1, a2, a3, then d3 = 3 a3, d2 = d3 - a2, d1 = d2 - a2 + a1, scaled by 1/l with l the length of (d1, d2, d3), or by 0 when l is 0; `ClassifyCases` and `ClassifyRootsAreExact` state what classify does with them |
| CurveUtils.Classify | src/path/CurveUtils.js:5-77 | roots are well formed; roots are absent exactly for line, quadratic and arch; a loop has two roots and a cusp one |
| CurveUtils.ClassifyCoefficients | src/path/CurveUtils.js:63-76 | the same guarantees for any inflection coefficients d1, d2, d3 |
| CurveUtils.ClassifyCases | src/path/CurveUtils.js:63-76 | d1 and d2 both zero: line or quadratic by d3. d1 zero only: serpentine with root d3/(3 d2), or arch. d zero: cusp with root d2/(2 d1), or arch. d > 0: serpentine or arch. d < 0: loop or arch |
| CurveUtils.ClassifyRootsAreExact | src/path/CurveUtils.js:63-76 | serpentine roots zero the inflection polynomial; loop roots zero the double-point polynomial; a cusp root misses by exactly -d/(4 d1) |
| CurveUtils.ClassifyTwoRootsDistinct | src/path/CurveUtils.js:72-76 | two reported roots are strictly increasing |
| CurveUtils.ClassifyZeroHandlesIsLine | src/path/CurveUtils.js:5-65 | a curve whose handles lie on their anchors is a line |
| CurveUtils.DeCasteljau | src/path/CurveUtils.js:107-116 | the final interpolation point is B(t) |
| CurveUtils.Subdivide | src/path/CurveUtils.js:99-122 | the left half starts at P0; the right half ends at P3; both meet at B(t); an absent t means 0.5 |
| CurveUtils.SubdivideRetracesCurve | src/path/CurveUtils.js:99-122 | the left half at s is the curve at t s; the right half at s is the curve at t + (1 - t) s |
| CurveUtils.IsStraightInternal | src/path/CurveUtils.js:137-164 | true when both handles are zero; false when the anchors coincide and a handle is not zero; otherwise true only if the handles are collinear with the chord, lie within epsilon of the chord line, and project into [0, 1] and [-1, 0] |
| CurveUtils.IsStraight | src/path/CurveUtils.js:125-135 | no ensures of its own: isStraightInternal on P0, the handle P1 - P0, the handle P2 - P3 and P3; `StraightControlsProjectIntoChord` and `ControlsOnChordAreStraight` state what it means for the control points |
| CurveUtils.StraightWhenTestsPass | src/path/CurveUtils.js:137-164 | the converse: when all those tests pass, the result is true |
| CurveUtils.StraightControlsProjectIntoChord | src/path/CurveUtils.js:125-135 | for a straight curve with a handle, both control points project into the chord and lie within epsilon of its line |
| CurveUtils.ControlsOnChordAreStraight | src/path/CurveUtils.js:125-164 | controls placed on the chord between the anchors always give a straight curve |
| CurveUtils.GetIterations | src/path/CurveUtils.js:299-304 | an integer in [2, 16]; 2 for ranges of at most 1/16, and 16 for ranges of at least 1/2 |
| CurveUtils.GetIterationsMonotonic | src/path/CurveUtils.js:299-304 | a longer range never gets fewer iterations |
| CurveUtils.DerivativeCoefficients | src/path/CurveUtils.js:275-288 | the coefficients agree with B' at both ends |
| CurveUtils.DerivativeCoefficientsMatchBernstein | src/path/CurveUtils.js:275-292 | (a t + b) t + c is B'(t) for every t |
| CurveUtils.LengthIntegrand | src/path/CurveUtils.js:275-296 | no ensures of its own: the closure t -> sqrt(dx^2 + dy^2) with dx, dy the derivative coefficients evaluated in Horner form; `LengthIntegrandIsSpeed` states that it is the speed of the curve |
| CurveUtils.LengthIntegrandIsSpeed | src/path/CurveUtils.js:275-296 | the integrand at t is the speed sqrt(B'(t).B'(t)), which is non-negative |
| CurveUtils.GetLength | src/path/CurveUtils.js:166-189 | the straight-curve length is non-negative; otherwise the length is the integral over [a, b] with getIterations(a, b) steps and ds defaulting to the curve's integrand |
| CurveUtils.StraightPiece | src/path/CurveUtils.js:171-181 | no ensures of its own: the left half at b (when b < 1, rescaling a to a/b), then the right half of that at a (when a > 0); `StraightPieceEnds` states that it runs from B(a) to B(b) |
| CurveUtils.StraightLengthIsChord | src/path/CurveUtils.js:171-185 | for a straight curve with 0 <= a <= b <= 1, the length is the distance between B(a) and B(b) |
| CurveUtils.StraightLengthIsAnchorDistance | src/path/CurveUtils.js:166-185 | with the default range, a straight curve's length is the distance between its anchors |
| CurveUtils.StraightLengthExample | src/path/CurveUtils.js:166-185 | the straight curve from (0, 0) to (3, 4) has length 5 |
| CurveUtils.LengthAccumulator.constructor | src/path/CurveUtils.js:218-219 | the callback state starts at `start` with length 0 |
| CurveUtils.LengthAccumulator.Evaluate | src/path/CurveUtils.js:224-230 | f(t) adds the integral from start to t, moves start to t and returns length - offset; the accumulated length stays the sum over all probes |
| CurveUtils.FindRoot | src/path/CurveUtils.js:233-234 | the search calls f at most n times and keeps the accumulator consistent; the result lies in [a, b] |
| CurveUtils.DefaultStart | src/path/CurveUtils.js:192-193 | a given start is kept; without one it is 1 for a negative offset and 0 otherwise, so a nonzero offset searches all of [0, 1] |
| CurveUtils.TimeRange | src/path/CurveUtils.js:200-202 | forward searches [start, 1]; backward searches [0, start] |
| CurveUtils.GetTimeAt | src/path/CurveUtils.js:191-235 | offset 0 returns start; an offset within epsilon of the range length returns b going forward and a going backward; the result is None exactly when the offset exceeds the range length by more than epsilon; otherwise the result lies in the range |
| CurveUtils.SnappedIdempotent | src/path/CurveUtils.js:317-324 | resetting near-zero handles keeps the anchors and is idempotent |
| CurveUtils.Snapped | src/path/CurveUtils.js:317-324 | the anchors stay; a handle moves onto its own anchor exactly when isZero accepts its offset from that anchor, and is untouched otherwise |
| CurveUtils.Evaluation | src/path/CurveUtils.js:306-341 | None exactly for a missing t or t outside [0, 1]; a point of type 0 is exactly P0 at t = 0 and exactly P3 at t = 1 |
| CurveUtils.EvaluateCurve | src/path/CurveUtils.js:306-393 | the step-by-step monomial computation equals `Evaluation`, the Bernstein-form specification |
| CurveUtils.MonomialTangent | src/path/CurveUtils.js:353-362 | the tangent step: (cx, cy) below tMin, 3 (P3 - P2) above tMax, the monomial derivative in between, all equal to the Bernstein derivative |
| CurveUtils.NormalizeTangent | src/path/CurveUtils.js:372-376 | the normalisation step computes `Normalized`, which `NormalizedIsUnit` shows to have length 1 for any vector other than 0 |
| CurveUtils.CurvatureOf | src/path/CurveUtils.js:382-388 | the curvature step computes `Curvature`, whose zero set and sign `CurvatureSign` ties to the cross product of tangent and B'' |
| CurveUtils.MonomialEvaluation | src/path/CurveUtils.js:326-341 | the monomial coefficients of the (snapped) control points give B, B' and B'' of the curve through them, and B' at both ends |
| CurveUtils.EvaluationIsPoint | src/path/CurveUtils.js:333-341 | type 0 is the point of the snapped curve for every t in [0, 1], the ends included |
| CurveUtils.EvaluationIsTangent | src/path/CurveUtils.js:350-362 | the tangent is B'(t); below tMin it is 3 (P1 - P0), and above tMax it is 3 (P3 - P2) |
| CurveUtils.EvaluationNormalIsPerpendicular | src/path/CurveUtils.js:391-392 | type 2 is the tangent rotated to (y, -x): perpendicular to it and of the same length |
| CurveUtils.NormalizedIsUnit | src/path/CurveUtils.js:372-376 | a vector other than 0 normalises to length 1; the zero vector stays 0 |
| CurveUtils.EvaluationUnitTangent | src/path/CurveUtils.js:363-377 | with normalized set, the tangent and the normal have length 1 unless `TangentOrHandles` is 0, that is, the tangent is 0 and, when t is within tMin of an end, P2 - P1 is 0 as well; otherwise the result is the zero vector |
| CurveUtils.CurvatureSign | src/path/CurveUtils.js:382-388 | the curvature is 0 exactly when the tangent is 0 or parallel to B''; otherwise it has the sign of their cross product |
| CurveUtils.EvaluationIsCurvature | src/path/CurveUtils.js:378-389 | type 3 is (k, 0), with k the curvature of the reported tangent and B''; k is zero and positive under the same conditions as above |
| CurveUtils.PeakCubicIsHalfDot | src/path/CurveUtils.js:251-271 | the cubic handed to solveCubic is half of B'(t).B''(t) |
| CurveUtils.PeaksOfFoundRoots | src/path/CurveUtils.js:264-271 | every reported root lies in [tMin, 1 - tMin] and zeroes B'.B'' |
| CurveUtils.CompareExchange | src/path/CurveUtils.js:272 | the two places end up in order, the rest of the array unchanged, as a permutation |
| CurveUtils.SortRoots | src/path/CurveUtils.js:272 | the roots end up sorted under the sort order, as a permutation of the reported roots |
| CurveUtils.GetPeaks | src/path/CurveUtils.js:251-273 | at most three peaks: a sorted permutation of the solver's roots, each in [tMin, 1 - tMin] and a zero of B'.B'' |
| CurveUtils.PeakCoefficients | src/path/CurveUtils.js:252-269 | no ensures of its own: ax, bx, cx, ay, by, cy as getPeaks writes them, and the four solveCubic coefficients built from them |
| CurveUtils.PeakCoefficientsAreMonomial | src/path/CurveUtils.js:252-269 | the coefficients getPeaks writes out are the monomial coefficients evaluateCurve derives (CurveUtils.js:326-331) |
| PathItemCreate.First | src/path/PathItem.Create.js:52-53 | `v[0]` is an array's first element, or undefined for an empty array |
| PathItemCreate.HasNonWhitespace | src/path/PathItem.Create.js:58 | true exactly when some character is not whitespace |
| PathItemCreate.FirstNonWhitespace | src/path/PathItem.Create.js:58 | the first character that is not whitespace: everything before it is whitespace |
| PathItemCreate.MoveToCount | src/path/PathItem.Create.js:57 | the number of m/M matches never exceeds the length |
| PathItemCreate.MoveToCountSeveral | src/path/PathItem.Create.js:57 | more than one m/M match is counted exactly when two positions hold one |
| PathItemCreate.ClosePathFollowedScan | src/path/PathItem.Create.js:58 | no ensures of its own: true when some z/Z has a character other than whitespace somewhere after it; `ClosePathScanIsRegex` states that this decides the regular expression |
| PathItemCreate.ClosePathScanIsRegex | src/path/PathItem.Create.js:58 | the scan is true exactly when a z/Z is followed by optional whitespace and then a character that is not whitespace |
| PathItemCreate.CompoundData | src/path/PathItem.Create.js:57-58 | no ensures of its own: more than one m/M, or the closePath scan; `StringCompoundIff` states what it means |
| PathItemCreate.CompoundSegments | src/path/PathItem.Create.js:52-53 | no ensures of its own: `first && Array.isArray(first[0])` for first the value's element 0; `ArrayCompoundIff` states it for arrays |
| PathItemCreate.SegmentsOf | src/path/PathItem.Create.js:43-50 | no ensures of its own: `arg.segments` for a plain object, the array itself for an array, undefined otherwise |
| PathItemCreate.DataOf | src/path/PathItem.Create.js:43-50 | no ensures of its own: `arg.pathData` for a plain object, the string itself for a string, undefined otherwise |
| PathItemCreate.Create | src/path/PathItem.Create.js:39-62 | the argument is passed unchanged to the constructor; only truthy path data that is not a string, in a plain object without segments, raises a TypeError; anything not a plain object, array or string gives a Path |
| PathItemCreate.StringCompoundIff | src/path/PathItem.Create.js:48-60 | a string gives a CompoundPath exactly when it holds two m/M, or a z/Z followed after whitespace by another character |
| PathItemCreate.ArrayCompoundIff | src/path/PathItem.Create.js:46-53 | an array gives a CompoundPath exactly when its first element is truthy and starts with an array; an empty array gives a Path |
| PathItemCreate.EmptyStringIsPath | src/path/PathItem.Create.js:48-60 | the empty string gives a Path |
| PathItemCreate.SegmentsDecide | src/path/PathItem.Create.js:43-54 | in a plain object with truthy segments, the segments decide and pathData is ignored |
| PathItemCreate.PathDataDecides | src/path/PathItem.Create.js:43-59 | a plain object without segments is decided by its pathData string, as that string alone would be |

## Left out

- Floating point. Arithmetic is over the reals, so round-off, NaN and the infinities are not modelled. `evaluateCurve` with a NaN parameter, which passes its domain check in JavaScript, has no counterpart.
- The code of `Math.sqrt`, `Math.pow` and `Numerical` (`isZero`, `integrate`, `findRoot`, `solveCubic`, the epsilons) is not part of this model. Each is a parameter with the contract in `Numerics.Valid()`.
- The `Point` and `Line` classes are not part of this model. `isZero` on points, `isCollinear` (a cross product within the trigonometric epsilon of the two lengths), `dot` and `getDistance` are defined locally.
- FindRoot: the body of `Numerical.findRoot` is unseen. Its update rule is the abstract `rootStep`, assumed never to widen the bracket, followed by a clamp into the bracket. Convergence and accuracy of the search are not modelled, so the round trip between `getTimeAt` and `getLength` is not stated.
- GetTimeAt: its clause that a found parameter lies in [a, b] rests on the assumption in `Numerics.Valid()` that a step of the root search never widens the bracket, made for every candidate, also one outside the bracket. The first candidate `start + offset / rangeLength` can lie outside [a, b], for instance 1.4 when walking forward from 0.5 with an offset of 0.9 times the range length. What findRoot does with such a candidate is outside this model.
- GetTimeAt: when the range length is 0, JavaScript's guess `offset / rangeLength` is infinite. The model starts the search at `start` instead. This path is reached only when `|offset|` equals the epsilon exactly.
- GetLength: requires that `b = 0` implies `a <= 0`. For `b = 0` and `a > 0`, JavaScript divides to an infinite parameter, which the reals cannot express.
- SortRoots: `roots.sort()` compares the numbers' string forms. The order is the parameter `before`, and only its being a total preorder is used. Whether it is numeric order is not stated, because numbers in exponent form break it. The engine's sorting algorithm is replaced by a three-element compare-exchange network with the same contract.
- GetPeaks returns the sorted roots as a sequence instead of the JavaScript array object.
- Values taken from the array argument of `PathItem.create`, and from a plain object's `segments`, are read with `First` only. Getters, prototypes and array-like objects other than plain property maps are not modelled.
- Create: truthy path data that is not a string is taken to raise a TypeError at `data.match`. An object that supplies its own `match` method is not modelled.
- `Base.isPlainObject` is not part of this model. Its answer is the `plain` flag of an object value.
- `getValues` is not part of this model, its matrix branch included: the model starts from the eight coordinates `CurveValues`.
