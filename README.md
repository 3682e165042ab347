# pipe-bender geometry, modelled in Dafny

pipe-bender turns a polyline of 3-D waypoints into a bent pipe. At every
interior waypoint it fits a circular arc, the bend, of one fixed radius. It
builds a straight segment between every two consecutive waypoints. It then
trims each segment so that it runs from the tangent-out point of the previous
bend to the tangent-in point of the next one. The result is a `BendedPipe`.
Its total length is the sum of the segment lengths and the arc lengths. The
engine can also measure the twist between the bend planes of two arcs.

The model has two modules:

- `Vectors` (`vectors.dfy`) stands in for the `vec3` package. It defines
  vectors over the reals and their exact arithmetic. The floating-point
  operations that have no exact real counterpart are gathered in a `Numerics`
  record, which every caller passes in and which stays uninterpreted. These
  are normalisation, square root, arc cosine, Euclidean distance, JavaScript
  division (which can give Infinity or NaN) and pi.
- `Geometry` (`geometry.dfy`) models `pipe-bender/src/Geometry.tsx`:
  - `Arc` and `BendedPipe` are never changed after they are built, so they are
    datatypes. A pipe holds its segments as a sequence of object references.
  - `Segment` is a class, because `calcPipe` reassigns the `start` and `end` of
    each segment in place.
  - The exception thrown by the Segment constructor becomes a `Result` whose
    error is `PointsTooClose(start, end)`.
  - `calcPipe` is a method. It is split into its three passes: `FitArcs`,
    `BuildSegments` and `TrimToArcs`. `TrimToArcs` is the in-place `forEach`
    loop over the segment objects.

In three places the model keeps what the code does, which a reader might not
expect:

- The Eps guard is applied only to the untrimmed consecutive waypoints. It
  fires while the segments are built, before trimming.
- Fewer than three waypoints are accepted. Two waypoints give one segment and
  no arc. One or zero give an empty pipe.
- There is no separate error for a degenerate bend, such as collinear points or
  a doubled-back path. `calcCurve` returns whatever the floating-point
  operations produce.

## Model

| member | source | states |
|---|---|---|
| Geometry.Range | pipe-bender/src/Geometry.tsx:79-84 | `range(start, end)` has `max(0, end - start)` elements, and element `k` is `start + k`; it is empty when `end <= start` |
| Geometry.CalcCurve | pipe-bender/src/Geometry.tsx:86-113 | the fitted arc carries the requested radius unchanged |
| Geometry.TangentPointsOnRays | pipe-bender/src/Geometry.tsx:98-109 | the start and the end of the arc are `p1` displaced along `v10` and along `v12` by one and the same scalar |
| Geometry.TangentPointsEquidistant | pipe-bender/src/Geometry.tsx:98-109 | for unit `v10`, `v12`, both tangent points are equally far from the vertex `p1` |
| Geometry.ArcCenterAtRadius | pipe-bender/src/Geometry.tsx:98-111 | when normalisation, square root and division are exact, both tangent points are exactly `radius` from the center, so the arc has the radius it carries |
| Geometry.ArcTangentToLegs | pipe-bender/src/Geometry.tsx:98-109 | for unit `v10`, `v12` and a bisector along `v10 + v12`, the arc is tangent to both legs: the radius to the start is perpendicular to `v10`, and the radius to the end is perpendicular to `v12` |
| Geometry.ArcsAngle | pipe-bender/src/Geometry.tsx:135-141 | the twist between bend planes, `min(pi - angle, angle)`, never exceeds `pi / 2` |
| Geometry.ArcsAngleSymmetric | pipe-bender/src/Geometry.tsx:135-141 | the twist does not depend on the order of the two arcs |
| Geometry.ArcsAngleRange | pipe-bender/src/Geometry.tsx:135-141 | when `acos` ranges over `[0, pi]`, the twist lies in `[0, pi / 2]` |
| Geometry.Segment.constructor | pipe-bender/src/Geometry.tsx:50-54 | a segment keeps its two points, and `dirRough` is `end - start` |
| Geometry.Segment.New | pipe-bender/src/Geometry.tsx:50-56 | construction succeeds iff the squared distance exceeds `Eps²`; otherwise the error names both points; a new segment has the given fields |
| Geometry.ReduceIsSum | pipe-bender/src/Geometry.tsx:74-75 | the left fold that adds each element to the accumulator, as `totalLength` reduces its arrays, equals the starting value plus the sum of the sequence |
| Geometry.SumAppend | pipe-bender/src/Geometry.tsx:74-75 | the sum of a concatenation is the sum of the sums |
| Geometry.TotalLengthIsSum | pipe-bender/src/Geometry.tsx:73-76 | `totalLength` is the sum of the segment lengths plus the sum of the arc lengths |
| Geometry.EmptyPipeTotalLength | pipe-bender/src/Geometry.tsx:73-76 | a pipe with no segments and no arcs has total length 0 |
| Geometry.Unrolled | pipe-bender/src/Geometry.tsx:115-133 | the lengths in pipe order interleave run `i` and bend `i`, and end with the last run |
| Geometry.UnrolledSum | pipe-bender/src/Geometry.tsx:73-76 | summing the lengths in pipe order counts every run and every bend exactly once |
| Geometry.TotalLengthUnrolled | pipe-bender/src/Geometry.tsx:73-76 | for alternating runs and bends, `totalLength` is the length measured along the pipe |
| Geometry.TrimToArcs | pipe-bender/src/Geometry.tsx:122-130 | segment `k` ends at the start of arc `k` (when there is one) and starts at the end of arc `k - 1` (when `k > 0`); the first start, the last end and every `dirRough` are unchanged; when there are segments, runs and bends alternate with matching endpoints |
| Geometry.FitArcs | pipe-bender/src/Geometry.tsx:117-118 | there is one arc per interior waypoint (`n - 2` for `n >= 2`, else 0), and arc `i` is `calcCurve` of waypoints `i`, `i + 1`, `i + 2` |
| Geometry.BuildSegments | pipe-bender/src/Geometry.tsx:120-121 | it succeeds iff every consecutive pair is farther apart than Eps; on failure the error names the first pair that is too close; on success segment `k` is new and runs from waypoint `k` to `k + 1`, and all segments are distinct objects |
| Geometry.CalcPipe | pipe-bender/src/Geometry.tsx:115-133 | throws iff some consecutive pair of untrimmed waypoints is within Eps, naming the first such pair; otherwise there are `n - 2` arcs fitted as above and `n - 1` segments; runs and bends alternate with matching endpoints (tangent continuity); the pipe starts at the first waypoint and ends at the last; every `dirRough` is the untrimmed direction; every segment is a new object |
| Vectors.DisplacedDistance | pipe-bender/src/Geometry.tsx:108-109 | the squared distance from `p` to `p + v*d` is `d²·|v|²` |
| Vectors.OffsetNorm | pipe-bender/src/Geometry.tsx:106-109 | for unit `h`, `v` with inner product `c`, `|h·t - v·(c·t)|² = t²(1 - c²)` |
| Vectors.TangentRadius | pipe-bender/src/Geometry.tsx:103-109 | with `s² = 1 - c²` and `t·s = radius`, the center offset from a tangent point has squared length `radius²` |
| Vectors.OffsetPerpendicular | pipe-bender/src/Geometry.tsx:106-109 | for unit `v` with `h·v = c`, the offset `h·t - v·(c·t)` from a tangent point to the center is perpendicular to `v` |
| Vectors.BisectorAngles | pipe-bender/src/Geometry.tsx:100-102 | a multiple of the sum of two unit vectors has equal inner products with both, so `cosTheta` is the same on either side |

## Left out

- Floating point: all arithmetic is over the reals. NaN, Infinity, rounding and the 1e-10 comparison in binary64 are not modelled. Normalisation, `Math.sqrt`, `Math.acos`, `distanceTo`, division by `sinTheta` and `Math.PI` are uninterpreted parameters.
- Geometry.CalcCurve: its own contract only states the radius. Where the tangent points and the center lie is stated by the lemmas next to it. The fact that the center really is `radius` away holds only under the exactness assumptions of `ArcCenterAtRadius`, because the real function depends on the uninterpreted operations.
- Geometry.ArcsAngle: the lower bound 0 and the meaning of the angle depend on `Math.acos`, which is uninterpreted. The lower bound is proved only under the range assumption of `ArcsAngleRange`.
- Arc.length, Segment.length and Arc.perpendicular are modelled as plain functions (`Arc.Length`, `Segment.Length`, `Arc.Perpendicular`). They carry no contract of their own beyond their definition, because their values come from the uninterpreted operations.
- Geometry.Range: it takes integers, while the source's `range` accepts any number (a fractional start yields fractional steps). `calcPipe` only ever passes integers, so nothing modelled depends on the difference.
- `radianToDegree` is a unit conversion used only for display. It is not part of this model.
- The React component, the desktop shell and the `vec3` package are not part of this model. `vec3` is represented only by the exact vector operations the engine calls.
- Object identity: the model states that the segments of a pipe are distinct, new objects, and that the pipe's arcs are values. It does not model JavaScript's sharing of the `Vec3` objects themselves. `calcPipe` assigns the arcs' own tangent-point vectors to the segments. Vectors here are immutable values, and the engine always clones a vector before it mutates one.
