/**
 * The pipe-bender geometry engine: fitting a circular bend of a fixed radius
 * at every interior waypoint of a polyline, stitching the straight runs
 * between the bends, and the derived lengths and bend-plane twist.
 *
 * `Arc` and `BendedPipe` are never changed after construction and are values
 * here; `Segment` objects have their endpoints reassigned while the pipe is
 * assembled and are a class.
 */
module Geometry {
  import opened Vectors

  /** `GeometryConst.Eps`: the closest two consecutive waypoints may be. */
  const Eps: real := 0.0000000001

  /** The `Error` thrown by the Segment constructor's guard, with the two points its message names. */
  datatype Error = PointsTooClose(start: Vec3, end: Vec3)

  datatype Result<T> = Ok(value: T) | Err(error: Error)

  /** The Segment constructor's guard: squared distance strictly above Eps². */
  predicate FarApart(start: Vec3, end: Vec3) {
    start.DistanceSquared(end) > Eps * Eps
  }

  /** `range(start, end)`: the ascending integers `start, start + 1, ..., end - 1`. */
  method Range(start: int, end: int) returns (r: seq<int>)
    ensures |r| == if end <= start then 0 else end - start
    ensures forall k :: 0 <= k < |r| ==> r[k] == start + k
  {
    r := [];
    var i := start;
    while i < end
      invariant i == start || start < i <= end
      invariant |r| == i - start
      invariant forall k :: 0 <= k < |r| ==> r[k] == start + k
    {
      r := r + [i];
      i := i + 1;
    }
  }

  // ---------------------------------------------------------------------------
  // Arcs

  /** One circular bend: its center, tangent-in point, tangent-out point, swept angle and radius. */
  datatype Arc = Arc(center: Vec3, start: Vec3, end: Vec3, centralAngle: real, radius: real) {

    function Length(): real {
      centralAngle * radius
    }

    /** The normal of the bend plane. */
    function Perpendicular(num: Numerics): Vec3 {
      num.normalize(start.Subtract(center).Cross(end.Subtract(center)))
    }
  }

  /** The unit direction from `vertex` toward `target` (`v10`, `v12` in the source). */
  function Direction(num: Numerics, vertex: Vec3, target: Vec3): Vec3 {
    num.normalize(target.Subtract(vertex))
  }

  /** `h`: the normalised sum of the two unit directions out of the vertex `p1`. */
  function Bisector(num: Numerics, p0: Vec3, p1: Vec3, p2: Vec3): Vec3 {
    num.normalize(Direction(num, p1, p0).Add(Direction(num, p1, p2)))
  }

  /** `cosTheta`; the source normalises `v10` a second time before the inner product. */
  function CosTheta(num: Numerics, p0: Vec3, p1: Vec3, p2: Vec3): real {
    Bisector(num, p0, p1, p2).InnerProduct(num.normalize(Direction(num, p1, p0)))
  }

  function SinTheta(num: Numerics, p0: Vec3, p1: Vec3, p2: Vec3): real {
    var c := CosTheta(num, p0, p1, p2);
    num.sqrt(1.0 - c * c)
  }

  /** `t = radius / sinTheta`: how far the center lies from the vertex along the bisector. */
  function CenterDistance(num: Numerics, p0: Vec3, p1: Vec3, p2: Vec3, radius: real): real {
    num.divide(radius, SinTheta(num, p0, p1, p2))
  }

  /** `cosTheta * t`: how far each tangent point lies from the vertex along its direction. */
  function TangentDistance(num: Numerics, p0: Vec3, p1: Vec3, p2: Vec3, radius: real): real {
    CosTheta(num, p0, p1, p2) * CenterDistance(num, p0, p1, p2, radius)
  }

  /**
   * `calcCurve`: the arc of the given radius rounding the vertex `p1`. No input
   * is rejected: collinear or coincident points produce whatever the
   * floating-point operations produce.
   */
  function CalcCurve(num: Numerics, p0: Vec3, p1: Vec3, p2: Vec3, radius: real): (a: Arc)
    ensures a.radius == radius
  {
    var v10 := Direction(num, p1, p0);
    var v12 := Direction(num, p1, p2);
    var h := Bisector(num, p0, p1, p2);
    var cosTheta := CosTheta(num, p0, p1, p2);
    var t := CenterDistance(num, p0, p1, p2, radius);
    var center := p1.Add(h.Scale(t));
    var centralAngle := num.pi - num.acos(cosTheta) * 2.0;
    var d := TangentDistance(num, p0, p1, p2, radius);
    var start := p1.Add(v10.Scale(d));
    var end := p1.Add(v12.Scale(d));
    Arc(center, start, end, centralAngle, radius)
  }

  /** Where `calcCurve` puts the center and the two tangent points. */
  lemma CalcCurvePoints(num: Numerics, p0: Vec3, p1: Vec3, p2: Vec3, radius: real)
    ensures var a := CalcCurve(num, p0, p1, p2, radius);
            var t, d := CenterDistance(num, p0, p1, p2, radius), TangentDistance(num, p0, p1, p2, radius);
            && a.center == p1.Add(Bisector(num, p0, p1, p2).Scale(t))
            && a.start == p1.Add(Direction(num, p1, p0).Scale(d))
            && a.end == p1.Add(Direction(num, p1, p2).Scale(d))
  {
  }

  /**
   * The two tangent points of a fitted arc lie on the rays from the vertex `p1`
   * toward `p0` and toward `p2`, displaced by one and the same scalar.
   */
  lemma TangentPointsOnRays(num: Numerics, p0: Vec3, p1: Vec3, p2: Vec3, radius: real)
    ensures var a := CalcCurve(num, p0, p1, p2, radius);
            exists d: real ::
              && a.start == p1.Add(Direction(num, p1, p0).Scale(d))
              && a.end == p1.Add(Direction(num, p1, p2).Scale(d))
  {
    CalcCurvePoints(num, p0, p1, p2, radius);
    var d := TangentDistance(num, p0, p1, p2, radius);
    assert CalcCurve(num, p0, p1, p2, radius).start == p1.Add(Direction(num, p1, p0).Scale(d));
  }

  /**
   * When `normalize` returns unit vectors, the two tangent points of a fitted
   * arc are equally far from the vertex.
   */
  lemma TangentPointsEquidistant(num: Numerics, p0: Vec3, p1: Vec3, p2: Vec3, radius: real)
    requires IsUnit(Direction(num, p1, p0)) && IsUnit(Direction(num, p1, p2))
    ensures var a := CalcCurve(num, p0, p1, p2, radius);
            p1.DistanceSquared(a.start) == p1.DistanceSquared(a.end)
  {
    var a := CalcCurve(num, p0, p1, p2, radius);
    TangentPointsOnRays(num, p0, p1, p2, radius);
    var d :| a.start == p1.Add(Direction(num, p1, p0).Scale(d))
          && a.end == p1.Add(Direction(num, p1, p2).Scale(d));
    DisplacedDistance(p1, Direction(num, p1, p0), d);
    DisplacedDistance(p1, Direction(num, p1, p2), d);
  }

  /**
   * Where the floating-point operations are exact (unit directions, a
   * normalised bisector along `v10 + v12`, an exact square root and an exact
   * quotient), both tangent points of a fitted arc lie at distance `radius`
   * from its center: the arc really has the radius it carries.
   */
  lemma ArcCenterAtRadius(num: Numerics, p0: Vec3, p1: Vec3, p2: Vec3, radius: real, k: real)
    requires IsUnit(Direction(num, p1, p0)) && IsUnit(Direction(num, p1, p2))
    requires num.normalize(Direction(num, p1, p0)) == Direction(num, p1, p0)
    requires Bisector(num, p0, p1, p2) == Direction(num, p1, p0).Add(Direction(num, p1, p2)).Scale(k)
    requires IsUnit(Bisector(num, p0, p1, p2))
    requires SinTheta(num, p0, p1, p2) * SinTheta(num, p0, p1, p2)
             == 1.0 - CosTheta(num, p0, p1, p2) * CosTheta(num, p0, p1, p2)
    requires CenterDistance(num, p0, p1, p2, radius) * SinTheta(num, p0, p1, p2) == radius
    ensures var a := CalcCurve(num, p0, p1, p2, radius);
            a.center.DistanceSquared(a.start) == radius * radius
            && a.center.DistanceSquared(a.end) == radius * radius
  {
    var v10, v12 := Direction(num, p1, p0), Direction(num, p1, p2);
    var h := Bisector(num, p0, p1, p2);
    var c, s := CosTheta(num, p0, p1, p2), SinTheta(num, p0, p1, p2);
    var t := CenterDistance(num, p0, p1, p2, radius);
    assert c == h.InnerProduct(v10);
    BisectorAngles(v10, v12, k);
    CalcCurvePoints(num, p0, p1, p2, radius);
    assert TangentDistance(num, p0, p1, p2, radius) == c * t;
    OffsetDistance(p1, h.Scale(t), v10.Scale(c * t));
    OffsetDistance(p1, h.Scale(t), v12.Scale(c * t));
    TangentRadius(h, v10, t, c, s, radius);
    TangentRadius(h, v12, t, c, s, radius);
  }

  /**
   * Under the same exactness assumptions as above, a fitted arc is tangent to
   * both legs of the corner: the radius to its start is perpendicular to the
   * direction toward `p0`, and the radius to its end to the direction toward `p2`.
   */
  lemma ArcTangentToLegs(num: Numerics, p0: Vec3, p1: Vec3, p2: Vec3, radius: real, k: real)
    requires IsUnit(Direction(num, p1, p0)) && IsUnit(Direction(num, p1, p2))
    requires num.normalize(Direction(num, p1, p0)) == Direction(num, p1, p0)
    requires Bisector(num, p0, p1, p2) == Direction(num, p1, p0).Add(Direction(num, p1, p2)).Scale(k)
    ensures var a := CalcCurve(num, p0, p1, p2, radius);
            && a.center.Subtract(a.start).InnerProduct(Direction(num, p1, p0)) == 0.0
            && a.center.Subtract(a.end).InnerProduct(Direction(num, p1, p2)) == 0.0
  {
    var v10, v12 := Direction(num, p1, p0), Direction(num, p1, p2);
    var h := Bisector(num, p0, p1, p2);
    var c := CosTheta(num, p0, p1, p2);
    var t := CenterDistance(num, p0, p1, p2, radius);
    assert c == h.InnerProduct(v10);
    BisectorAngles(v10, v12, k);
    CalcCurvePoints(num, p0, p1, p2, radius);
    assert TangentDistance(num, p0, p1, p2, radius) == c * t;
    TranslationCancels(p1, h.Scale(t), v10.Scale(c * t));
    TranslationCancels(p1, h.Scale(t), v12.Scale(c * t));
    OffsetPerpendicular(h, v10, t, c);
    OffsetPerpendicular(h, v12, t, c);
  }

  /** `calcArcsAngle`: the twist between the bend planes of two arcs, folded to at most a right angle. */
  function ArcsAngle(num: Numerics, a0: Arc, a1: Arc): (r: real)
    ensures r <= num.pi / 2.0
  {
    var angle := num.acos(a0.Perpendicular(num).InnerProduct(a1.Perpendicular(num)));
    if num.pi - angle <= angle then num.pi - angle else angle
  }

  /** The twist does not depend on the order of the two arcs. */
  lemma ArcsAngleSymmetric(num: Numerics, a0: Arc, a1: Arc)
    ensures ArcsAngle(num, a0, a1) == ArcsAngle(num, a1, a0)
  {
  }

  /** With `acos` ranging over `[0, pi]`, the twist lies in `[0, pi/2]`. */
  lemma ArcsAngleRange(num: Numerics, a0: Arc, a1: Arc)
    requires forall c :: 0.0 <= num.acos(c) <= num.pi
    ensures 0.0 <= ArcsAngle(num, a0, a1) <= num.pi / 2.0
  {
  }

  // ---------------------------------------------------------------------------
  // Segments and the assembled pipe

  /** One straight run; `dirRough` keeps the direction of the untrimmed run. */
  class Segment {
    var start: Vec3
    var end: Vec3
    var dirRough: Vec3

    constructor (start: Vec3, end: Vec3)
      ensures this.start == start && this.end == end && dirRough == end.Subtract(start)
    {
      this.start := start;
      this.end := end;
      dirRough := end.Subtract(start);
    }

    /** `new Segment(start, end)`, including the guard that throws when the points are too close. */
    static method New(start: Vec3, end: Vec3) returns (r: Result<Segment>)
      ensures r.Ok? <==> FarApart(start, end)
      ensures r.Err? ==> r.error == PointsTooClose(start, end)
      ensures r.Ok? ==> fresh(r.value)
      ensures r.Ok? ==> r.value.start == start && r.value.end == end && r.value.dirRough == end.Subtract(start)
    {
      var s := new Segment(start, end);
      if !FarApart(s.start, s.end) {
        return Err(PointsTooClose(s.start, s.end));
      }
      return Ok(s);
    }

    function Length(num: Numerics): real
      reads this
    {
      num.distanceTo(start, end)
    }
  }

  /** The straight runs and the bends of a pipe, in order along the pipe. */
  datatype BendedPipe = BendedPipe(segments: seq<Segment>, arcs: seq<Arc>) {

    /** `totalLength`: the segment lengths and the arc lengths, each summed left to right from 0. */
    function TotalLength(num: Numerics): real
      reads segments
    {
      Reduce(0.0, SegmentLengths(num, segments)) + Reduce(0.0, ArcLengths(arcs))
    }

    /**
     * The runs and bends alternate, starting and ending with a run, and each
     * run ends where the next bend starts and starts where the previous bend ends.
     */
    predicate Stitched()
      reads segments
    {
      && |segments| == |arcs| + 1
      && (forall i :: 0 <= i < |arcs| ==> segments[i].end == arcs[i].start)
      && (forall i :: 0 <= i < |arcs| ==> segments[i + 1].start == arcs[i].end)
    }
  }

  function SegmentLengths(num: Numerics, segments: seq<Segment>): seq<real>
    reads segments
  {
    seq(|segments|, i requires 0 <= i < |segments| reads segments => segments[i].Length(num))
  }

  function ArcLengths(arcs: seq<Arc>): seq<real> {
    seq(|arcs|, i requires 0 <= i < |arcs| => arcs[i].Length())
  }

  /** The array reduction `totalLength` applies: a left fold adding each element to the accumulator. */
  function Reduce(acc: real, xs: seq<real>): real
    decreases |xs|
  {
    if xs == [] then acc else Reduce(acc + xs[0], xs[1..])
  }

  /** The sum of a sequence, as a reference for `Reduce`. */
  function Sum(xs: seq<real>): real
    decreases |xs|
  {
    if xs == [] then 0.0 else xs[0] + Sum(xs[1..])
  }

  lemma {:induction false} ReduceIsSum(acc: real, xs: seq<real>)
    ensures Reduce(acc, xs) == acc + Sum(xs)
    decreases |xs|
  {
    if xs != [] {
      ReduceIsSum(acc + xs[0], xs[1..]);
    }
  }

  lemma {:induction false} SumAppend(xs: seq<real>, ys: seq<real>)
    ensures Sum(xs + ys) == Sum(xs) + Sum(ys)
    decreases |xs|
  {
    if xs == [] {
      assert xs + ys == ys;
    } else {
      assert (xs + ys)[1..] == xs[1..] + ys;
      SumAppend(xs[1..], ys);
    }
  }

  /** The lengths along the pipe: run 0, bend 0, run 1, bend 1, ..., the last run. */
  function Unrolled(segmentLengths: seq<real>, arcLengths: seq<real>): (u: seq<real>)
    requires |segmentLengths| == |arcLengths| + 1
    ensures |u| == |segmentLengths| + |arcLengths|
    ensures forall i :: 0 <= i < |arcLengths| ==> u[2 * i] == segmentLengths[i] && u[2 * i + 1] == arcLengths[i]
    ensures u[|u| - 1] == segmentLengths[|arcLengths|]
    decreases |arcLengths|
  {
    if arcLengths == [] then segmentLengths
    else [segmentLengths[0], arcLengths[0]] + Unrolled(segmentLengths[1..], arcLengths[1..])
  }

  /** Summing along the pipe counts every run and every bend exactly once. */
  lemma {:induction false} UnrolledSum(segmentLengths: seq<real>, arcLengths: seq<real>)
    requires |segmentLengths| == |arcLengths| + 1
    ensures Sum(Unrolled(segmentLengths, arcLengths)) == Sum(segmentLengths) + Sum(arcLengths)
    decreases |arcLengths|
  {
    if arcLengths != [] {
      var rest := Unrolled(segmentLengths[1..], arcLengths[1..]);
      SumAppend([segmentLengths[0], arcLengths[0]], rest);
      UnrolledSum(segmentLengths[1..], arcLengths[1..]);
    }
  }

  /** The total length is the sum of the segment lengths plus the sum of the arc lengths. */
  lemma TotalLengthIsSum(pipe: BendedPipe, num: Numerics)
    ensures pipe.TotalLength(num) == Sum(SegmentLengths(num, pipe.segments)) + Sum(ArcLengths(pipe.arcs))
  {
    ReduceIsSum(0.0, SegmentLengths(num, pipe.segments));
    ReduceIsSum(0.0, ArcLengths(pipe.arcs));
  }

  /** For a pipe of alternating runs and bends, the total length is the length along the pipe. */
  lemma TotalLengthUnrolled(pipe: BendedPipe, num: Numerics)
    requires |pipe.segments| == |pipe.arcs| + 1
    ensures pipe.TotalLength(num) == Sum(Unrolled(SegmentLengths(num, pipe.segments), ArcLengths(pipe.arcs)))
  {
    TotalLengthIsSum(pipe, num);
    UnrolledSum(SegmentLengths(num, pipe.segments), ArcLengths(pipe.arcs));
  }

  lemma EmptyPipeTotalLength(num: Numerics)
    ensures BendedPipe([], []).TotalLength(num) == 0.0
  {
  }

  // ---------------------------------------------------------------------------
  // Assembling the pipe

  /** The pair `points[i], points[i + 1]` is the first one the Segment guard rejects. */
  predicate FirstTooClose(points: seq<Vec3>, i: int) {
    && 0 <= i < |points| - 1
    && !FarApart(points[i], points[i + 1])
    && forall j :: 0 <= j < i ==> FarApart(points[j], points[j + 1])
  }

  /** No two positions of `segments` hold the same object. */
  predicate Distinct(segments: seq<Segment>) {
    forall i, j :: 0 <= i < j < |segments| ==> segments[i] != segments[j]
  }

  /**
   * The `forEach` pass of `calcPipe`: segment `i` ends where arc `i` starts and
   * starts where arc `i - 1` ends; nothing else changes.
   */
  method TrimToArcs(segments: seq<Segment>, arcs: seq<Arc>)
    requires Distinct(segments)
    requires |segments| == |arcs| + 1 || (segments == [] && arcs == [])
    modifies segments
    ensures forall k :: 0 <= k < |segments| ==>
              segments[k].start == if k == 0 then old(segments[0].start) else arcs[k - 1].end
    ensures forall k :: 0 <= k < |segments| ==>
              segments[k].end == if k < |arcs| then arcs[k].start else old(segments[k].end)
    ensures forall k :: 0 <= k < |segments| ==> segments[k].dirRough == old(segments[k].dirRough)
    ensures segments != [] ==> BendedPipe(segments, arcs).Stitched()
  {
    for i := 0 to |segments|
      invariant forall k :: 0 <= k < |segments| ==> segments[k].dirRough == old(segments[k].dirRough)
      invariant forall k :: 0 <= k < i ==>
                  && segments[k].start == (if k == 0 then old(segments[0].start) else arcs[k - 1].end)
                  && segments[k].end == (if k < |arcs| then arcs[k].start else old(segments[k].end))
      invariant forall k :: i <= k < |segments| ==>
                  segments[k].start == old(segments[k].start) && segments[k].end == old(segments[k].end)
    {
      var s := segments[i];
      if i < |arcs| {
        s.end := arcs[i].start;
      }
      if i > 0 {
        s.start := arcs[i - 1].end;
      }
    }
  }

  /** One arc per interior waypoint, in order, each rounding its waypoint with the given radius. */
  predicate ArcsFitted(num: Numerics, points: seq<Vec3>, radius: real, arcs: seq<Arc>) {
    && |arcs| == (if |points| < 2 then 0 else |points| - 2)
    && forall i :: 0 <= i < |arcs| ==> arcs[i] == CalcCurve(num, points[i], points[i + 1], points[i + 2], radius)
  }

  /**
   * The first pass of `calcPipe`: for every interior waypoint `i` (from 1 to
   * one before the last), the arc fitted to waypoints `i - 1`, `i` and `i + 1`.
   */
  method FitArcs(num: Numerics, points: seq<Vec3>, radius: real) returns (arcs: seq<Arc>)
    ensures ArcsFitted(num, points, radius, arcs)
  {
    var indices := Range(1, |points| - 1);
    arcs := seq(|indices|, j requires 0 <= j < |indices| =>
      CalcCurve(num, points[indices[j] - 1], points[indices[j]], points[indices[j] + 1], radius));
    forall i | 0 <= i < |arcs|
      ensures arcs[i] == CalcCurve(num, points[i], points[i + 1], points[i + 2], radius)
    {
      var k := indices[i];
      assert k - 1 == i && k == i + 1 && k + 1 == i + 2;
    }
  }

  /**
   * The second pass of `calcPipe`: one new segment per consecutive pair of
   * waypoints, taken by position; the first pair the guard rejects aborts the
   * whole construction.
   */
  method BuildSegments(points: seq<Vec3>) returns (r: Result<seq<Segment>>)
    ensures r.Ok? <==> forall i :: 0 <= i < |points| - 1 ==> FarApart(points[i], points[i + 1])
    ensures r.Err? ==> exists i :: FirstTooClose(points, i) && r.error == PointsTooClose(points[i], points[i + 1])
    ensures r.Ok? ==> |r.value| == if |points| < 1 then 0 else |points| - 1
    ensures r.Ok? ==> forall k :: 0 <= k < |r.value| ==>
              && fresh(r.value[k])
              && r.value[k].start == points[k]
              && r.value[k].end == points[k + 1]
              && r.value[k].dirRough == points[k + 1].Subtract(points[k])
    ensures r.Ok? ==> Distinct(r.value)
  {
    var indices := Range(0, |points| - 1);
    var segments: seq<Segment> := [];
    for j := 0 to |indices|
      invariant |segments| == j
      invariant forall k :: 0 <= k < j ==> FarApart(points[k], points[k + 1])
      invariant forall k :: 0 <= k < j ==>
                  && fresh(segments[k])
                  && segments[k].start == points[k]
                  && segments[k].end == points[k + 1]
                  && segments[k].dirRough == points[k + 1].Subtract(points[k])
      invariant Distinct(segments)
    {
      var made := Segment.New(points[j], points[j + 1]);
      if made.Err? {
        assert FirstTooClose(points, j);
        return Err(made.error);
      }
      segments := segments + [made.value];
    }
    return Ok(segments);
  }

  /**
   * `calcPipe`: fits an arc at every interior waypoint, builds a segment
   * between every two consecutive waypoints (the guard sees these untrimmed
   * points), then moves each segment's ends onto the tangent points of the
   * neighbouring arcs.
   */
  method CalcPipe(num: Numerics, points: seq<Vec3>, radius: real) returns (r: Result<BendedPipe>)
    ensures r.Ok? <==> forall i :: 0 <= i < |points| - 1 ==> FarApart(points[i], points[i + 1])
    ensures r.Err? ==> exists i :: FirstTooClose(points, i) && r.error == PointsTooClose(points[i], points[i + 1])
    ensures r.Ok? ==> ArcsFitted(num, points, radius, r.value.arcs)
    ensures r.Ok? ==> |r.value.segments| == if |points| < 1 then 0 else |points| - 1
    ensures r.Ok? && |points| >= 2 ==> r.value.Stitched()
    ensures r.Ok? && |points| >= 2 ==>
              r.value.segments[0].start == points[0] && r.value.segments[|points| - 2].end == points[|points| - 1]
    ensures r.Ok? ==> forall i :: 0 <= i < |r.value.segments| ==>
              r.value.segments[i].dirRough == points[i + 1].Subtract(points[i])
    ensures r.Ok? ==> Distinct(r.value.segments)
    ensures r.Ok? ==> forall k :: 0 <= k < |r.value.segments| ==> fresh(r.value.segments[k])
  {
    var arcs := FitArcs(num, points, radius);
    var built := BuildSegments(points);
    if built.Err? {
      return Err(built.error);
    }
    var segments := built.value;
    TrimToArcs(segments, arcs);
    r := Ok(BendedPipe(segments, arcs));
  }
}
