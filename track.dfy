/**
 * The closed track: a cyclic centreline of 2D points and its width, nearest-point
 * projection with tangent, curvature and signed lateral distance, the off-track test,
 * the start pose, and the procedural layout smoothed by Chaikin corner cutting.
 */
module TrackGeometry {
  import opened Basics
  import opened Numerics

  type Point = (real, real)

  /** The three layouts the track constructor accepts. */
  datatype Layout = Oval | Figure8 | RandomLayout

  const TRACK_WIDTH: real := 8.0
  const NUM_ANCHORS: nat := 24
  const CHAIKIN_ITERATIONS: nat := 3
  /** Point counts of the analytic generators: 50 + 29 + 49 + 29 for the oval, 200 for the figure eight. */
  const OVAL_POINTS: nat := 157
  const FIGURE8_POINTS: nat := 200

  function LayoutName(l: Layout): string {
    match l
    case Oval => "oval"
    case Figure8 => "figure8"
    case RandomLayout => "random"
  }

  /** The name test of the constructor; any other name is a configuration error. */
  function ParseLayout(name: string): (r: Result<Layout, string>)
    ensures r.Success? <==> (name == "oval" || name == "figure8" || name == "random")
    ensures r.Success? ==> LayoutName(r.value) == name
    ensures r.Failure? ==> r.error == "Unknown track_type: " + name
  {
    if name == "oval" then Success(Oval)
    else if name == "figure8" then Success(Figure8)
    else if name == "random" then Success(RandomLayout)
    else Failure("Unknown track_type: " + name)
  }

  /** The centrelines of the two analytic layouts, computed outside the model. */
  datatype FixedCenterlines = FixedCenterlines(oval: seq<Point>, figure8: seq<Point>)

  ghost predicate WellFormedFixed(f: FixedCenterlines) {
    |f.oval| == OVAL_POINTS && |f.figure8| == FIGURE8_POINTS
  }

  /**
   * The random draws of the procedural layout: the jittered anchor angles already
   * sorted, and one radial scale per anchor.
   */
  datatype AnchorDraw = AnchorDraw(angles: seq<real>, radialScales: seq<real>)

  ghost predicate WellFormedDraw(d: AnchorDraw) {
    |d.angles| == NUM_ANCHORS && |d.radialScales| == NUM_ANCHORS
  }

  // ---------------------------------------------------------------- procedural layout

  /** An anchor on the ellipse centred at (50, 35) with radii 45 and 28, scaled radially. */
  function Anchor(theta: real, rScale: real, m: Math): Point {
    (50.0 + 45.0 * rScale * m.cos(theta), 35.0 + 28.0 * rScale * m.sin(theta))
  }

  /** The point `w * p + (1 - w) * q`. */
  function Cut(p: Point, q: Point, w: real): Point {
    (w * p.0 + (1.0 - w) * q.0, w * p.1 + (1.0 - w) * q.1)
  }

  /** One Chaikin pass: every edge p_i -> p_{i+1 mod n} contributes its 25% and 75% points. */
  function ChaikinStep(ps: seq<Point>): (r: seq<Point>)
    ensures |r| == 2 * |ps|
  {
    seq(2 * |ps|, k requires 0 <= k < 2 * |ps| =>
      if k % 2 == 0 then Cut(ps[k / 2], ps[(k / 2 + 1) % |ps|], 0.75)
      else Cut(ps[k / 2], ps[(k / 2 + 1) % |ps|], 0.25))
  }

  function ChaikinIterate(ps: seq<Point>, n: nat): seq<Point>
    decreases n
  {
    if n == 0 then ps else ChaikinIterate(ChaikinStep(ps), n - 1)
  }

  function Pow2(n: nat): nat {
    if n == 0 then 1 else 2 * Pow2(n - 1)
  }

  /** Each pass doubles the point count. */
  lemma {:induction false} ChaikinIterateLength(ps: seq<Point>, n: nat)
    ensures |ChaikinIterate(ps, n)| == |ps| * Pow2(n)
    decreases n
  {
    if n > 0 {
      ChaikinIterateLength(ChaikinStep(ps), n - 1);
    }
  }

  /** The two points each pass puts in place of the edge from p_i to p_{i+1 mod n}. */
  lemma ChaikinStepPoints(ps: seq<Point>, i: nat)
    requires i < |ps|
    ensures ChaikinStep(ps)[2 * i] == Cut(ps[i], ps[(i + 1) % |ps|], 0.75)
    ensures ChaikinStep(ps)[2 * i + 1] == Cut(ps[i], ps[(i + 1) % |ps|], 0.25)
  {
    assert (2 * i) / 2 == i && (2 * i + 1) / 2 == i;
  }

  /** The axis-aligned box [xlo, xhi] x [ylo, yhi]. */
  ghost predicate InBox(ps: seq<Point>, xlo: real, xhi: real, ylo: real, yhi: real) {
    forall i :: 0 <= i < |ps| ==> xlo <= ps[i].0 <= xhi && ylo <= ps[i].1 <= yhi
  }

  /** Corner cutting takes convex combinations, so it never leaves a box. */
  lemma ChaikinStepInBox(ps: seq<Point>, xlo: real, xhi: real, ylo: real, yhi: real)
    requires InBox(ps, xlo, xhi, ylo, yhi)
    ensures InBox(ChaikinStep(ps), xlo, xhi, ylo, yhi)
  {
    var r := ChaikinStep(ps);
    forall k | 0 <= k < |r|
      ensures xlo <= r[k].0 <= xhi && ylo <= r[k].1 <= yhi
    {
      var p, q := ps[k / 2], ps[(k / 2 + 1) % |ps|];
      var w := if k % 2 == 0 then 0.75 else 0.25;
      assert r[k] == Cut(p, q, w);
      ConvexBetween(p.0, q.0, w, xlo, xhi);
      ConvexBetween(p.1, q.1, w, ylo, yhi);
    }
  }

  lemma ConvexBetween(a: real, b: real, w: real, lo: real, hi: real)
    requires lo <= a <= hi && lo <= b <= hi && 0.0 <= w <= 1.0
    ensures lo <= w * a + (1.0 - w) * b <= hi
  {
    BlendBetween(b, a, w);
    assert w * a + (1.0 - w) * b == (1.0 - w) * b + w * a;
  }

  lemma {:induction false} ChaikinIterateInBox(ps: seq<Point>, n: nat, xlo: real, xhi: real, ylo: real, yhi: real)
    requires InBox(ps, xlo, xhi, ylo, yhi)
    ensures InBox(ChaikinIterate(ps, n), xlo, xhi, ylo, yhi)
    decreases n
  {
    if n > 0 {
      ChaikinStepInBox(ps, xlo, xhi, ylo, yhi);
      ChaikinIterateInBox(ChaikinStep(ps), n - 1, xlo, xhi, ylo, yhi);
    }
  }

  function Anchors(d: AnchorDraw, m: Math): (r: seq<Point>)
    requires |d.angles| == |d.radialScales|
    ensures |r| == |d.angles|
  {
    seq(|d.angles|, i requires 0 <= i < |d.angles| => Anchor(d.angles[i], d.radialScales[i], m))
  }

  /** The centreline the procedural layout produces from a draw. */
  function RandomCenterline(d: AnchorDraw, m: Math): seq<Point>
    requires |d.angles| == |d.radialScales|
  {
    ChaikinIterate(Anchors(d, m), CHAIKIN_ITERATIONS)
  }

  /** A radial scale in [0.4, 1.1] keeps an anchor within 49.5 by 30.8 of the ellipse centre. */
  lemma AnchorInBox(theta: real, rScale: real, m: Math)
    requires Lawful(m) && 0.4 <= rScale <= 1.1
    ensures 0.5 <= Anchor(theta, rScale, m).0 <= 99.5
    ensures 4.2 <= Anchor(theta, rScale, m).1 <= 65.8
  {
    var c, s := m.cos(theta), m.sin(theta);
    assert -rScale <= rScale * c <= rScale by { BoundedProduct(rScale, c); }
    assert -rScale <= rScale * s <= rScale by { BoundedProduct(rScale, s); }
    assert 45.0 * rScale * c == 45.0 * (rScale * c);
    assert 28.0 * rScale * s == 28.0 * (rScale * s);
  }

  lemma BoundedProduct(r: real, c: real)
    requires r >= 0.0 && -1.0 <= c <= 1.0
    ensures -r <= r * c <= r
  {
    assert r * (c + 1.0) >= 0.0 && r * (1.0 - c) >= 0.0;
  }

  /**
   * With radial scales drawn from [0.4, 1.1], as the generator draws them, the smoothed
   * procedural track lies in [0.5, 99.5] x [4.2, 65.8], and it has 8 points per anchor.
   */
  lemma RandomCenterlineShape(d: AnchorDraw, m: Math)
    requires Lawful(m) && WellFormedDraw(d)
    requires forall i :: 0 <= i < |d.radialScales| ==> 0.4 <= d.radialScales[i] <= 1.1
    ensures |RandomCenterline(d, m)| == 8 * NUM_ANCHORS
    ensures InBox(RandomCenterline(d, m), 0.5, 99.5, 4.2, 65.8)
  {
    var a := Anchors(d, m);
    forall i | 0 <= i < |a| ensures 0.5 <= a[i].0 <= 99.5 && 4.2 <= a[i].1 <= 65.8 {
      AnchorInBox(d.angles[i], d.radialScales[i], m);
    }
    ChaikinIterateInBox(a, CHAIKIN_ITERATIONS, 0.5, 99.5, 4.2, 65.8);
    ChaikinIterateLength(a, CHAIKIN_ITERATIONS);
  }

  /** One pass of the corner-cutting loop, appending two cut points per edge. */
  method ChaikinPass(points: seq<Point>) returns (newPoints: seq<Point>)
    ensures newPoints == ChaikinStep(points)
  {
    newPoints := [];
    var num := |points|;
    var i := 0;
    while i < num
      invariant 0 <= i <= num
      invariant |newPoints| == 2 * i
      invariant forall k :: 0 <= k < 2 * i ==> newPoints[k] == ChaikinStep(points)[k]
    {
      var p0 := points[i];
      var p1 := points[(i + 1) % num];
      ChaikinStepPoints(points, i);
      newPoints := newPoints + [Cut(p0, p1, 0.75), Cut(p0, p1, 0.25)];
      i := i + 1;
    }
  }

  /**
   * `_generate_random`: place the anchors, then run three Chaikin passes, each building
   * a new list by appending two cut points per edge.
   */
  method GenerateRandom(d: AnchorDraw, m: Math) returns (points: seq<Point>)
    requires WellFormedDraw(d)
    ensures points == RandomCenterline(d, m)
    ensures |points| == 8 * NUM_ANCHORS
  {
    var anchors: seq<Point> := [];
    var j := 0;
    while j < |d.angles|
      invariant 0 <= j <= |d.angles|
      invariant |anchors| == j
      invariant forall k :: 0 <= k < j ==> anchors[k] == Anchor(d.angles[k], d.radialScales[k], m)
    {
      anchors := anchors + [Anchor(d.angles[j], d.radialScales[j], m)];
      j := j + 1;
    }
    assert anchors == Anchors(d, m);
    points := anchors;
    var iteration := 0;
    while iteration < CHAIKIN_ITERATIONS
      invariant 0 <= iteration <= CHAIKIN_ITERATIONS
      invariant ChaikinIterate(points, CHAIKIN_ITERATIONS - iteration) == RandomCenterline(d, m)
    {
      var newPoints := ChaikinPass(points);
      points := newPoints;
      iteration := iteration + 1;
    }
    ChaikinIterateLength(Anchors(d, m), CHAIKIN_ITERATIONS);
  }

  // ---------------------------------------------------------------- projection

  function DistSq(p: Point, x: real, y: real): real {
    (p.0 - x) * (p.0 - x) + (p.1 - y) * (p.1 - y)
  }

  lemma DistSqNonNegative(p: Point, x: real, y: real)
    ensures DistSq(p, x, y) >= 0.0
  {
    var a, b := p.0 - x, p.1 - y;
    assert a * a >= 0.0 && b * b >= 0.0;
  }

  /** A point is at distance zero from itself. */
  lemma DistSqSelf(p: Point)
    ensures DistSq(p, p.0, p.1) == 0.0
  {
    var u, v := p.0 - p.0, p.1 - p.1;
    assert u == 0.0 && v == 0.0;
  }

  function DistsSq(cl: seq<Point>, x: real, y: real): (r: seq<real>)
    ensures |r| == |cl| && forall i :: 0 <= i < |cl| ==> r[i] == DistSq(cl[i], x, y)
  {
    seq(|cl|, i requires 0 <= i < |cl| => DistSq(cl[i], x, y))
  }

  /** `np.argmin`: the lowest index holding the minimum. */
  function ArgMin(ds: seq<real>): (k: nat)
    requires |ds| > 0
    ensures k < |ds|
    ensures forall j :: 0 <= j < |ds| ==> ds[k] <= ds[j]
    ensures forall j :: 0 <= j < k ==> ds[k] < ds[j]
  {
    if |ds| == 1 then 0
    else
      var k := ArgMin(ds[..|ds| - 1]);
      if ds[|ds| - 1] < ds[k] then |ds| - 1 else k
  }

  /** The direction from p to q. */
  function Heading(p: Point, q: Point, m: Math): real {
    m.atan2(q.1 - p.1, q.0 - p.0)
  }

  /** The z component of (q - p) x (car - p): positive when the car is left of travel. */
  function Cross(p: Point, q: Point, x: real, y: real): real {
    (q.0 - p.0) * (y - p.1) - (q.1 - p.1) * (x - p.0)
  }

  datatype PointInfo = PointInfo(
    signedDist: real, closestIdx: nat, point: Point, tangentAngle: real, curvature: real)

  /**
   * `get_closest_point_info(x, y)`: the lowest-index nearest centreline point, the
   * heading of the edge to its cyclic successor, the wrapped change of heading over the
   * next edge, and the distance to the point signed by the cross product.
   */
  function ClosestPointInfo(cl: seq<Point>, x: real, y: real, m: Math): (r: PointInfo)
    requires |cl| > 0
    ensures r.closestIdx < |cl| && r.point == cl[r.closestIdx]
    ensures forall j :: 0 <= j < |cl| ==> DistSq(cl[r.closestIdx], x, y) <= DistSq(cl[j], x, y)
    ensures forall j :: 0 <= j < r.closestIdx ==> DistSq(cl[r.closestIdx], x, y) < DistSq(cl[j], x, y)
    ensures r.tangentAngle == Heading(cl[r.closestIdx], cl[(r.closestIdx + 1) % |cl|], m)
    ensures r.curvature == Wrap(Heading(cl[(r.closestIdx + 1) % |cl|], cl[(r.closestIdx + 2) % |cl|], m) - r.tangentAngle)
    ensures -PI <= r.curvature < PI
    ensures var d := m.sqrt(DistSq(cl[r.closestIdx], x, y));
            var c := Cross(cl[r.closestIdx], cl[(r.closestIdx + 1) % |cl|], x, y);
            && (c > 0.0 ==> r.signedDist == d)
            && (c < 0.0 ==> r.signedDist == -d)
            && (c == 0.0 ==> r.signedDist == 0.0)
  {
    var n := |cl|;
    var ds := DistsSq(cl, x, y);
    var i := ArgMin(ds);
    var minDist := m.sqrt(ds[i]);
    var pCurr := cl[i];
    var pNext := cl[(i + 1) % n];
    var tangent := Heading(pCurr, pNext, m);
    var pNextNext := cl[(i + 2) % n];
    var curvature := Wrap(Heading(pNext, pNextNext, m) - tangent);
    var cross := Cross(pCurr, pNext, x, y);
    PointInfo(minDist * Sign(cross), i, pCurr, tangent, curvature)
  }

  /** The signed distance never exceeds the distance to the nearest point. */
  lemma SignedDistBounded(cl: seq<Point>, x: real, y: real, m: Math)
    requires |cl| > 0 && Lawful(m)
    ensures var r := ClosestPointInfo(cl, x, y, m);
            Abs(r.signedDist) <= m.sqrt(DistSq(cl[r.closestIdx], x, y))
  {
    var r := ClosestPointInfo(cl, x, y, m);
    var dsq := DistSq(cl[r.closestIdx], x, y);
    DistSqNonNegative(cl[r.closestIdx], x, y);
    assert m.sqrt(dsq) >= 0.0;
  }

  /** `is_off_track`. */
  function IsOffTrack(cl: seq<Point>, width: real, x: real, y: real, m: Math): bool
    requires |cl| > 0
  {
    Abs(ClosestPointInfo(cl, x, y, m).signedDist) > width / 2.0
  }

  /**
   * Off the track exactly when the car is more than half the width from its nearest
   * centreline point AND not on the line through the nearest edge: the cross product
   * zeroes the signed distance there, however far away the car is.
   */
  lemma OffTrackIff(cl: seq<Point>, width: real, x: real, y: real, m: Math)
    requires |cl| > 0 && Lawful(m) && width >= 0.0
    ensures var i := ClosestPointInfo(cl, x, y, m).closestIdx;
            IsOffTrack(cl, width, x, y, m) <==>
              Cross(cl[i], cl[(i + 1) % |cl|], x, y) != 0.0 && m.sqrt(DistSq(cl[i], x, y)) > width / 2.0
  {
    var i := ClosestPointInfo(cl, x, y, m).closestIdx;
    DistSqNonNegative(cl[i], x, y);
    assert m.sqrt(DistSq(cl[i], x, y)) >= 0.0;
  }

  /** `get_start_pose`: the first centreline point, heading east. */
  function StartPose(cl: seq<Point>): (r: (real, real, real))
    requires |cl| > 0
  {
    (cl[0].0, cl[0].1, 0.0)
  }

  /**
   * The start pose projects onto index 0 of the centreline with zero signed
   * distance, so it is on the track and has progress 0.
   */
  lemma StartPoseOnCenterline(cl: seq<Point>, width: real, m: Math)
    requires |cl| > 0 && Lawful(m) && width >= 0.0
    ensures ClosestPointInfo(cl, cl[0].0, cl[0].1, m).closestIdx == 0
    ensures ClosestPointInfo(cl, cl[0].0, cl[0].1, m).signedDist == 0.0
    ensures !IsOffTrack(cl, width, cl[0].0, cl[0].1, m)
  {
    var x, y := cl[0].0, cl[0].1;
    var r := ClosestPointInfo(cl, x, y, m);
    var i := r.closestIdx;
    var d0 := DistSq(cl[0], x, y);
    DistSqSelf(cl[0]);
    var dmin := DistSq(cl[i], x, y);
    DistSqNonNegative(cl[i], x, y);
    assert dmin <= d0;
    assert 0 < i ==> dmin < d0;
    assert dmin == 0.0;
    assert m.sqrt(dmin) == 0.0;
    assert r.signedDist == 0.0;
  }

  /** The track fraction `closest_idx / len(centerline)` lies in [0, 1). */
  function TrackProgress(cl: seq<Point>, x: real, y: real, m: Math): (p: real)
    requires |cl| > 0
    ensures 0.0 <= p < 1.0
  {
    var i := ClosestPointInfo(cl, x, y, m).closestIdx;
    FractionBelowOne(i, |cl|);
    i as real / |cl| as real
  }

  lemma FractionBelowOne(i: nat, n: nat)
    requires i < n
    ensures 0.0 <= i as real / n as real < 1.0
  {
    var q := i as real / n as real;
    assert q * n as real == i as real;
  }

  // ---------------------------------------------------------------- the track object

  /** A track whose centreline is replaced only when a procedural layout is regenerated. */
  class Track {
    const trackType: Layout
    const trackWidth: real
    var centerline: seq<Point>

    ghost predicate Valid()
      reads this
    {
      |centerline| > 0 && trackWidth == TRACK_WIDTH
    }

    /** `Track(track_type)` for a name that parsed. */
    constructor (layout: Layout, fixed: FixedCenterlines, draw: AnchorDraw, m: Math)
      requires WellFormedFixed(fixed) && WellFormedDraw(draw)
      ensures Valid() && trackType == layout
      ensures centerline == match layout
                            case Oval => fixed.oval
                            case Figure8 => fixed.figure8
                            case RandomLayout => RandomCenterline(draw, m)
    {
      var points := [];
      match layout {
        case Oval => points := fixed.oval;
        case Figure8 => points := fixed.figure8;
        case RandomLayout => points := GenerateRandom(draw, m);
      }
      trackType := layout;
      centerline := points;
      trackWidth := TRACK_WIDTH;
    }

    /** `regenerate`: a new random centreline for the procedural layout, otherwise no change. */
    method Regenerate(draw: AnchorDraw, m: Math)
      requires Valid() && WellFormedDraw(draw)
      modifies this
      ensures Valid()
      ensures trackType == RandomLayout ==> centerline == RandomCenterline(draw, m)
      ensures trackType != RandomLayout ==> centerline == old(centerline)
    {
      if trackType == RandomLayout {
        centerline := GenerateRandom(draw, m);
      }
    }
  }

  /** Building a track by name: unknown names fail and build nothing. */
  method CreateTrack(name: string, fixed: FixedCenterlines, draw: AnchorDraw, m: Math)
    returns (r: Result<Track, string>)
    requires WellFormedFixed(fixed) && WellFormedDraw(draw)
    ensures r.Success? <==> ParseLayout(name).Success?
    ensures r.Success? ==> fresh(r.value) && r.value.Valid() && r.value.trackType == ParseLayout(name).value
    ensures r.Failure? ==> r.error == ParseLayout(name).error
  {
    var layout := ParseLayout(name);
    if layout.Failure? {
      return Failure(layout.error);
    }
    var t := new Track(layout.value, fixed, draw, m);
    return Success(t);
  }
}
