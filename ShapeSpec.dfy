/**
 * Reference definitions for the shape engine of the drawing board
 * (src/views/drawingBoard/shape.js): what a whole-shape drag, a bounding-box
 * scan, a handle pick, each variant's centre recomputation and each derived
 * point layout compute, stated as functions, together with the properties
 * the editing protocol relies on. The class in Shapes.dfy is proved to
 * compute exactly these values.
 */
module ShapeSpec {
  import opened Geometry

  /** The constructor name the source records in `type`. */
  datatype ShapeKind = BezierCurve | Line | Circle | RoundRect | Polygon

  // ---------------------------------------------------------------------------
  // Whole-shape move: savePointOffset, then updatePointsOnMoving

  /** One offset per point: the pointer location minus that point. */
  function OffsetsFrom(ps: seq<Point>, loc: Vec): seq<Offset> {
    seq(|ps|, i requires 0 <= i < |ps| => Offset(loc.x - ps[i].x, loc.y - ps[i].y))
  }

  /** Each point placed at the pointer location minus its own offset; flags are kept. */
  function Moved(ps: seq<Point>, offsets: seq<Offset>, loc: Vec): seq<Point>
    requires |ps| <= |offsets|
  {
    seq(|ps|, i requires 0 <= i < |ps| => Point(loc.x - offsets[i].offsetX, loc.y - offsets[i].offsetY, ps[i].isCenter))
  }

  /** Moving to the very location the offsets were captured at leaves every point as it was. */
  lemma MoveRoundTrip(ps: seq<Point>, loc: Vec)
    ensures Moved(ps, OffsetsFrom(ps, loc), loc) == ps
  {
  }

  /** Moving to the capture location shifted by d shifts every point by exactly d. */
  lemma MoveRigid(ps: seq<Point>, loc: Vec, d: Vec)
    ensures Moved(ps, OffsetsFrom(ps, loc), Vec(loc.x + d.x, loc.y + d.y)) == Translated(ps, d.x, d.y)
  {
  }

  // ---------------------------------------------------------------------------
  // Bounding box: getRectInfo

  datatype RectInfo = RectInfo(x: real, y: real, width: real, height: real, radius: real, center: Vec)

  function Xs(ps: seq<Point>): seq<real> { seq(|ps|, i requires 0 <= i < |ps| => ps[i].x) }

  function Ys(ps: seq<Point>): seq<real> { seq(|ps|, i requires 0 <= i < |ps| => ps[i].y) }

  /** Math.min folded over xs in order, starting from acc. */
  function RunMin(acc: real, xs: seq<real>): real
    decreases |xs|
  {
    if xs == [] then acc else Min(RunMin(acc, xs[..|xs| - 1]), xs[|xs| - 1])
  }

  /** Math.max folded over xs in order, starting from acc. */
  function RunMax(acc: real, xs: seq<real>): real
    decreases |xs|
  {
    if xs == [] then acc else Max(RunMax(acc, xs[..|xs| - 1]), xs[|xs| - 1])
  }

  /** The record getRectInfo returns for the given extremes. */
  function RectFromBounds(minX: real, minY: real, maxX: real, maxY: real): RectInfo {
    var width := maxX - minX;
    var height := maxY - minY;
    RectInfo(minX, minY, width, height, Max(width, height) / 2.0,
             Vec(minX + width / 2.0, minY + height / 2.0))
  }

  /** getRectInfo: minima start at Number.MAX_VALUE, maxima at Number.MIN_VALUE. */
  function RectOf(ps: seq<Point>): RectInfo {
    RectFromBounds(RunMin(MAX_VALUE, Xs(ps)), RunMin(MAX_VALUE, Ys(ps)),
                   RunMax(MIN_VALUE, Xs(ps)), RunMax(MIN_VALUE, Ys(ps)))
  }

  /** The running minimum is at most its start and every element, and is one of them. */
  lemma {:induction false} RunMinIsLeast(acc: real, xs: seq<real>)
    ensures RunMin(acc, xs) <= acc
    ensures forall i :: 0 <= i < |xs| ==> RunMin(acc, xs) <= xs[i]
    ensures RunMin(acc, xs) == acc || exists i :: 0 <= i < |xs| && RunMin(acc, xs) == xs[i]
    decreases |xs|
  {
    if xs != [] {
      var init := xs[..|xs| - 1];
      RunMinIsLeast(acc, init);
      assert forall i :: 0 <= i < |init| ==> init[i] == xs[i];
      if RunMin(acc, init) != acc {
        var k :| 0 <= k < |init| && RunMin(acc, init) == init[k];
        assert RunMin(acc, init) == xs[k];
      }
    }
  }

  /** The running maximum is at least its start and every element, and is one of them. */
  lemma {:induction false} RunMaxIsGreatest(acc: real, xs: seq<real>)
    ensures acc <= RunMax(acc, xs)
    ensures forall i :: 0 <= i < |xs| ==> xs[i] <= RunMax(acc, xs)
    ensures RunMax(acc, xs) == acc || exists i :: 0 <= i < |xs| && RunMax(acc, xs) == xs[i]
    decreases |xs|
  {
    if xs != [] {
      var init := xs[..|xs| - 1];
      RunMaxIsGreatest(acc, init);
      assert forall i :: 0 <= i < |init| ==> init[i] == xs[i];
      if RunMax(acc, init) != acc {
        var k :| 0 <= k < |init| && RunMax(acc, init) == init[k];
        assert RunMax(acc, init) == xs[k];
      }
    }
  }

  /**
   * For a non-empty point list the box encloses every point, its size is not
   * negative, its left/top edge is a point's coordinate (or MAX_VALUE), and its
   * right/bottom edge is a point's coordinate or MIN_VALUE, whichever is larger.
   */
  lemma RectOfBounds(ps: seq<Point>)
    requires |ps| > 0
    ensures var r := RectOf(ps);
      && (forall i :: 0 <= i < |ps| ==> r.x <= ps[i].x <= r.x + r.width && r.y <= ps[i].y <= r.y + r.height)
      && 0.0 <= r.width && 0.0 <= r.height
      && (r.x == MAX_VALUE || exists i :: 0 <= i < |ps| && r.x == ps[i].x)
      && (r.y == MAX_VALUE || exists i :: 0 <= i < |ps| && r.y == ps[i].y)
      && MIN_VALUE <= r.x + r.width && MIN_VALUE <= r.y + r.height
      && (r.x + r.width == MIN_VALUE || exists i :: 0 <= i < |ps| && r.x + r.width == ps[i].x)
      && (r.y + r.height == MIN_VALUE || exists i :: 0 <= i < |ps| && r.y + r.height == ps[i].y)
      && r.center == Vec(r.x + r.width / 2.0, r.y + r.height / 2.0)
      && r.radius == Max(r.width, r.height) / 2.0
  {
    AxisBounds(Xs(ps));
    AxisBounds(Ys(ps));
    assert forall i :: 0 <= i < |ps| ==> Xs(ps)[i] == ps[i].x && Ys(ps)[i] == ps[i].y;
  }

  /** One axis of RectOfBounds. */
  lemma AxisBounds(xs: seq<real>)
    requires |xs| > 0
    ensures var lo, hi := RunMin(MAX_VALUE, xs), RunMax(MIN_VALUE, xs);
      && (forall i :: 0 <= i < |xs| ==> lo <= xs[i] <= hi)
      && lo <= hi && MIN_VALUE <= hi
      && (lo == MAX_VALUE || exists i :: 0 <= i < |xs| && lo == xs[i])
      && (hi == MIN_VALUE || exists i :: 0 <= i < |xs| && hi == xs[i])
  {
    RunMinIsLeast(MAX_VALUE, xs);
    RunMaxIsGreatest(MIN_VALUE, xs);
    assert RunMin(MAX_VALUE, xs) <= xs[0] <= RunMax(MIN_VALUE, xs);
  }

  /**
   * The Number.MIN_VALUE start shows when every coordinate is negative: for
   * the points (-20, -20) and (-10, -10) the box's right edge is MIN_VALUE, not
   * -10, and its centre is not the midpoint (-15, -15) of the two points.
   */
  lemma RectOfNegativeQuirk()
    ensures var r := RectOf([Point(-20.0, -20.0, false), Point(-10.0, -10.0, false)]);
      r.x == -20.0 && r.x + r.width == MIN_VALUE && r.center.x != -15.0
  {
    var ps := [Point(-20.0, -20.0, false), Point(-10.0, -10.0, false)];
    var xs := Xs(ps);
    assert xs == [-20.0, -10.0];
    assert xs[..1] == [-20.0] && xs[..1][..0] == [];
    assert RunMin(MAX_VALUE, xs[..1]) == -20.0;
    assert RunMin(MAX_VALUE, xs) == -20.0;
    assert RunMax(MIN_VALUE, xs[..1]) == MIN_VALUE;
    assert RunMax(MIN_VALUE, xs) == MIN_VALUE;
  }

  /** v is the largest element of xs. */
  ghost predicate IsGreatest(v: real, xs: seq<real>) {
    (exists i :: 0 <= i < |xs| && v == xs[i]) && forall i :: 0 <= i < |xs| ==> xs[i] <= v
  }

  /** v is the smallest element of xs. */
  ghost predicate IsLeast(v: real, xs: seq<real>) {
    (exists i :: 0 <= i < |xs| && v == xs[i]) && forall i :: 0 <= i < |xs| ==> v <= xs[i]
  }

  /** Some coordinate reaches MIN_VALUE and some stays within MAX_VALUE. */
  ghost predicate AxisReached(xs: seq<real>) {
    (exists i :: 0 <= i < |xs| && MIN_VALUE <= xs[i]) && (exists i :: 0 <= i < |xs| && xs[i] <= MAX_VALUE)
  }

  /** On both axes, neither start value of the getRectInfo scan survives it. */
  ghost predicate BoxReachesPoints(ps: seq<Point>) {
    AxisReached(Xs(ps)) && AxisReached(Ys(ps))
  }

  /** When the axis is reached, the scan yields the true extremes. */
  lemma ReachedAxisExtremes(xs: seq<real>)
    requires AxisReached(xs)
    ensures IsLeast(RunMin(MAX_VALUE, xs), xs) && IsGreatest(RunMax(MIN_VALUE, xs), xs)
  {
    RunMinIsLeast(MAX_VALUE, xs);
    RunMaxIsGreatest(MIN_VALUE, xs);
  }

  /** Shifting every coordinate by d shifts both extremes of a reached axis by d. */
  lemma AxisTranslated(xs: seq<real>, ys: seq<real>, d: real)
    requires |xs| == |ys| && forall i :: 0 <= i < |xs| ==> ys[i] == xs[i] + d
    requires AxisReached(xs) && AxisReached(ys)
    ensures RunMin(MAX_VALUE, ys) == RunMin(MAX_VALUE, xs) + d
    ensures RunMax(MIN_VALUE, ys) == RunMax(MIN_VALUE, xs) + d
  {
    ReachedAxisExtremes(xs);
    ReachedAxisExtremes(ys);
    var lo, hi, lo', hi' := RunMin(MAX_VALUE, xs), RunMax(MIN_VALUE, xs), RunMin(MAX_VALUE, ys), RunMax(MIN_VALUE, ys);
    var a :| 0 <= a < |xs| && lo == xs[a];
    var b :| 0 <= b < |xs| && hi == xs[b];
    var a' :| 0 <= a' < |ys| && lo' == ys[a'];
    var b' :| 0 <= b' < |ys| && hi' == ys[b'];
    assert lo' <= ys[a] && lo <= xs[a'];
    assert ys[b] <= hi' && xs[b'] <= hi;
  }

  /**
   * Translating the points translates the box, provided that before and after
   * the move the box reaches the points on both axes.
   */
  lemma RectOfTranslated(ps: seq<Point>, dx: real, dy: real)
    requires BoxReachesPoints(ps) && BoxReachesPoints(Translated(ps, dx, dy))
    ensures var r, q := RectOf(ps), RectOf(Translated(ps, dx, dy));
      q == RectInfo(r.x + dx, r.y + dy, r.width, r.height, r.radius, Vec(r.center.x + dx, r.center.y + dy))
  {
    var ts := Translated(ps, dx, dy);
    AxisTranslated(Xs(ps), Xs(ts), dx);
    AxisTranslated(Ys(ps), Ys(ts), dy);
  }

  // ---------------------------------------------------------------------------
  // Handle picking: getDraggingPoint

  /** The hit test of point p's handle, a disc of radius pointRadius, against loc. */
  predicate HandleHit(hits: (Vec, real, Vec) -> bool, p: Point, pointRadius: real, loc: Vec) {
    hits(Handle(p), pointRadius, loc)
  }

  /** The index of the first point from i on, in list order, whose handle is hit. */
  function FirstHitFrom(ps: seq<Point>, i: nat, loc: Vec, pointRadius: real, hits: (Vec, real, Vec) -> bool): (r: Option<nat>)
    requires i <= |ps|
    ensures r.Some? ==> i <= r.value < |ps| && HandleHit(hits, ps[r.value], pointRadius, loc)
    ensures r.Some? ==> forall j :: i <= j < r.value ==> !HandleHit(hits, ps[j], pointRadius, loc)
    ensures r.None? <==> forall j :: i <= j < |ps| ==> !HandleHit(hits, ps[j], pointRadius, loc)
    decreases |ps| - i
  {
    if i == |ps| then None
    else if HandleHit(hits, ps[i], pointRadius, loc) then Some(i)
    else FirstHitFrom(ps, i + 1, loc, pointRadius, hits)
  }

  /** When two handles both contain loc, the earlier one in the list is picked. */
  lemma FirstHitPrefersEarlier(ps: seq<Point>, i: nat, j: nat, loc: Vec, pointRadius: real, hits: (Vec, real, Vec) -> bool)
    requires i < j < |ps|
    requires HandleHit(hits, ps[i], pointRadius, loc) && HandleHit(hits, ps[j], pointRadius, loc)
    ensures FirstHitFrom(ps, 0, loc, pointRadius, hits) != Some(j)
  {
  }

  // ---------------------------------------------------------------------------
  // Circle: setPoints and the radius law of setCenter

  /** setPoints: the centre handle, then north, east, south and west at distance r. */
  function CircleHandles(x: real, y: real, r: real): seq<Point> {
    [Point(x, y, true), Point(x, y - r, false), Point(x + r, y, false), Point(x, y + r, false), Point(x - r, y, false)]
  }

  /** Exactly one handle, the first, is the centre; the other four lie on the circle. */
  lemma CircleHandlesOnCircle(x: real, y: real, r: real)
    ensures var h := CircleHandles(x, y, r);
      && |h| == 5 && h[0] == Point(x, y, true)
      && forall i :: 1 <= i < 5 ==>
           (!h[i].isCenter && (h[i].x - x) * (h[i].x - x) + (h[i].y - y) * (h[i].y - y) == r * r)
  {
  }

  // ---------------------------------------------------------------------------
  // RoundRect: setControlPoint and updatePointAfterRotated

  /** A controlPoint entry: the base point `{x, y}` or an arcTo pair `{cx1, cy1, cx2, cy2}`. */
  datatype ControlEntry = BasePoint(x: real, y: real) | ArcControl(cx1: real, cy1: real, cx2: real, cy2: real)

  /** setControlPoint: the base point on the top edge, then one arc control pair per corner. */
  function ControlLayout(cornerX: real, cornerY: real, cornerRadius: real, width: real, height: real): seq<ControlEntry> {
    var baseX := cornerX + cornerRadius;
    var right := cornerX + width;
    var bottom := cornerY + height;
    [ BasePoint(baseX, cornerY),
      ArcControl(right, cornerY, right, bottom),
      ArcControl(right, bottom, cornerX, bottom),
      ArcControl(cornerX, bottom, cornerX, cornerY),
      ArcControl(cornerX, cornerY, baseX, cornerY) ]
  }

  /**
   * The layout is a closed clockwise tour: it starts cornerRadius right of the
   * top-left corner, each arc starts at the next corner (top-right,
   * bottom-right, bottom-left, top-left) and ends where the next arc starts,
   * and the last one ends back at the base point.
   */
  lemma ControlLayoutIsClosedTour(cornerX: real, cornerY: real, cornerRadius: real, width: real, height: real)
    ensures var l := ControlLayout(cornerX, cornerY, cornerRadius, width, height);
      && |l| == 5
      && l[0] == BasePoint(cornerX + cornerRadius, cornerY)
      && (forall k :: 1 <= k < 5 ==> l[k].ArcControl?)
      && (l[1].cx1, l[1].cy1) == (cornerX + width, cornerY)
      && (l[2].cx1, l[2].cy1) == (cornerX + width, cornerY + height)
      && (l[3].cx1, l[3].cy1) == (cornerX, cornerY + height)
      && (l[4].cx1, l[4].cy1) == (cornerX, cornerY)
      && (forall k :: 1 <= k < 4 ==> (l[k].cx2, l[k].cy2) == (l[k + 1].cx1, l[k + 1].cy1))
      && (l[4].cx2, l[4].cy2) == (l[0].x, l[0].y)
  {
  }

  /** One entry mapped to the screen through the matrix, translation overridden when given. */
  function MapEntry(t: Transform, entry: ControlEntry, tx: Option<real>, ty: Option<real>): ControlEntry {
    match entry
    case BasePoint(x, y) =>
      var p := MapToScreen(t, x, y, tx, ty);
      BasePoint(p.x, p.y)
    case ArcControl(cx1, cy1, cx2, cy2) =>
      var p1 := MapToScreen(t, cx1, cy1, tx, ty);
      var p2 := MapToScreen(t, cx2, cy2, tx, ty);
      ArcControl(p1.x, p1.y, p2.x, p2.y)
  }

  function MapLayout(t: Transform, layout: seq<ControlEntry>, tx: Option<real>, ty: Option<real>): seq<ControlEntry> {
    seq(|layout|, k requires 0 <= k < |layout| => MapEntry(t, layout[k], tx, ty))
  }

  /** The layout around the local corner (-width/2, -height/2) that rotate leaves behind. */
  function LocalLayout(cornerRadius: real, width: real, height: real): seq<ControlEntry> {
    ControlLayout(-width / 2.0, -height / 2.0, cornerRadius, width, height)
  }

  /**
   * The two ways a RoundRect move rebuilds its control points agree when the
   * recorded matrix does not rotate: mapping the local layout with the
   * translation overridden by the new centre gives the layout built from the
   * new corner.
   */
  lemma RotatedLayoutWithoutRotation(e: real, f: real, cornerX: real, cornerY: real, cornerRadius: real, width: real, height: real)
    ensures MapLayout(Transform(1.0, 0.0, 0.0, 1.0, e, f), LocalLayout(cornerRadius, width, height),
                      Some(width / 2.0 + cornerX), Some(height / 2.0 + cornerY))
         == ControlLayout(cornerX, cornerY, cornerRadius, width, height)
  {
    var l := MapLayout(Transform(1.0, 0.0, 0.0, 1.0, e, f), LocalLayout(cornerRadius, width, height),
                       Some(width / 2.0 + cornerX), Some(height / 2.0 + cornerY));
    var c := ControlLayout(cornerX, cornerY, cornerRadius, width, height);
    assert |l| == |c| == 5;
    forall k | 0 <= k < 5 ensures l[k] == c[k] { }
  }

  // ---------------------------------------------------------------------------
  // Polygon: getPoints

  /** Vertex at angle theta, measured clockwise from "up" (screen -y). */
  function PolygonVertex(m: MathLib, x: real, y: real, radius: real, theta: real): Point {
    Point(x + radius * Sin(m, theta), y - radius * Cos(m, theta), false)
  }

  /** The angle of vertex i: startRadians plus i steps of 2*PI/sides. */
  function PolygonAngle(m: MathLib, startRadians: real, sides: nat, i: nat): real
    requires 0 < sides
  {
    startRadians + i as real * (2.0 * m.pi / sides as real)
  }

  /** Given sin^2 + cos^2 == 1, every vertex lies at distance radius from the centre. */
  lemma PolygonVertexOnCircle(m: MathLib, x: real, y: real, radius: real, theta: real)
    requires PythagoreanLaw(m)
    ensures var v := PolygonVertex(m, x, y, radius, theta);
      (v.x - x) * (v.x - x) + (v.y - y) * (v.y - y) == radius * radius
  {
    var s, c := Sin(m, theta), Cos(m, theta);
    var v := PolygonVertex(m, x, y, radius, theta);
    assert v.x - x == radius * s && v.y - y == -(radius * c);
    calc {
      (radius * s) * (radius * s) + (radius * c) * (radius * c);
      radius * radius * (s * s + c * c);
      { assert s * s + c * c == 1.0; }
      radius * radius;
    }
  }

  // ---------------------------------------------------------------------------
  // Persisting a rotation: each variant's updatePointAfterRotated

  /** p re-expressed relative to (cx, cy), then mapped to the screen; flags are kept. */
  function MappedPoint(t: Transform, p: Point, cx: real, cy: real): Point {
    var q := MapToScreen(t, p.x - cx, p.y - cy, None, None);
    Point(q.x, q.y, p.isCenter)
  }

  /** BezierCurve and Polygon: every point mapped about the stored centre. */
  function MappedAbout(t: Transform, ps: seq<Point>, cx: real, cy: real): seq<Point> {
    seq(|ps|, i requires 0 <= i < |ps| => MappedPoint(t, ps[i], cx, cy))
  }

  /** Line: the end point mapped relative to the begin point; the begin point stays. */
  function LineMapped(t: Transform, ps: seq<Point>): seq<Point>
    requires |ps| == 2
  {
    [ps[0], MappedPoint(t, ps[1], ps[0].x, ps[0].y)]
  }

  /**
   * Persisting a zero-angle rotation recorded about the centre leaves every
   * point where it was.
   */
  lemma MappedAboutZeroRotation(m: MathLib, ps: seq<Point>, cx: real, cy: real)
    requires Sin(m, 0.0) == 0.0 && Cos(m, 0.0) == 1.0
    ensures MappedAbout(RotationAbout(Sin(m, 0.0), Cos(m, 0.0), cx, cy), ps, cx, cy) == ps
  {
    var t := RotationAbout(Sin(m, 0.0), Cos(m, 0.0), cx, cy);
    var r := MappedAbout(t, ps, cx, cy);
    forall i | 0 <= i < |ps| ensures r[i] == ps[i] {
      ZeroRotationTranslates(m, cx, cy, ps[i].x - cx, ps[i].y - cy);
    }
  }

  /**
   * Persisting a rotation recorded about the centre keeps every point's
   * distance from the centre (given sin^2 + cos^2 == 1).
   */
  lemma MappedAboutKeepsDistances(m: MathLib, radians: real, ps: seq<Point>, cx: real, cy: real)
    requires PythagoreanLaw(m)
    ensures var r := MappedAbout(RotationAbout(Sin(m, radians), Cos(m, radians), cx, cy), ps, cx, cy);
      && |r| == |ps|
      && forall i :: 0 <= i < |ps| ==>
           Square(r[i].x - cx) + Square(r[i].y - cy) == Square(ps[i].x - cx) + Square(ps[i].y - cy)
  {
    var r := MappedAbout(RotationAbout(Sin(m, radians), Cos(m, radians), cx, cy), ps, cx, cy);
    forall i | 0 <= i < |ps|
      ensures Square(r[i].x - cx) + Square(r[i].y - cy) == Square(ps[i].x - cx) + Square(ps[i].y - cy)
    {
      RotationPreservesDistance(m, radians, cx, cy, ps[i].x - cx, ps[i].y - cy);
    }
  }

  /**
   * Persisting a line's rotation recorded about its begin point keeps the
   * begin point and the line's length (given sin^2 + cos^2 == 1).
   */
  lemma LineMappedKeepsLength(m: MathLib, radians: real, ps: seq<Point>)
    requires PythagoreanLaw(m) && |ps| == 2
    ensures var r := LineMapped(RotationAbout(Sin(m, radians), Cos(m, radians), ps[0].x, ps[0].y), ps);
      && r[0] == ps[0]
      && Square(r[1].x - r[0].x) + Square(r[1].y - r[0].y) == Square(ps[1].x - ps[0].x) + Square(ps[1].y - ps[0].y)
  {
    RotationPreservesDistance(m, radians, ps[0].x, ps[0].y, ps[1].x - ps[0].x, ps[1].y - ps[0].y);
  }

  // ---------------------------------------------------------------------------
  // Per-point edit: updatePointOnEditing

  /** The dragged point placed at loc; its flag is kept. */
  function Edited(ps: seq<Point>, i: nat, loc: Vec): seq<Point>
    requires i < |ps|
  {
    ps[i := Point(loc.x, loc.y, ps[i].isCenter)]
  }

  /**
   * For a Line, Polygon or BezierCurve an edit moves the dragged point to loc
   * and no other point; a Line's centre is then loc when its begin point was
   * dragged and stays the begin point otherwise.
   */
  lemma EditMovesOnlyDragged(kind: ShapeKind, g: Geom, i: nat, loc: Vec, m: MathLib)
    requires kind == Line || kind == Polygon || kind == BezierCurve
    requires i < |g.points| && CanRecenter(kind, g.points, Some(i))
    ensures var h := Recentered(kind, g.(points := Edited(g.points, i, loc)), Some(i), loc, m);
      && |h.points| == |g.points|
      && Handle(h.points[i]) == loc
      && (forall j :: 0 <= j < |g.points| && j != i ==> h.points[j] == g.points[j])
      && (kind == Line ==> Vec(h.x, h.y) == if i == 0 then loc else Handle(g.points[0]))
  {
  }

  // ---------------------------------------------------------------------------
  // RoundRect move: its own savePointOffset and updatePointsOnMoving

  /** The corner after the offsets are replayed at loc (the last one wins). */
  function MovedCorner(offsets: seq<Offset>, corner: Vec, loc: Vec): Vec {
    if offsets == [] then corner
    else Vec(loc.x - offsets[|offsets| - 1].offsetX, loc.y - offsets[|offsets| - 1].offsetY)
  }

  /**
   * The single offset RoundRect.savePointOffset takes moves the corner
   * rigidly: back to itself at the capture location, by d at loc + d.
   */
  lemma CornerMoveRigid(corner: Vec, loc: Vec, d: Vec)
    ensures MovedCorner([Offset(loc.x - corner.x, loc.y - corner.y)], corner, loc) == corner
    ensures MovedCorner([Offset(loc.x - corner.x, loc.y - corner.y)], corner, Vec(loc.x + d.x, loc.y + d.y))
         == Vec(corner.x + d.x, corner.y + d.y)
  {
  }

  // ---------------------------------------------------------------------------
  // Centre recomputation: each variant's setCenter

  /** The part of a shape's state that setCenter reads and writes. */
  datatype Geom = Geom(x: real, y: real, radius: real, points: seq<Point>)

  /** What setCenter needs: dragged index in range, and a first point for Line and Circle. */
  predicate CanRecenter(kind: ShapeKind, ps: seq<Point>, dragging: Option<nat>) {
    && (dragging.Some? ==> dragging.value < |ps|)
    && (kind == Line || kind == Circle ==> 0 < |ps|)
  }

  /** The state after the variant's setCenter(loc). */
  function Recentered(kind: ShapeKind, g: Geom, dragging: Option<nat>, loc: Vec, m: MathLib): Geom
    requires CanRecenter(kind, g.points, dragging)
  {
    match kind
    case BezierCurve =>
      var r := RectOf(g.points);
      g.(x := r.width / 2.0 + r.x, y := r.height / 2.0 + r.y,
         radius := Sqrt(m, Square(r.width) + Square(r.height)))
    case Line =>
      g.(x := g.points[0].x, y := g.points[0].y)
    case Circle =>
      if dragging.Some? then
        var p := g.points[dragging.value];
        if !p.isCenter then
          var dx, dy := loc.x - g.x, loc.y - g.y;
          var r := Sqrt(m, Square(dx) + Square(dy));
          Geom(g.x, g.y, r, CircleHandles(g.x, g.y, r))
        else
          Geom(p.x, p.y, g.radius, CircleHandles(p.x, p.y, g.radius))
      else
        g.(x := g.points[0].x, y := g.points[0].y)
    case RoundRect =>
      g
    case Polygon =>
      var r := RectOf(g.points);
      g.(x := r.center.x, y := r.center.y, radius := r.radius)
  }

  /**
   * Only a Circle with a dragged handle rewrites its points; every other
   * setCenter keeps them and a RoundRect's (the inherited one) keeps everything.
   */
  lemma RecenteredKeepsPoints(kind: ShapeKind, g: Geom, dragging: Option<nat>, loc: Vec, m: MathLib)
    requires CanRecenter(kind, g.points, dragging)
    requires kind != Circle || dragging.None?
    ensures Recentered(kind, g, dragging, loc, m).points == g.points
    ensures kind == RoundRect ==> Recentered(kind, g, dragging, loc, m) == g
  {
  }

  /**
   * Circle radius law: after a non-centre handle is dragged to loc, the centre
   * stays, the radius squared is the squared distance from the centre to loc,
   * and all five handles are rebuilt around the unchanged centre.
   */
  lemma CircleRadiusLaw(g: Geom, i: nat, loc: Vec, m: MathLib)
    requires SqrtLaw(m)
    requires i < |g.points| && !g.points[i].isCenter
    ensures var h := Recentered(Circle, g, Some(i), loc, m);
      && h.x == g.x && h.y == g.y
      && 0.0 <= h.radius
      && h.radius * h.radius == (loc.x - g.x) * (loc.x - g.x) + (loc.y - g.y) * (loc.y - g.y)
      && h.points == CircleHandles(g.x, g.y, h.radius)
  {
    var dx, dy := loc.x - g.x, loc.y - g.y;
    assert 0.0 <= dx * dx + dy * dy;
  }

  /** Dragging the centre handle relocates the circle there and keeps the radius. */
  lemma CircleCenterDrag(g: Geom, i: nat, loc: Vec, m: MathLib)
    requires i < |g.points| && g.points[i].isCenter && Handle(g.points[i]) == loc
    ensures Recentered(Circle, g, Some(i), loc, m) == Geom(loc.x, loc.y, g.radius, CircleHandles(loc.x, loc.y, g.radius))
  {
  }

  /**
   * Move round trip for a whole shape: capturing offsets at loc and moving to
   * loc leaves the points unchanged and ends in the state setCenter alone would
   * give, for every variant and whatever is being dragged.
   */
  lemma ShapeMoveRoundTrip(kind: ShapeKind, g: Geom, dragging: Option<nat>, loc: Vec, m: MathLib)
    requires CanRecenter(kind, g.points, dragging)
    ensures var moved := g.(points := Moved(g.points, OffsetsFrom(g.points, loc), loc));
      Recentered(kind, moved, dragging, loc, m) == Recentered(kind, g, dragging, loc, m)
  {
    MoveRoundTrip(g.points, loc);
  }

  /**
   * Move rigidity for a Line, Polygon or BezierCurve: moving by d shifts every
   * point by d, and the recomputed centre is shifted by d as well (for the two
   * bounding-box variants, as long as the box reaches the points before and
   * after the move); the radius is unchanged.
   */
  lemma ShapeMoveRigid(kind: ShapeKind, g: Geom, dragging: Option<nat>, loc: Vec, d: Vec, m: MathLib)
    requires kind == Line || kind == Polygon || kind == BezierCurve
    requires CanRecenter(kind, g.points, dragging)
    requires kind != Line ==> BoxReachesPoints(g.points) && BoxReachesPoints(Translated(g.points, d.x, d.y))
    ensures var moved := g.(points := Moved(g.points, OffsetsFrom(g.points, loc), Vec(loc.x + d.x, loc.y + d.y)));
            var before, after := Recentered(kind, g, dragging, loc, m), Recentered(kind, moved, dragging, loc, m);
      && after.points == Translated(g.points, d.x, d.y)
      && after.x == before.x + d.x && after.y == before.y + d.y
      && after.radius == before.radius
  {
    MoveRigid(g.points, loc, d);
    var ts := Translated(g.points, d.x, d.y);
    if kind == Line {
      assert ts[0] == Point(g.points[0].x + d.x, g.points[0].y + d.y, g.points[0].isCenter);
    } else if kind == BezierCurve {
      BezierRecenterTranslated(g, dragging, loc, d, m);
    } else {
      PolygonRecenterTranslated(g, dragging, loc, d, m);
    }
  }

  /**
   * Move rigidity for a Circle with no handle dragged: setCenter then takes
   * the first point as the centre, so a move by d shifts the handles and the
   * centre by d and keeps the radius.
   */
  lemma CircleMoveRigid(g: Geom, loc: Vec, d: Vec, m: MathLib)
    requires 0 < |g.points|
    ensures var moved := g.(points := Moved(g.points, OffsetsFrom(g.points, loc), Vec(loc.x + d.x, loc.y + d.y)));
            var before, after := Recentered(Circle, g, None, loc, m), Recentered(Circle, moved, None, loc, m);
      && after.points == Translated(g.points, d.x, d.y)
      && after.x == before.x + d.x && after.y == before.y + d.y
      && after.radius == before.radius
  {
  }

  /** The curve's case of ShapeMoveRigid. */
  lemma BezierRecenterTranslated(g: Geom, dragging: Option<nat>, loc: Vec, d: Vec, m: MathLib)
    requires CanRecenter(BezierCurve, g.points, dragging)
    requires BoxReachesPoints(g.points) && BoxReachesPoints(Translated(g.points, d.x, d.y))
    ensures var before := Recentered(BezierCurve, g, dragging, loc, m);
            var after := Recentered(BezierCurve, g.(points := Translated(g.points, d.x, d.y)), dragging, loc, m);
      after.x == before.x + d.x && after.y == before.y + d.y && after.radius == before.radius
  {
    var ts := Translated(g.points, d.x, d.y);
    RectOfTranslated(g.points, d.x, d.y);
    var r, q := RectOf(g.points), RectOf(ts);
    assert q.width == r.width && q.height == r.height && q.x == r.x + d.x && q.y == r.y + d.y;
    assert Square(q.width) + Square(q.height) == Square(r.width) + Square(r.height);
  }

  /** The polygon's case of ShapeMoveRigid. */
  lemma PolygonRecenterTranslated(g: Geom, dragging: Option<nat>, loc: Vec, d: Vec, m: MathLib)
    requires CanRecenter(Polygon, g.points, dragging)
    requires BoxReachesPoints(g.points) && BoxReachesPoints(Translated(g.points, d.x, d.y))
    ensures var before := Recentered(Polygon, g, dragging, loc, m);
            var after := Recentered(Polygon, g.(points := Translated(g.points, d.x, d.y)), dragging, loc, m);
      after.x == before.x + d.x && after.y == before.y + d.y && after.radius == before.radius
  {
    RectOfTranslated(g.points, d.x, d.y);
  }

}
