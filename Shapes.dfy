/**
 * The shape objects of the drawing board (src/views/drawingBoard/shape.js)
 * and the canvas state they share. The source's class hierarchy (Shape and
 * its subclasses BezierCurve, Line, Circle, RoundRect, Polygon) becomes one
 * class tagged with its kind; each overridden method is a method of its own,
 * and a dispatcher of the base method's name selects it by kind, as the
 * source's virtual call does.
 */
module Shapes {
  import opened Geometry
  import opened ShapeSpec

  /** The 2D context, reduced to the matrix setShapeTransform records on it. */
  class Canvas {
    var currentTransform: Transform

    /** A fresh context starts at the identity matrix. */
    constructor ()
      ensures currentTransform == Transform(1.0, 0.0, 0.0, 1.0, 0.0, 0.0)
    {
      currentTransform := Transform(1.0, 0.0, 0.0, 1.0, 0.0, 0.0);
    }
  }

  class Shape {
    const kind: ShapeKind
    const ctx: Canvas
    const math: MathLib
    /** The radius of a handle's pick disc. */
    const pointRadius: real
    /** Polygon only. */
    const sides: nat
    /** RoundRect only. */
    const width: real
    const height: real
    const cornerRadius: real

    /** Captured by savePointOffset; `None` until the first capture (the source's null). */
    var offsets: Option<seq<Offset>>
    var startRadians: real
    /** Index of the dragged handle in `points`. */
    var draggingPoint: Option<nat>
    var points: seq<Point>
    var isRotated: bool
    /** The centre (rotation pivot). */
    var x: real
    var y: real
    var radius: real
    /** RoundRect only: the top-left corner and the derived arc control points. */
    var cornerX: real
    var cornerY: real
    var controlPoint: seq<ControlEntry>

    /** The shape facts every operation keeps. */
    ghost predicate Valid()
      reads this
    {
      && (draggingPoint.Some? ==> draggingPoint.value < |points|)
      && (kind == ShapeKind.Line ==> |points| == 2)
      && (kind == ShapeKind.Circle ==> |points| == 5)
      && (kind == ShapeKind.RoundRect ==> points == [] && |controlPoint| == 5)
    }

    /** The offsets the base move reads: none before the first capture. */
    function SavedOffsets(): seq<Offset>
      reads this
    {
      if offsets.Some? then offsets.value else []
    }

    /** The fields setCenter reads and writes. */
    ghost function Snapshot(): Geom
      reads this
    {
      Geom(x, y, radius, points)
    }

    // -------------------------------------------------------------------------
    // Constructors

    /** `new BezierCurve(...)`: points are the end points followed by the control points. */
    constructor BezierCurve(ctx: Canvas, math: MathLib, startRadians: Option<real>,
                            endPoints: seq<Point>, controlPoints: seq<Point>)
      ensures Valid()
      ensures kind == ShapeKind.BezierCurve && this.ctx == ctx && this.math == math
      ensures points == endPoints + controlPoints
      ensures Snapshot() == Recentered(ShapeKind.BezierCurve, Snapshot(), None, Vec(0.0, 0.0), math)
      ensures this.startRadians == (if startRadians.Some? then startRadians.value else 0.0)
      ensures offsets.None? && draggingPoint.None? && !isRotated
    {
      kind, this.ctx, this.math, pointRadius := ShapeKind.BezierCurve, ctx, math, 5.0;
      sides, width, height, cornerRadius := 0, 0.0, 0.0, 0.0;
      offsets, draggingPoint, isRotated := None, None, false;
      this.startRadians := if startRadians.Some? then startRadians.value else 0.0;
      points := endPoints + controlPoints;
      x, y, radius := 0.0, 0.0, 0.0;
      cornerX, cornerY, controlPoint := 0.0, 0.0, [];
      new;
      BezierSetCenter();
    }

    /** `new Line(...)`: points are [begin, end], radius is the line's length. */
    constructor Line(ctx: Canvas, math: MathLib, beginX: real, beginY: real, endX: real, endY: real,
                     startRadians: Option<real>)
      ensures Valid()
      ensures kind == ShapeKind.Line && this.ctx == ctx && this.math == math
      ensures points == [Point(beginX, beginY, false), Point(endX, endY, false)]
      ensures x == beginX && y == beginY
      ensures radius == Sqrt(math, Square(Abs(beginX - endX)) + Square(Abs(beginY - endY)))
      ensures this.startRadians == (if startRadians.Some? then startRadians.value else 0.0)
      ensures offsets.None? && draggingPoint.None? && !isRotated
    {
      kind, this.ctx, this.math, pointRadius := ShapeKind.Line, ctx, math, 5.0;
      sides, width, height, cornerRadius := 0, 0.0, 0.0, 0.0;
      offsets, draggingPoint, isRotated := None, None, false;
      this.startRadians := if startRadians.Some? then startRadians.value else 0.0;
      radius := Sqrt(math, Square(Abs(beginX - endX)) + Square(Abs(beginY - endY)));
      points := [Point(beginX, beginY, false), Point(endX, endY, false)];
      x, y := 0.0, 0.0;
      cornerX, cornerY, controlPoint := 0.0, 0.0, [];
      new;
      LineSetCenter();
    }

    /** `new Circle(...)`: the centre, the radius and the five handles around them. */
    constructor Circle(ctx: Canvas, math: MathLib, centerX: real, centerY: real, radius: real)
      ensures Valid()
      ensures kind == ShapeKind.Circle && this.ctx == ctx && this.math == math
      ensures x == centerX && y == centerY && this.radius == radius
      ensures points == CircleHandles(centerX, centerY, radius)
      ensures startRadians == 0.0
      ensures offsets.None? && draggingPoint.None? && !isRotated
    {
      kind, this.ctx, this.math, pointRadius := ShapeKind.Circle, ctx, math, 5.0;
      sides, width, height, cornerRadius := 0, 0.0, 0.0, 0.0;
      offsets, draggingPoint, isRotated := None, None, false;
      startRadians := 0.0;
      x, y, this.radius := centerX, centerY, radius;
      points := [];
      cornerX, cornerY, controlPoint := 0.0, 0.0, [];
      new;
      SetPoints();
    }

    /**
     * `new RoundRect(...)`: the centre is the rectangle's middle, radius its
     * diagonal, and the control points are built from the corner; the corner
     * radius defaults to 10.
     */
    constructor RoundRect(ctx: Canvas, math: MathLib, width: real, height: real, startRadians: Option<real>,
                          cornerRadius: Option<real>, cornerX: real, cornerY: real)
      ensures Valid()
      ensures kind == ShapeKind.RoundRect && this.ctx == ctx && this.math == math
      ensures this.width == width && this.height == height
      ensures this.cornerRadius == (if cornerRadius.Some? then cornerRadius.value else 10.0)
      ensures this.cornerX == cornerX && this.cornerY == cornerY
      ensures x == width / 2.0 + cornerX && y == height / 2.0 + cornerY
      ensures radius == Sqrt(math, Square(width) + Square(height))
      ensures controlPoint == ControlLayout(cornerX, cornerY, this.cornerRadius, width, height)
      ensures points == []
      ensures this.startRadians == (if startRadians.Some? then startRadians.value else 0.0)
      ensures offsets.None? && draggingPoint.None? && !isRotated
    {
      kind, this.ctx, this.math, pointRadius := ShapeKind.RoundRect, ctx, math, 5.0;
      sides, this.width, this.height := 0, width, height;
      this.cornerRadius := if cornerRadius.Some? then cornerRadius.value else 10.0;
      offsets, draggingPoint, isRotated := None, None, false;
      this.startRadians := if startRadians.Some? then startRadians.value else 0.0;
      x := width / 2.0 + cornerX;
      y := height / 2.0 + cornerY;
      this.cornerX, this.cornerY := cornerX, cornerY;
      radius := Sqrt(math, Square(width) + Square(height));
      points := [];
      controlPoint := [];
      new;
      SetControlPoint();
    }

    /** `new Polygon(...)`: `sides` vertices evenly spaced on the circle, the first at startRadians. */
    constructor Polygon(ctx: Canvas, math: MathLib, centerX: real, centerY: real, radius: real,
                        sides: nat, startRadians: Option<real>)
      ensures Valid()
      ensures kind == ShapeKind.Polygon && this.ctx == ctx && this.math == math
      ensures x == centerX && y == centerY && this.radius == radius && this.sides == sides
      ensures this.startRadians == (if startRadians.Some? then startRadians.value else 0.0)
      ensures |points| == sides
      ensures forall i :: 0 <= i < sides ==>
        points[i] == PolygonVertex(math, centerX, centerY, radius, PolygonAngle(math, this.startRadians, sides, i))
      ensures offsets.None? && draggingPoint.None? && !isRotated
    {
      kind, this.ctx, this.math, pointRadius := ShapeKind.Polygon, ctx, math, 5.0;
      this.sides, width, height, cornerRadius := sides, 0.0, 0.0, 0.0;
      offsets, draggingPoint, isRotated := None, None, false;
      this.startRadians := if startRadians.Some? then startRadians.value else 0.0;
      x, y, this.radius := centerX, centerY, radius;
      points := [];
      cornerX, cornerY, controlPoint := 0.0, 0.0, [];
      new;
      points := GetPoints();
    }

    // -------------------------------------------------------------------------
    // Whole-shape move

    /** BezierCurve, Line, Circle, Polygon: one offset per point. */
    method ShapeSavePointOffset(loc: Vec)
      requires Valid()
      modifies this`offsets
      ensures Valid()
      ensures offsets == Some(OffsetsFrom(points, loc))
    {
      var captured: seq<Offset> := [];
      var i := 0;
      while i < |points|
        invariant 0 <= i <= |points|
        invariant |captured| == i
        invariant forall j :: 0 <= j < i ==> captured[j] == Offset(loc.x - points[j].x, loc.y - points[j].y)
      {
        captured := captured + [Offset(loc.x - points[i].x, loc.y - points[i].y)];
        i := i + 1;
      }
      assert captured == OffsetsFrom(points, loc);
      offsets := Some(captured);
    }

    /** RoundRect: a single offset, taken relative to the corner. */
    method RoundRectSavePointOffset(loc: Vec)
      requires Valid() && kind == ShapeKind.RoundRect
      modifies this`offsets
      ensures Valid()
      ensures offsets == Some([Offset(loc.x - cornerX, loc.y - cornerY)])
    {
      offsets := Some([Offset(loc.x - cornerX, loc.y - cornerY)]);
    }

    /** savePointOffset, dispatched on the kind. */
    method SavePointOffset(loc: Vec)
      requires Valid()
      modifies this`offsets
      ensures Valid()
      ensures kind != ShapeKind.RoundRect ==> offsets == Some(OffsetsFrom(points, loc))
      ensures kind == ShapeKind.RoundRect ==> offsets == Some([Offset(loc.x - cornerX, loc.y - cornerY)])
    {
      if kind == ShapeKind.RoundRect {
        RoundRectSavePointOffset(loc);
      } else {
        ShapeSavePointOffset(loc);
      }
    }

    /**
     * BezierCurve, Line, Circle, Polygon: each point goes to loc minus its
     * offset, then the variant's setCenter(loc) runs.
     */
    method ShapeUpdatePointsOnMoving(loc: Vec)
      requires Valid() && |points| <= |SavedOffsets()|
      modifies this`points, this`x, this`y, this`radius
      ensures Valid()
      ensures Snapshot() == Recentered(kind, old(Snapshot()).(points := Moved(old(points), SavedOffsets(), loc)),
                                       draggingPoint, loc, math)
    {
      var offs := SavedOffsets();
      ghost var before := points;
      var i := 0;
      while i < |points|
        invariant 0 <= i <= |points| == |before|
        invariant x == old(x) && y == old(y) && radius == old(radius)
        invariant forall j :: 0 <= j < i ==> points[j] == Point(loc.x - offs[j].offsetX, loc.y - offs[j].offsetY, before[j].isCenter)
        invariant forall j :: i <= j < |points| ==> points[j] == before[j]
      {
        points := points[i := Point(loc.x - offs[i].offsetX, loc.y - offs[i].offsetY, points[i].isCenter)];
        i := i + 1;
      }
      assert points == Moved(before, offs, loc);
      assert Snapshot() == old(Snapshot()).(points := Moved(old(points), offs, loc));
      SetCenter(loc);
    }

    /**
     * RoundRect: the corner goes to loc minus the offset, the centre to the
     * middle of the moved rectangle, and the control points are rebuilt, by
     * the rotated mapping once the shape has been rotated.
     */
    method RoundRectUpdatePointsOnMoving(loc: Vec)
      requires Valid() && kind == ShapeKind.RoundRect && offsets.Some?
      modifies this`cornerX, this`cornerY, this`x, this`y, this`controlPoint
      ensures Valid()
      ensures Vec(cornerX, cornerY) == MovedCorner(offsets.value, Vec(old(cornerX), old(cornerY)), loc)
      ensures x == width / 2.0 + cornerX && y == height / 2.0 + cornerY
      ensures controlPoint == if isRotated
        then MapLayout(ctx.currentTransform, LocalLayout(cornerRadius, width, height), Some(x), Some(y))
        else ControlLayout(cornerX, cornerY, cornerRadius, width, height)
    {
      var offs := offsets.value;
      for k := 0 to |offs|
        invariant Valid() && controlPoint == old(controlPoint)
        invariant Vec(cornerX, cornerY) == MovedCorner(offs[..k], Vec(old(cornerX), old(cornerY)), loc)
      {
        cornerX := loc.x - offs[k].offsetX;
        cornerY := loc.y - offs[k].offsetY;
      }
      assert offs[..|offs|] == offs;
      x := width / 2.0 + cornerX;
      y := height / 2.0 + cornerY;
      if isRotated {
        RoundRectUpdatePointAfterRotated(Some(x), Some(y));
      } else {
        SetControlPoint();
      }
    }

    /** updatePointsOnMoving, dispatched on the kind. */
    method UpdatePointsOnMoving(loc: Vec)
      requires Valid()
      requires kind == ShapeKind.RoundRect ==> offsets.Some?
      requires kind != ShapeKind.RoundRect ==> |points| <= |SavedOffsets()|
      modifies this`points, this`x, this`y, this`radius, this`cornerX, this`cornerY, this`controlPoint
      ensures Valid()
      ensures kind != ShapeKind.RoundRect ==>
        && Snapshot() == Recentered(kind, old(Snapshot()).(points := Moved(old(points), SavedOffsets(), loc)),
                                    draggingPoint, loc, math)
        && cornerX == old(cornerX) && cornerY == old(cornerY) && controlPoint == old(controlPoint)
      ensures kind == ShapeKind.RoundRect ==>
        && Vec(cornerX, cornerY) == MovedCorner(offsets.value, Vec(old(cornerX), old(cornerY)), loc)
        && x == width / 2.0 + cornerX && y == height / 2.0 + cornerY
        && controlPoint == (if isRotated
             then MapLayout(ctx.currentTransform, LocalLayout(cornerRadius, width, height), Some(x), Some(y))
             else ControlLayout(cornerX, cornerY, cornerRadius, width, height))
        && points == old(points) && radius == old(radius)
    {
      if kind == ShapeKind.RoundRect {
        RoundRectUpdatePointsOnMoving(loc);
      } else {
        ShapeUpdatePointsOnMoving(loc);
      }
    }

    // -------------------------------------------------------------------------
    // Bounding box and handle picking

    /** getRectInfo: one scan for the extremes, starting from MAX_VALUE and MIN_VALUE. */
    method GetRectInfo() returns (r: RectInfo)
      ensures r == RectOf(points)
    {
      var minX, minY := MAX_VALUE, MAX_VALUE;
      var maxX, maxY := MIN_VALUE, MIN_VALUE;
      ghost var xs, ys := Xs(points), Ys(points);
      var i := 0;
      while i < |points|
        invariant 0 <= i <= |points|
        invariant minX == RunMin(MAX_VALUE, xs[..i]) && maxX == RunMax(MIN_VALUE, xs[..i])
        invariant minY == RunMin(MAX_VALUE, ys[..i]) && maxY == RunMax(MIN_VALUE, ys[..i])
      {
        var p := points[i];
        assert xs[..i + 1][..i] == xs[..i] && ys[..i + 1][..i] == ys[..i];
        minX := Min(minX, p.x);
        minY := Min(minY, p.y);
        maxX := Max(maxX, p.x);
        maxY := Max(maxY, p.y);
        i := i + 1;
      }
      assert xs[..i] == xs && ys[..i] == ys;
      var w := maxX - minX;
      var h := maxY - minY;
      r := RectInfo(minX, minY, w, h, Max(w, h) / 2.0, Vec(minX + w / 2.0, minY + h / 2.0));
    }

    /**
     * getDraggingPoint: forget the previous pick, then take the first point,
     * in list order, whose handle is hit at loc.
     */
    method GetDraggingPoint(loc: Vec, hits: (Vec, real, Vec) -> bool) returns (picked: Option<Point>)
      requires Valid()
      modifies this`draggingPoint
      ensures Valid()
      ensures draggingPoint == FirstHitFrom(points, 0, loc, pointRadius, hits)
      ensures picked == if draggingPoint.Some? then Some(points[draggingPoint.value]) else None
    {
      draggingPoint := None;
      var i := 0;
      while i < |points|
        invariant 0 <= i <= |points|
        invariant draggingPoint == None
        invariant FirstHitFrom(points, i, loc, pointRadius, hits) == FirstHitFrom(points, 0, loc, pointRadius, hits)
      {
        if HandleHit(hits, points[i], pointRadius, loc) {
          draggingPoint := Some(i);
          break;
        }
        i := i + 1;
      }
      picked := if draggingPoint.Some? then Some(points[draggingPoint.value]) else None;
    }

    // -------------------------------------------------------------------------
    // Per-point edit

    /** BezierCurve, Line, Circle, Polygon: the dragged point goes to loc, then setCenter(loc). */
    method ShapeUpdatePointOnEditing(loc: Vec)
      requires Valid() && draggingPoint.Some?
      modifies this`points, this`x, this`y, this`radius
      ensures Valid()
      ensures Snapshot() == Recentered(kind, old(Snapshot()).(points := Edited(old(points), draggingPoint.value, loc)),
                                       draggingPoint, loc, math)
    {
      var i := draggingPoint.value;
      points := points[i := Point(loc.x, loc.y, points[i].isCenter)];
      SetCenter(loc);
    }

    /** updatePointOnEditing, dispatched on the kind; RoundRect's override does nothing. */
    method UpdatePointOnEditing(loc: Vec)
      requires Valid()
      requires kind != ShapeKind.RoundRect ==> draggingPoint.Some?
      modifies this`points, this`x, this`y, this`radius
      ensures Valid()
      ensures kind != ShapeKind.RoundRect ==>
        Snapshot() == Recentered(kind, old(Snapshot()).(points := Edited(old(points), draggingPoint.value, loc)),
                                 draggingPoint, loc, math)
      ensures kind == ShapeKind.RoundRect ==> Snapshot() == old(Snapshot())
    {
      if kind != ShapeKind.RoundRect {
        ShapeUpdatePointOnEditing(loc);
      }
    }

    // -------------------------------------------------------------------------
    // Centre recomputation

    /** BezierCurve: centre of the bounding box, radius its diagonal. */
    method BezierSetCenter()
      requires Valid() && kind == ShapeKind.BezierCurve
      modifies this`x, this`y, this`radius
      ensures Valid()
      ensures Snapshot() == Recentered(kind, old(Snapshot()), draggingPoint, Vec(0.0, 0.0), math)
    {
      var r := GetRectInfo();
      radius := Sqrt(math, Square(r.width) + Square(r.height));
      x := r.width / 2.0 + r.x;
      y := r.height / 2.0 + r.y;
    }

    /** Line: the centre is the begin point. */
    method LineSetCenter()
      requires Valid() && kind == ShapeKind.Line
      modifies this`x, this`y
      ensures Valid()
      ensures Snapshot() == Recentered(kind, old(Snapshot()), draggingPoint, Vec(0.0, 0.0), math)
    {
      x := points[0].x;
      y := points[0].y;
    }

    /**
     * Circle: dragging a rim handle sets the radius to the distance from the
     * centre to loc, dragging the centre handle moves the centre; either way
     * the handles are rebuilt. Without a drag the centre is the first point.
     */
    method CircleSetCenter(loc: Vec)
      requires Valid() && kind == ShapeKind.Circle
      modifies this`x, this`y, this`radius, this`points
      ensures Valid()
      ensures Snapshot() == Recentered(kind, old(Snapshot()), draggingPoint, loc, math)
    {
      if draggingPoint.Some? {
        var p := points[draggingPoint.value];
        if !p.isCenter {
          var offsetX := loc.x - x;
          var offsetY := loc.y - y;
          radius := Sqrt(math, Square(offsetX) + Square(offsetY));
        } else {
          x := p.x;
          y := p.y;
        }
        SetPoints();
      } else {
        x := points[0].x;
        y := points[0].y;
      }
    }

    /** Polygon: centre and radius of the bounding box. */
    method PolygonSetCenter()
      requires Valid() && kind == ShapeKind.Polygon
      modifies this`x, this`y, this`radius
      ensures Valid()
      ensures Snapshot() == Recentered(kind, old(Snapshot()), draggingPoint, Vec(0.0, 0.0), math)
    {
      var r := GetRectInfo();
      x := r.center.x;
      y := r.center.y;
      radius := r.radius;
    }

    /** setCenter, dispatched on the kind; RoundRect inherits the base no-op. */
    method SetCenter(loc: Vec)
      requires Valid()
      modifies this`x, this`y, this`radius, this`points
      ensures Valid()
      ensures Snapshot() == Recentered(kind, old(Snapshot()), draggingPoint, loc, math)
    {
      match kind
      case BezierCurve => BezierSetCenter();
      case Line => LineSetCenter();
      case Circle => CircleSetCenter(loc);
      case Polygon => PolygonSetCenter();
      case RoundRect =>
    }

    // -------------------------------------------------------------------------
    // Derived layouts

    /** Circle.setPoints. */
    method SetPoints()
      requires kind == ShapeKind.Circle
      modifies this`points
      ensures points == CircleHandles(x, y, radius)
    {
      points := CircleHandles(x, y, radius);
    }

    /** RoundRect.setControlPoint. */
    method SetControlPoint()
      requires kind == ShapeKind.RoundRect
      modifies this`controlPoint
      ensures controlPoint == ControlLayout(cornerX, cornerY, cornerRadius, width, height)
    {
      controlPoint := ControlLayout(cornerX, cornerY, cornerRadius, width, height);
    }

    /** Polygon.getPoints: `sides` vertices, the angle advancing by 2*PI/sides from startRadians. */
    method GetPoints() returns (ps: seq<Point>)
      ensures |ps| == sides
      ensures forall i :: 0 <= i < sides ==>
                ps[i] == PolygonVertex(math, x, y, radius, PolygonAngle(math, startRadians, sides, i))
    {
      ps := [];
      var radians := startRadians;
      var i := 0;
      while i < sides
        invariant 0 <= i <= sides
        invariant |ps| == i
        invariant forall j :: 0 <= j < i ==>
                    ps[j] == PolygonVertex(math, x, y, radius, PolygonAngle(math, startRadians, sides, j))
        invariant 0 < sides ==> radians == PolygonAngle(math, startRadians, sides, i)
      {
        var vertex := PolygonVertex(math, x, y, radius, radians);
        ps := ps + [vertex];
        var step := 2.0 * math.pi / sides as real;
        assert (i + 1) as real * step == i as real * step + step;
        radians := radians + step;
        i := i + 1;
      }
    }

    // -------------------------------------------------------------------------
    // Affine bookkeeping

    /** setShapeTransform: record rotate-by-radians-then-translate as the context's matrix. */
    method SetShapeTransform(radians: real, tx: real, ty: real)
      modifies ctx`currentTransform
      ensures ctx.currentTransform == RotationAbout(Sin(math, radians), Cos(math, radians), tx, ty)
    {
      var sin := Sin(math, radians);
      var cos := Cos(math, radians);
      ctx.currentTransform := Transform(cos, sin, -sin, cos, tx, ty);
    }

    /** getTransformPointToScreenPoint, through the context's recorded matrix. */
    function GetTransformPointToScreenPoint(px: real, py: real, tx: Option<real>, ty: Option<real>): Vec
      reads ctx
    {
      MapToScreen(ctx.currentTransform, px, py, tx, ty)
    }

    /** Every point moved by (dx, dy) in place. */
    method ShiftPoints(dx: real, dy: real)
      modifies this`points
      ensures points == Translated(old(points), dx, dy)
    {
      var i := 0;
      while i < |points|
        invariant 0 <= i <= |points| == |old(points)|
        invariant forall j :: 0 <= j < i ==> points[j] == Point(old(points)[j].x + dx, old(points)[j].y + dy, old(points)[j].isCenter)
        invariant forall j :: i <= j < |points| ==> points[j] == old(points)[j]
      {
        points := points[i := Point(points[i].x + dx, points[i].y + dy, points[i].isCenter)];
        i := i + 1;
      }
    }

    // -------------------------------------------------------------------------
    // Rotation: draw once under the matrix, then restore the stored geometry.
    // The drawing itself is rendering and is not modelled; the local geometry
    // it would render is set up and torn down all the same.

    /** BezierCurve.rotate; its draw destructures four points, so fewer than four throw. */
    method BezierRotate(radians: real)
      requires Valid() && kind == ShapeKind.BezierCurve
      requires 4 <= |points|
      modifies this`points, this`x, this`y, this`startRadians, ctx`currentTransform
      ensures Valid()
      ensures points == old(points) && x == old(x) && y == old(y)
      ensures startRadians == radians
      ensures ctx.currentTransform == RotationAbout(Sin(math, radians), Cos(math, radians), old(x), old(y))
    {
      var cx, cy, saved := x, y, points;
      startRadians := radians;
      SetShapeTransform(radians, cx, cy);
      x, y := 0.0, 0.0;
      ShiftPoints(-cx, -cy);
      x, y := cx, cy;
      points := saved;
    }

    /** Line.rotate: about the begin point; startRadians is not touched. */
    method LineRotate(radians: real)
      requires Valid() && kind == ShapeKind.Line
      modifies this`points, ctx`currentTransform
      ensures Valid()
      ensures points == old(points)
      ensures ctx.currentTransform == RotationAbout(Sin(math, radians), Cos(math, radians), old(points[0].x), old(points[0].y))
    {
      var beginPoint, endPoint := points[0], points[1];
      var beginX, beginY := beginPoint.x, beginPoint.y;
      var saved := points;
      SetShapeTransform(radians, beginX, beginY);
      points := [Point(0.0, 0.0, beginPoint.isCenter), Point(endPoint.x - beginX, endPoint.y - beginY, endPoint.isCenter)];
      points := saved;
    }

    /**
     * Polygon.rotate: like the curve's, but startRadians is not touched; its
     * draw reads points[0] up to points[sides - 1].
     */
    method PolygonRotate(radians: real)
      requires Valid() && kind == ShapeKind.Polygon
      requires 0 < |points| && sides <= |points|
      modifies this`points, this`x, this`y, ctx`currentTransform
      ensures Valid()
      ensures points == old(points) && x == old(x) && y == old(y)
      ensures ctx.currentTransform == RotationAbout(Sin(math, radians), Cos(math, radians), old(x), old(y))
    {
      var cx, cy, saved := x, y, points;
      SetShapeTransform(radians, cx, cy);
      x, y := 0.0, 0.0;
      ShiftPoints(-cx, -cy);
      x, y := cx, cy;
      points := saved;
    }

    /**
     * RoundRect.rotate: marks the shape rotated, records the angle and the
     * matrix, and leaves the control points built around the local corner
     * (-width/2, -height/2); centre and corner are restored.
     */
    method RoundRectRotate(radians: real)
      requires Valid() && kind == ShapeKind.RoundRect
      modifies this`isRotated, this`startRadians, this`x, this`y, this`cornerX, this`cornerY, this`controlPoint,
               ctx`currentTransform
      ensures Valid()
      ensures isRotated && startRadians == radians
      ensures x == old(x) && y == old(y) && cornerX == old(cornerX) && cornerY == old(cornerY)
      ensures controlPoint == LocalLayout(cornerRadius, width, height)
      ensures ctx.currentTransform == RotationAbout(Sin(math, radians), Cos(math, radians), old(x), old(y))
    {
      var cx, cy, ccx, ccy := x, y, cornerX, cornerY;
      var tCornerX, tCornerY := -width / 2.0, -height / 2.0;
      isRotated := true;
      startRadians := radians;
      SetShapeTransform(radians, cx, cy);
      x, y := 0.0, 0.0;
      cornerX, cornerY := tCornerX, tCornerY;
      SetControlPoint();
      x, y := cx, cy;
      cornerX, cornerY := ccx, ccy;
    }

    /** rotate, dispatched on the kind; Circle keeps the base no-op. */
    method Rotate(radians: real)
      requires Valid()
      requires kind == ShapeKind.BezierCurve ==> 4 <= |points|
      requires kind == ShapeKind.Polygon ==> 0 < |points| && sides <= |points|
      modifies this`points, this`x, this`y, this`startRadians, this`isRotated, this`cornerX, this`cornerY,
               this`controlPoint, ctx`currentTransform
      ensures Valid()
      ensures points == old(points) && x == old(x) && y == old(y)
      ensures cornerX == old(cornerX) && cornerY == old(cornerY)
      ensures startRadians == if kind == ShapeKind.BezierCurve || kind == ShapeKind.RoundRect then radians else old(startRadians)
      ensures isRotated == (old(isRotated) || kind == ShapeKind.RoundRect)
      ensures controlPoint == if kind == ShapeKind.RoundRect then LocalLayout(cornerRadius, width, height) else old(controlPoint)
      ensures ctx.currentTransform == match kind
        case Circle => old(ctx.currentTransform)
        case Line => RotationAbout(Sin(math, radians), Cos(math, radians), old(points[0].x), old(points[0].y))
        case _ => RotationAbout(Sin(math, radians), Cos(math, radians), old(x), old(y))
    {
      match kind
      case BezierCurve => BezierRotate(radians);
      case Line => LineRotate(radians);
      case Polygon => PolygonRotate(radians);
      case RoundRect => RoundRectRotate(radians);
      case Circle =>
    }

    // -------------------------------------------------------------------------
    // Persisting a rotation

    /** BezierCurve and Polygon updatePointAfterRotated: every point mapped about the centre. */
    method MapPointsAboutCenter()
      requires Valid() && (kind == ShapeKind.BezierCurve || kind == ShapeKind.Polygon)
      modifies this`points
      ensures Valid()
      ensures points == MappedAbout(ctx.currentTransform, old(points), x, y)
    {
      var centerX, centerY := x, y;
      var i := 0;
      while i < |points|
        invariant 0 <= i <= |points| == |old(points)|
        invariant forall j :: 0 <= j < i ==> points[j] == MappedPoint(ctx.currentTransform, old(points)[j], centerX, centerY)
        invariant forall j :: i <= j < |points| ==> points[j] == old(points)[j]
      {
        var p := points[i];
        var t := GetTransformPointToScreenPoint(p.x - centerX, p.y - centerY, None, None);
        points := points[i := Point(t.x, t.y, p.isCenter)];
        i := i + 1;
      }
    }

    /** Line.updatePointAfterRotated: the end point, relative to the begin point, mapped. */
    method LineUpdatePointAfterRotated()
      requires Valid() && kind == ShapeKind.Line
      modifies this`points
      ensures Valid()
      ensures points == LineMapped(ctx.currentTransform, old(points))
    {
      var beginPoint, endPoint := points[0], points[1];
      var local := Point(endPoint.x - beginPoint.x, endPoint.y - beginPoint.y, endPoint.isCenter);
      points := points[1 := local];
      var p := GetTransformPointToScreenPoint(local.x, local.y, None, None);
      points := points[1 := Point(p.x, p.y, local.isCenter)];
    }

    /**
     * RoundRect.updatePointAfterRotated: the control points of the local
     * layout mapped through the recorded matrix, the translation overridden by
     * tx / ty when given.
     */
    method RoundRectUpdatePointAfterRotated(tx: Option<real>, ty: Option<real>)
      requires Valid() && kind == ShapeKind.RoundRect
      modifies this`controlPoint
      ensures Valid()
      ensures controlPoint == MapLayout(ctx.currentTransform, LocalLayout(cornerRadius, width, height), tx, ty)
    {
      var tCornerX, tCornerY := -width / 2.0, -height / 2.0;
      var tBasePointX := tCornerX + cornerRadius;
      var tControlPointX := tCornerX + width;
      var tControlPointY := tCornerY + height;
      ghost var target := MapLayout(ctx.currentTransform, LocalLayout(cornerRadius, width, height), tx, ty);
      var entries := controlPoint;
      var tPoints: seq<ControlEntry> := [];
      for k := 0 to |entries|
        invariant |entries| == |target| == 5
        invariant tPoints == target[..k]
        invariant 0 < k ==> controlPoint == tPoints
      {
        var entry;
        if k == 0 {
          var b := GetTransformPointToScreenPoint(tBasePointX, tCornerY, tx, ty);
          entry := BasePoint(b.x, b.y);
        } else {
          var p1, p2;
          if k == 1 {
            p1 := GetTransformPointToScreenPoint(tControlPointX, tCornerY, tx, ty);
            p2 := GetTransformPointToScreenPoint(tControlPointX, tControlPointY, tx, ty);
          } else if k == 2 {
            p1 := GetTransformPointToScreenPoint(tControlPointX, tControlPointY, tx, ty);
            p2 := GetTransformPointToScreenPoint(tCornerX, tControlPointY, tx, ty);
          } else if k == 3 {
            p1 := GetTransformPointToScreenPoint(tCornerX, tControlPointY, tx, ty);
            p2 := GetTransformPointToScreenPoint(tCornerX, tCornerY, tx, ty);
          } else {
            p1 := GetTransformPointToScreenPoint(tCornerX, tCornerY, tx, ty);
            p2 := GetTransformPointToScreenPoint(tBasePointX, tCornerY, tx, ty);
          }
          entry := ArcControl(p1.x, p1.y, p2.x, p2.y);
        }
        assert entry == target[k];
        tPoints := tPoints + [entry];
        controlPoint := tPoints;
      }
      assert tPoints == target;
    }

    /** updatePointAfterRotated, dispatched on the kind; Circle keeps the base no-op. */
    method UpdatePointAfterRotated(tx: Option<real>, ty: Option<real>)
      requires Valid()
      modifies this`points, this`controlPoint
      ensures Valid()
      ensures points == match kind
        case BezierCurve => MappedAbout(ctx.currentTransform, old(points), x, y)
        case Polygon => MappedAbout(ctx.currentTransform, old(points), x, y)
        case Line => LineMapped(ctx.currentTransform, old(points))
        case _ => old(points)
      ensures controlPoint == if kind == ShapeKind.RoundRect
        then MapLayout(ctx.currentTransform, LocalLayout(cornerRadius, width, height), tx, ty)
        else old(controlPoint)
    {
      match kind
      case BezierCurve => MapPointsAboutCenter();
      case Polygon => MapPointsAboutCenter();
      case Line => LineUpdatePointAfterRotated();
      case RoundRect => RoundRectUpdatePointAfterRotated(tx, ty);
      case Circle =>
    }
  }
}
