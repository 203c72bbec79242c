# Drawing-board shapes and level tile expansion, in Dafny

This project models two parts of the repository.

**The drawing board's shape objects** (`src/views/drawingBoard/shape.js`) are
the editable shapes of a canvas drawing app: a cubic Bézier curve, a line, a
circle, a rounded rectangle and a regular polygon. Each shape keeps a list of
handle points, a centre `(x, y)` and a radius. It also supports four
interactions:
- picking a handle under the pointer;
- dragging one handle (editing);
- dragging the whole shape (moving, through offsets captured when the drag
  starts);
- rotating: the shape is drawn under a rotate-then-translate matrix recorded
  on the canvas context. A later call maps the points through that matrix to
  make the rotation permanent.

The source's class hierarchy becomes one Dafny class, `Shapes.Shape`, tagged
with its `kind`. Every overridden method is a method of its own, for example
`CircleSetCenter` or `LineRotate`. A dispatcher named after the base method
(`SetCenter`, `Rotate`, `UpdatePointAfterRotated`, ...) selects the override
by kind, as the virtual call does. The canvas context is `Shapes.Canvas`,
reduced to the matrix the shapes record on it.

Each method that changes a shape is proved equal to a pure function of the
old state, and those functions are specified in `ShapeSpec`:
- `Recentered` is each variant's `setCenter`.
- `Moved` and `OffsetsFrom` are the move protocol.
- `RectOf` is the bounding box.
- `FirstHitFrom` is handle picking.
- `CircleHandles`, `ControlLayout`, `MapLayout` and `PolygonVertex` are the
  derived point layouts.
- `MappedAbout` and `LineMapped` make a rotation permanent.

The properties of the editing protocol are lemmas about those functions: the
move round trip, rigid motion, the circle radius law, the closed rounded-rect
tour, rotation preserving distances, and first-hit picking. `Geometry` holds
the shared vocabulary: points, the affine matrix and its application, and
the math library.

**The level loader's tile expansion** (`createTiles` and its inner
`applyRange` in `src/views/superMario/loaders.js`) turns background specs
into writes on the level's tile grid:
- A range `[xs, xl, ys, yl]` covers a rectangle. `[xs, xl, ys]` covers a row
  and `[xs, ys]` covers a single cell. Ranges of any other length are ignored.
- A plain background writes `{name, type}` to every covered cell.
- A pattern background expands the named pattern's own backgrounds, with the
  offset moved to each covered cell.

`Tiles.PlaceBackgrounds` is the specification: the ordered list of writes the
expansion performs, and how it ends. `Tiles.Apply` folds the writes into the
grid. The methods perform the expansion in place on a `Level`, and each is proved
to do exactly what the specification says for its part:
- `CreateTiles` is the loop over backgrounds.
- `ApplyRanges` is its loop over one background's ranges.
- `ApplyRange` is `applyRange`'s `x` loop.
- `ApplyColumn` is its `y` loop.
- `ApplyCell` is the body for one cell.

The math functions the source calls (`Math.sin`, `Math.cos`, `Math.sqrt`,
`Math.PI`) are a parameter, `Geometry.MathLib`, stored in each shape. Lemmas
that need a law of these functions state it as a requirement:
- `SqrtLaw`: the square of the square root gives back its argument;
- `PythagoreanLaw`: sin² + cos² = 1.

Numbers are exact reals, or integers for tile coordinates. Bounding boxes
start from `Number.MAX_VALUE` and `Number.MIN_VALUE`, the source's two exact
binary64 constants.

## Model

| member | source | states |
|---|---|---|
| `Geometry.RotationAbout` | src/views/drawingBoard/shape.js:109-115 | defines the matrix setShapeTransform records: a = cos, b = sin, c = −sin, d = cos, e = tx, f = ty; its properties are RotationPreservesDistance and ZeroRotationTranslates |
| `Geometry.MapToScreen` | src/views/drawingBoard/shape.js:119-128 | defines the mapping of a local point (x, y) to (x·a + y·c + e, x·b + y·d + f), with e and f replaced by tx and ty when those are given; its properties are MapOriginIsTranslation and MapOverrideReplacesTranslation |
| `Geometry.MapOriginIsTranslation` | src/views/drawingBoard/shape.js:119-128 | mapping the local origin gives the translation, or the override when one is given |
| `Geometry.MapOverrideReplacesTranslation` | src/views/drawingBoard/shape.js:119-128 | given overrides tx/ty, the mapping equals the mapping through the matrix with e/f replaced by them |
| `Geometry.RotationPreservesDistance` | src/views/drawingBoard/shape.js:105-128 | under sin²+cos²=1, the recorded rotate-then-translate matrix keeps every point's distance from the translation point |
| `Geometry.ZeroRotationTranslates` | src/views/drawingBoard/shape.js:105-128 | with sin 0 = 0 and cos 0 = 1, the matrix for angle 0 is a pure translation |
| `ShapeSpec.OffsetsFrom` | src/views/drawingBoard/shape.js:24-32 | defines the offsets savePointOffset captures: one per point, in order, loc minus the point; partner lemmas MoveRoundTrip and MoveRigid |
| `ShapeSpec.Moved` | src/views/drawingBoard/shape.js:33-38 | defines the base move: point i goes to loc minus offset i, keeping its flag; partner lemmas MoveRoundTrip and MoveRigid |
| `ShapeSpec.RectOf` | src/views/drawingBoard/shape.js:41-66 | defines getRectInfo: running minima from MAX_VALUE and maxima from MIN_VALUE, then the box, its centre and its radius; partner lemmas RectOfBounds and RectOfTranslated |
| `ShapeSpec.MoveRoundTrip` | src/views/drawingBoard/shape.js:24-40 | moving to the location where the offsets were captured leaves every point as it was |
| `ShapeSpec.MoveRigid` | src/views/drawingBoard/shape.js:24-40 | moving to that location plus d translates every point by d, keeping its centre flag |
| `ShapeSpec.RunMinIsLeast` | src/views/drawingBoard/shape.js:41-53 | the running minimum is at most the start and every element, and is the start or some element |
| `ShapeSpec.RunMaxIsGreatest` | src/views/drawingBoard/shape.js:41-53 | the running maximum is at least the start and every element, and is the start or some element |
| `ShapeSpec.AxisBounds` | src/views/drawingBoard/shape.js:41-53 | for a non-empty axis, every coordinate lies between the two extremes; the low one is MAX_VALUE or a coordinate; the high one is at least MIN_VALUE and is MIN_VALUE or a coordinate |
| `ShapeSpec.RectOfBounds` | src/views/drawingBoard/shape.js:41-66 | for non-empty points the box encloses every point and has non-negative size; its edges are point coordinates except where MAX_VALUE/MIN_VALUE win; centre and radius are defined from it |
| `ShapeSpec.RectOfNegativeQuirk` | src/views/drawingBoard/shape.js:44-45 | all-negative points (-20,-20), (-10,-10): the right edge is MIN_VALUE and the centre is not their midpoint |
| `ShapeSpec.ReachedAxisExtremes` | src/views/drawingBoard/shape.js:41-53 | when the extremes are reached by coordinates, they are the least and the greatest coordinate |
| `ShapeSpec.AxisTranslated` | src/views/drawingBoard/shape.js:41-53 | shifting every coordinate by d shifts both reached extremes by d |
| `ShapeSpec.RectOfTranslated` | src/views/drawingBoard/shape.js:41-66 | translating the points by (dx, dy) translates the box and its centre and keeps size and radius, when the box reaches the points before and after |
| `ShapeSpec.FirstHitFrom` | src/views/drawingBoard/shape.js:76-89 | the result is the first index from i whose handle is hit; no index before it is hit; none iff no handle from i is hit |
| `ShapeSpec.FirstHitPrefersEarlier` | src/views/drawingBoard/shape.js:78-84 | when two handles are hit, the later one is never the one picked |
| `ShapeSpec.CircleHandlesOnCircle` | src/views/drawingBoard/shape.js:288-313 | five handles: the first is the centre and flagged; the other four are unflagged and lie at distance r from the centre |
| `ShapeSpec.ControlLayout` | src/views/drawingBoard/shape.js:358-393 | defines setControlPoint's five entries: the base point cornerRadius right of the corner, then four arcs given by their two control points; partner lemma ControlLayoutIsClosedTour |
| `ShapeSpec.MapLayout` | src/views/drawingBoard/shape.js:418-461 | defines updatePointAfterRotated's rebuilt control points: each entry of the local layout mapped to the screen, with tx/ty overriding the translation; partner lemma RotatedLayoutWithoutRotation |
| `ShapeSpec.ControlLayoutIsClosedTour` | src/views/drawingBoard/shape.js:358-393 | base point cornerRadius right of the corner; arcs start at the top-right, bottom-right, bottom-left and top-left corners in turn; each arc ends where the next starts; the last ends at the base point |
| `ShapeSpec.RotatedLayoutWithoutRotation` | src/views/drawingBoard/shape.js:418-461 | with an unrotated matrix and the translation replaced by the centre, the mapped local layout is the layout built from the corner |
| `ShapeSpec.PolygonVertexOnCircle` | src/views/drawingBoard/shape.js:544-553 | under sin²+cos²=1, every vertex lies at distance radius from the centre |
| `ShapeSpec.MappedAbout` | src/views/drawingBoard/shape.js:178-188 | defines the remap of BezierCurve's updatePointAfterRotated and of Polygon's identical copy at lines 575-585: each point taken relative to the centre and mapped through the recorded matrix; partner lemmas MappedAboutZeroRotation and MappedAboutKeepsDistances |
| `ShapeSpec.LineMapped` | src/views/drawingBoard/shape.js:226-233 | defines Line's updatePointAfterRotated: the end point taken relative to the begin point and mapped, the begin point kept; partner lemma LineMappedKeepsLength |
| `ShapeSpec.Edited` | src/views/drawingBoard/shape.js:90-93 | defines the edit of the dragged point: it goes to loc, every other point is kept; partner lemma EditMovesOnlyDragged |
| `ShapeSpec.MappedAboutZeroRotation` | src/views/drawingBoard/shape.js:178-188 | persisting a zero rotation recorded about the centre leaves the points unchanged (BezierCurve's remap, and Polygon's at lines 575-585) |
| `ShapeSpec.MappedAboutKeepsDistances` | src/views/drawingBoard/shape.js:178-188 | persisting a rotation about the centre keeps each point's distance from it (BezierCurve's remap, and Polygon's at lines 575-585) |
| `ShapeSpec.LineMappedKeepsLength` | src/views/drawingBoard/shape.js:226-233 | persisting a rotation about the begin point keeps the begin point and the line's length |
| `ShapeSpec.EditMovesOnlyDragged` | src/views/drawingBoard/shape.js:90-95 | for Line, Polygon and BezierCurve, an edit puts the dragged point at loc and changes no other point; a line's centre is loc when its begin point is dragged and stays the begin point otherwise |
| `ShapeSpec.MovedCorner` | src/views/drawingBoard/shape.js:468-472 | defines RoundRect's corner move: the corner goes to loc minus the last offset, and stays when there is none; partner lemma CornerMoveRigid |
| `ShapeSpec.CornerMoveRigid` | src/views/drawingBoard/shape.js:462-481 | the rounded rect's corner offset returns the corner at the capture location and translates it by d at loc + d |
| `ShapeSpec.Recentered` | src/views/drawingBoard/shape.js:314-334 | defines each variant's setCenter: Circle's three branches (lines 314-334); BezierCurve's and Polygon's bounding-box centre and radius (lines 153-158, 538-543); Line's begin point (lines 221-225); RoundRect's inherited no-op (line 142). Partner lemmas RecenteredKeepsPoints, CircleRadiusLaw, CircleCenterDrag, ShapeMoveRoundTrip and ShapeMoveRigid |
| `ShapeSpec.RecenteredKeepsPoints` | src/views/drawingBoard/shape.js:142-158 | setCenter changes no point except a Circle's regenerated handles; the rounded rect's setCenter changes nothing |
| `ShapeSpec.CircleRadiusLaw` | src/views/drawingBoard/shape.js:314-334 | dragging a rim handle keeps the centre; the new radius is non-negative and its square is the squared distance to loc; the handles are rebuilt around the centre |
| `ShapeSpec.CircleCenterDrag` | src/views/drawingBoard/shape.js:314-334 | dragging the centre handle to loc moves the circle there, keeps the radius and rebuilds the handles |
| `ShapeSpec.ShapeMoveRoundTrip` | src/views/drawingBoard/shape.js:24-40 | for every variant and whatever is dragged, capturing offsets and moving to the same location ends in the state setCenter alone gives |
| `ShapeSpec.BezierRecenterTranslated` | src/views/drawingBoard/shape.js:153-158 | translating a curve's points by d translates its recomputed centre by d and keeps its radius, when the bounding box reaches the points before and after the move (the MIN_VALUE/MAX_VALUE seeds do not win) |
| `ShapeSpec.PolygonRecenterTranslated` | src/views/drawingBoard/shape.js:538-543 | translating a polygon's points by d translates its recomputed centre by d and keeps its radius, when the bounding box reaches the points before and after the move (the MIN_VALUE/MAX_VALUE seeds do not win) |
| `ShapeSpec.ShapeMoveRigid` | src/views/drawingBoard/shape.js:24-40 | for Line, Polygon and BezierCurve, a move by d translates the points and the centre by d and keeps the radius; for Polygon and BezierCurve only when the bounding box reaches the points before and after the move (all-negative coordinates, where MIN_VALUE wins, are not rigid) |
| `ShapeSpec.CircleMoveRigid` | src/views/drawingBoard/shape.js:329-332 | for a Circle with nothing picked (setCenter's else branch after the base move at lines 33-40), a move by d translates the handles and the centre by d and keeps the radius |
| `Shapes.Shape.BezierCurve` | src/views/drawingBoard/shape.js:146-152 | points are the end points then the control points; centre and radius are those of setCenter; no pick, no offsets, not rotated; startRadians defaults to 0 |
| `Shapes.Shape.Line` | src/views/drawingBoard/shape.js:215-220 | points [begin, end]; the centre is begin; the radius is the square root of the summed squared coordinate differences |
| `Shapes.Shape.Circle` | src/views/drawingBoard/shape.js:281-287 | centre and radius as given, the five handles around them, startRadians 0 |
| `Shapes.Shape.RoundRect` | src/views/drawingBoard/shape.js:345-357 | centre at the rectangle's middle; radius is the diagonal; corner radius defaults to 10; control points built from the corner |
| `Shapes.Shape.Polygon` | src/views/drawingBoard/shape.js:510-518 | exactly `sides` vertices, vertex i at angle startRadians + i·2π/sides |
| `Shapes.Shape.ShapeSavePointOffset` | src/views/drawingBoard/shape.js:24-32 | the offsets become, point by point, loc minus the point |
| `Shapes.Shape.RoundRectSavePointOffset` | src/views/drawingBoard/shape.js:462-467 | a single offset, loc minus the corner |
| `Shapes.Shape.SavePointOffset` | src/views/drawingBoard/shape.js:24-32 | dispatch: the per-point offsets, or the rounded rect's single one |
| `Shapes.Shape.ShapeUpdatePointsOnMoving` | src/views/drawingBoard/shape.js:33-40 | new state = Recentered of the old state with the points at loc minus their offsets; before the first capture there are no offsets, so only a shape with no points can move then |
| `Shapes.Shape.RoundRectUpdatePointsOnMoving` | src/views/drawingBoard/shape.js:468-481 | corner from the last offset; centre at the middle; control points rebuilt, through the recorded matrix with the new centre once rotated |
| `Shapes.Shape.UpdatePointsOnMoving` | src/views/drawingBoard/shape.js:33-40 | dispatch of the two moves; every field the other variant owns is unchanged |
| `Shapes.Shape.GetRectInfo` | src/views/drawingBoard/shape.js:41-66 | the scan returns exactly RectOf(points) |
| `Shapes.Shape.GetDraggingPoint` | src/views/drawingBoard/shape.js:76-89 | the pick is FirstHitFrom(points, 0) and the returned point is the picked one, or none |
| `Shapes.Shape.ShapeUpdatePointOnEditing` | src/views/drawingBoard/shape.js:90-95 | new state = Recentered of the old state with the dragged point at loc |
| `Shapes.Shape.UpdatePointOnEditing` | src/views/drawingBoard/shape.js:482-484 | dispatch; the rounded rect's override changes nothing |
| `Shapes.Shape.BezierSetCenter` | src/views/drawingBoard/shape.js:153-158 | centre of the bounding box, radius its diagonal |
| `Shapes.Shape.LineSetCenter` | src/views/drawingBoard/shape.js:221-225 | the centre is the begin point |
| `Shapes.Shape.CircleSetCenter` | src/views/drawingBoard/shape.js:314-334 | radius from a rim drag, centre from a centre drag, handles rebuilt; the first point when nothing is dragged |
| `Shapes.Shape.PolygonSetCenter` | src/views/drawingBoard/shape.js:538-543 | centre and radius of the bounding box |
| `Shapes.Shape.SetCenter` | src/views/drawingBoard/shape.js:142 | dispatch; the new state is Recentered(kind, old state) |
| `Shapes.Shape.SetPoints` | src/views/drawingBoard/shape.js:288-313 | the points become the five circle handles |
| `Shapes.Shape.SetControlPoint` | src/views/drawingBoard/shape.js:358-393 | the control points become the layout built from the corner |
| `Shapes.Shape.GetPoints` | src/views/drawingBoard/shape.js:544-553 | `sides` vertices; vertex i at angle startRadians + i·2π/sides, with the accumulated angle tracked exactly |
| `Shapes.Shape.SetShapeTransform` | src/views/drawingBoard/shape.js:105-118 | the context records cos, sin, −sin, cos, tx, ty |
| `Shapes.Shape.GetTransformPointToScreenPoint` | src/views/drawingBoard/shape.js:119-128 | the context's recorded matrix applied to the local point, with tx/ty overriding the translation (MapToScreen) |
| `Shapes.Shape.ShiftPoints` | src/views/drawingBoard/shape.js:166-169 | every point is translated by (dx, dy) |
| `Shapes.Shape.BezierRotate` | src/views/drawingBoard/shape.js:159-177 | records the angle and the matrix about the centre; points and centre are restored; requires the four points its draw destructures |
| `Shapes.Shape.LineRotate` | src/views/drawingBoard/shape.js:234-251 | records the matrix about the begin point; points restored; startRadians untouched |
| `Shapes.Shape.PolygonRotate` | src/views/drawingBoard/shape.js:519-537 | records the matrix about the centre; points and centre restored; startRadians untouched; requires the points its draw reads (a first point, and at least `sides`) |
| `Shapes.Shape.RoundRectRotate` | src/views/drawingBoard/shape.js:394-417 | marks the shape rotated, records angle and matrix, leaves the local layout, restores centre and corner |
| `Shapes.Shape.Rotate` | src/views/drawingBoard/shape.js:143 | dispatch; a circle's rotate is the base no-op; requires what the BezierCurve and Polygon draws read |
| `Shapes.Shape.MapPointsAboutCenter` | src/views/drawingBoard/shape.js:178-188 | the points become MappedAbout(matrix, old points, centre); shared by BezierCurve and Polygon, whose copy is at lines 575-585 |
| `Shapes.Shape.LineUpdatePointAfterRotated` | src/views/drawingBoard/shape.js:226-233 | the points become LineMapped(matrix, old points) |
| `Shapes.Shape.RoundRectUpdatePointAfterRotated` | src/views/drawingBoard/shape.js:418-461 | the control points become the local layout mapped through the matrix, with tx/ty overriding the translation |
| `Shapes.Shape.UpdatePointAfterRotated` | src/views/drawingBoard/shape.js:140 | dispatch; a circle keeps the base no-op |
| `Tiles.PlaceBackgrounds` | src/views/superMario/loaders.js:71-107 | defines createTiles: the runs of the backgrounds in order, each after the last, stopping at the first that stops; partner method CreateTiles and lemma LaterBackgroundsOverwrite |
| `Tiles.PlaceBackground` | src/views/superMario/loaders.js:94-105 | defines one background's forEach over its ranges: the runs of the ranges in order; partner method ApplyRanges |
| `Tiles.PlaceRange` | src/views/superMario/loaders.js:95-104 | defines the dispatch on the range's length: 4 a rectangle, 3 a row of height 1, 2 a single cell, anything else nothing; partner lemmas RectangleRange, RowRange, CellRange and OtherLengthsIgnored |
| `Tiles.PlaceArea` | src/views/superMario/loaders.js:72-91 | defines applyRange's x loop: one column for each x from xStart below xStart + xLen; partner method ApplyRange and lemmas AreaStep, PlainArea and PaintedRect |
| `Tiles.PlaceColumn` | src/views/superMario/loaders.js:77-89 | defines the y loop: one cell for each y from yStart below yStart + yLen, shifted by the offset; partner method ApplyColumn and lemmas ColumnStep and PlainColumn |
| `Tiles.PlaceCell` | src/views/superMario/loaders.js:78-87 | defines one cell: the tile written, or the named pattern's backgrounds expanded at the cell, a missing name stopping with UnknownPattern; partner method ApplyCell and lemmas PatternCell and UnknownPatternStops |
| `Tiles.Apply` | src/views/superMario/loaders.js:84-87 | defines the grid after the writes, each `tiles.set` in order; partner lemmas ApplyKeys, ApplyConcat, ApplyUntouched and ApplyLastWrite |
| `Tiles.ApplyKeys` | src/views/superMario/loaders.js:84-87 | the writes add exactly their cells to the grid's domain |
| `Tiles.ApplyConcat` | src/views/superMario/loaders.js:93-106 | two batches of writes in a row equal the concatenated batch |
| `Tiles.ApplyUntouched` | src/views/superMario/loaders.js:71-107 | a cell no write touches keeps its value, or stays absent |
| `Tiles.ApplyLastWrite` | src/views/superMario/loaders.js:76-87 | a cell ends with the tile of the last write to it |
| `Tiles.ApplyUniform` | src/views/superMario/loaders.js:84-87 | writes all of one tile paint exactly their cells with it; every other cell is unchanged |
| `Tiles.ThenAssoc` | src/views/superMario/loaders.js:93-106 | sequencing runs is associative |
| `Tiles.FoldStep` | src/views/superMario/loaders.js:93-106 | folding a prefix one run longer runs that run after the prefix |
| `Tiles.FoldSticks` | src/views/superMario/loaders.js:80-81 | once a prefix stops (the source throws), nothing after it runs |
| `Tiles.FoldAppend` | src/views/superMario/loaders.js:93-106 | folding a concatenation runs the halves one after the other |
| `Tiles.LaterBackgroundsOverwrite` | src/views/superMario/loaders.js:93-106 | backgrounds a + b run as a then b; on the grid, b's writes land on top of a's |
| `Tiles.ColumnStep` | src/views/superMario/loaders.js:77-89 | the y loop with one more cell |
| `Tiles.AreaStep` | src/views/superMario/loaders.js:76-89 | the x loop with one more column |
| `Tiles.CellsOfConcat` | src/views/superMario/loaders.js:84-87 | the cells of concatenated writes are the union of their cells |
| `Tiles.CellsOfSingleton` | src/views/superMario/loaders.js:84-87 | a single write covers its own cell |
| `Tiles.PlainColumn` | src/views/superMario/loaders.js:77-89 | a plain background's column completes with its tile on exactly the shifted column cells |
| `Tiles.PlainArea` | src/views/superMario/loaders.js:72-89 | a plain background's rectangle completes with its tile on exactly the shifted rectangle cells |
| `Tiles.PaintedRect` | src/views/superMario/loaders.js:72-89 | after a plain rectangle, covered cells hold the tile and every other cell is unchanged |
| `Tiles.RectangleRange` | src/views/superMario/loaders.js:95-97 | a plain four-element range paints exactly its rectangle, shifted by the offset |
| `Tiles.RowRange` | src/views/superMario/loaders.js:98-100 | a plain three-element range paints exactly one row of xl cells |
| `Tiles.CellRange` | src/views/superMario/loaders.js:101-103 | a plain two-element range paints exactly the one cell |
| `Tiles.OtherLengthsIgnored` | src/views/superMario/loaders.js:95-104 | a range of any other length writes nothing and cannot fail |
| `Tiles.EmptyExtent` | src/views/superMario/loaders.js:73-77 | a zero or negative extent writes nothing and does not even look up a pattern |
| `Tiles.UnknownPatternStops` | src/views/superMario/loaders.js:80-82 | a missing pattern name stops the expansion at the first covered cell, before any write |
| `Tiles.PatternCell` | src/views/superMario/loaders.js:80-82 | a pattern background on one cell places the pattern's backgrounds with the offset moved to that cell |
| `Tiles.Matrix.Set` | src/views/superMario/loaders.js:84-87 | setting a cell updates that cell only |
| `Tiles.Level.constructor` | src/views/superMario/loaders.js:61 | a fresh level has a fresh, empty tile matrix |
| `Tiles.CreateTiles` | src/views/superMario/loaders.js:71-107 | the level's tiles become the old tiles with PlaceBackgrounds' writes applied; the status is PlaceBackgrounds' status |
| `Tiles.ApplyRange` | src/views/superMario/loaders.js:72-91 | the level's tiles become the old tiles with PlaceArea's writes applied; the status is PlaceArea's status |
| `Tiles.ApplyRanges` | src/views/superMario/loaders.js:94-105 | the same, for one background's ranges (PlaceBackground) |
| `Tiles.ApplyColumn` | src/views/superMario/loaders.js:77-89 | the same, for one column (PlaceColumn) |
| `Tiles.ApplyCell` | src/views/superMario/loaders.js:78-87 | the same, for one cell (PlaceCell): the tile written, or the pattern expanded at the cell |

## Left out

- Rendering is not modelled: `draw`, `drawPath`, `drawControlPoint`, `createPath` and the path builders, `drawDebuggerPoint`, `ctx.transform`, `ctx.save`/`ctx.restore`, and `drawPoint` from `appFunc.js`. Rotate methods model the geometry that is set up for the draw and torn down after it, not the drawn pixels.
- The style fields (`strokeStyle`, `fillStyle`, `filled`), `isEditing`, `type` and `_debugger` only affect drawing, so they are not fields of the model.
- `Math.sin`, `Math.cos`, `Math.sqrt` and `Math.PI` are a parameter (`MathLib`). Their laws are requirements of the lemmas that use them, and floating-point rounding is not modelled: numbers are exact reals.
- Hit testing (`ctx.arc` plus `isPointInPath`) is a parameter `hits(handle, pointRadius, loc)`; picking is modelled over any such test.
- `draggingPoint` holds an index into `points`, not an object reference. The source keeps a stale reference once the point objects are replaced, and the model instead reads the new point with the same index. This changes two things:
  - After a rotate's deep copy (BezierCurve, Line, Polygon), an edit without a new pick writes `loc` into a detached object in the source, so the points do not change. `ShapeUpdatePointOnEditing` moves `points[i]` instead.
  - Circle's `setPoints` replaces the handles whenever a picked handle is dragged. Later edits without a new pick agree with the source: a rim drag uses `loc` directly (lines 318-320), and a centre drag reads back the `loc` just written to the stale object (lines 324-326). A whole move does not agree. In the source, `ShapeUpdatePointsOnMoving`'s final setCenter takes the centre branch and copies the stale centre object's old position (lines 324-326), so the circle stays where it was. `CircleSetCenter` reads the moved `points[0]`, so the model's circle moves. Example: `Circle(0,0,10)`, pick the centre, edit to (0,0), save offsets at (50,50), move to (60,60). The source's circle stays at (0,0) and the model's ends at (10,10).
- `BezierCurve.endPoints` and `controlPoints` are not fields, and the aliasing of their point objects with `points` is not modelled. They are only read in the constructor.
- `JSON.parse(JSON.stringify(points))` deep copies are value copies, which is all a sequence of values can be.
- `Shapes.Shape.ShapeUpdatePointsOnMoving` requires a saved offset for every point. Before the first capture `offsets` is null (line 16), and the model reads that as no offsets, so a shape with no points can still move, as in the source, where `points.forEach` over `[]` never reads `offsets`. With fewer offsets than points the source reads `offsets[index]` and throws a TypeError, and that error path is not modelled.
- `Shapes.Canvas.constructor`: a fresh context starts at the identity matrix, which is a modelling choice. The source never gives a context a starting matrix: `ctx.currentTransform` is first written by setShapeTransform (line 117), and reading it before then throws a TypeError at the destructuring on line 121. The model instead maps through the identity.
- `Shapes.Shape.ShapeUpdatePointOnEditing` requires a picked handle (`draggingPoint.Some?`). With nothing picked, the source throws a TypeError at `draggingPoint.x = loc.x` (line 92), and that error path is not modelled.
- `Shapes.Shape.UpdatePointOnEditing` requires a picked handle for every kind except RoundRect, whose override is empty (lines 482-484). The other kinds throw at line 92 in the source when nothing is picked, and that error path is not modelled.
- `Shapes.Shape.RoundRectUpdatePointsOnMoving` requires saved offsets (`offsets.Some?`). Before the first savePointOffset the source throws a TypeError at `this.offsets.forEach` (line 469), and that error path is not modelled.
- `Shapes.Shape.BezierRotate`, `LineRotate`, `PolygonRotate` and `RoundRectRotate` take `radians` as a required argument. The source's default `rotate(radians = 0)` (lines 159, 234, 394, 519) is not modelled: callers pass 0 explicitly.
- `Shapes.Shape.BezierRotate` requires at least four points. With fewer, the source's `rotate` has already set `startRadians` and the matrix, zeroed the centre and shifted the points when `draw` reaches `createCurvePath`. That function destructures `[e1, e2, c1, c2]` and reads `c2.x` (lines 193-197), so it throws a TypeError, and the restore at lines 174-176 never runs. That error path, which leaves the shape half-rotated, is not modelled.
- `Shapes.Shape.PolygonRotate` requires a first point and at least `sides` points. With `sides == 0` the source zeroes the centre (lines 524-525), and `createPolygonPath` then reads `points[0].x` (line 557) and throws before the restore at lines 533-536. That error path is not modelled.
- `Shapes.Shape.Rotate` carries the same two requirements for BezierCurve and Polygon.
- Background `ranges` are integers. Fractional ranges step by 1 in the source and are not modelled.
- `PlaceBackgrounds` and the methods take a `fuel` depth bound for pattern nesting, and nesting deeper than the bound ends with `TooDeep`. The source has no guard: a cyclic pattern recurses until the call stack overflows. The model does not state that enough fuel gives the same writes as more fuel.
- A missing pattern name, where the source's property access throws a TypeError, ends with `UnknownPattern`. The writes made before it remain on the grid.
- `Tiles.Matrix.constructor`: a fresh tile matrix is empty, which is a modelling choice. The `Matrix` and `Level` classes (`src/views/superMario/Class/`) are not part of this model, so both the empty start and `Tiles.Level.constructor`'s fresh, empty grid are assumptions. Nothing else depends on them, because `CreateTiles` is stated for any starting grid.
- `Level` and the tile `Matrix` (`src/views/superMario/Class/`) are not part of this model beyond a map of cells and its `set`. `loadImage`, `loadJson`, `loadSpriteSheet` and `loadLevel` are asynchronous I/O and are left out.
