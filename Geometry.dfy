/**
 * Values shared by every shape of the drawing board: stored handles, the
 * pointer location, drag offsets, the canvas's 2D affine matrix, and the
 * numeric library (sine, cosine, square root, pi) the shapes compute with.
 */
module Geometry {

  datatype Option<+T> = None | Some(value: T)

  /** A location: the pointer position `loc`, a centre, a translation. */
  datatype Vec = Vec(x: real, y: real)

  /** A stored handle `{x, y}`; `isCenter` marks a circle's centre handle. */
  datatype Point = Point(x: real, y: real, isCenter: bool)

  /** `{offsetX, offsetY}`: pointer location minus anchor, captured when a drag starts. */
  datatype Offset = Offset(offsetX: real, offsetY: real)

  /** The canvas matrix `{a, b, c, d, e, f}`, mapping (x, y) to (x*a + y*c + e, x*b + y*d + f). */
  datatype Transform = Transform(a: real, b: real, c: real, d: real, e: real, f: real)

  /**
   * The floating-point library the shapes call (Math.sin, Math.cos,
   * Math.sqrt, Math.PI). It is a parameter of the model: nothing about it is
   * assumed except where a lemma requires one of the laws below.
   */
  datatype MathLib = MathLib(sin: real -> real, cos: real -> real, sqrt: real -> real, pi: real)

  function Sqrt(m: MathLib, v: real): real { m.sqrt(v) }

  function Sin(m: MathLib, t: real): real { m.sin(t) }

  function Cos(m: MathLib, t: real): real { m.cos(t) }

  /** sqrt returns the non-negative square root of a non-negative argument. */
  ghost predicate SqrtLaw(m: MathLib) {
    forall v :: 0.0 <= v ==> 0.0 <= Sqrt(m, v) && Sqrt(m, v) * Sqrt(m, v) == v
  }

  /** sin(t)^2 + cos(t)^2 == 1 for every angle. */
  ghost predicate PythagoreanLaw(m: MathLib) {
    forall t :: Sin(m, t) * Sin(m, t) + Cos(m, t) * Cos(m, t) == 1.0
  }

  /** Number.MAX_VALUE, the largest finite double, 2^1024 - 2^971. */
  const MAX_VALUE: real := 179769313486231570814527423731704356798070567525844996598917476803157260780028538760589558632766878171540458953514382464234321326889464182768467546703537516986049910576551282076245490090389328944075868508455133942304583236903222948165808559332123348274797826204144723168738177180919299881250404026184124858368.0

  /** Number.MIN_VALUE, the smallest POSITIVE double, 2^-1074 (not the most negative one). */
  const MIN_VALUE: real := 1.0 / 202402253307310618352495346718917307049556649764142118356901358027430339567995346891960383701437124495187077864316811911389808737385793476867013399940738509921517424276566361364466907742093216341239767678472745068562007483424692698618103355649159556340810056512358769552333414615230502532186327508646006263307707741093494784.0

  /** Math.pow(v, 2). */
  function Square(v: real): real { v * v }

  /** Math.abs. */
  function Abs(v: real): real { if v < 0.0 then -v else v }

  function Min(a: real, b: real): real { if a <= b then a else b }

  function Max(a: real, b: real): real { if a <= b then b else a }

  function Handle(p: Point): Vec { Vec(p.x, p.y) }

  /** Every point moved by (dx, dy); flags are kept. */
  function Translated(ps: seq<Point>, dx: real, dy: real): seq<Point> {
    seq(|ps|, i requires 0 <= i < |ps| => Point(ps[i].x + dx, ps[i].y + dy, ps[i].isCenter))
  }

  /**
   * The matrix setShapeTransform records for an angle whose sine is `sin` and
   * cosine is `cos`: rotate about the origin, then translate by (tx, ty).
   */
  function RotationAbout(sin: real, cos: real, tx: real, ty: real): Transform {
    Transform(cos, sin, -sin, cos, tx, ty)
  }

  /**
   * getTransformPointToScreenPoint: apply the matrix to a shape-local point,
   * with the translation replaced by `tx` / `ty` when they are given.
   */
  function MapToScreen(t: Transform, x: real, y: real, tx: Option<real>, ty: Option<real>): Vec {
    var e := if tx.Some? then tx.value else t.e;
    var f := if ty.Some? then ty.value else t.f;
    Vec(x * t.a + y * t.c + e, x * t.b + y * t.d + f)
  }

  /** The local origin lands on the translation in force (the override when given). */
  lemma MapOriginIsTranslation(t: Transform, tx: Option<real>, ty: Option<real>)
    ensures MapToScreen(t, 0.0, 0.0, tx, ty)
         == Vec(if tx.Some? then tx.value else t.e, if ty.Some? then ty.value else t.f)
  {
  }

  /** Overriding the translation is the same as mapping through the matrix with e, f replaced. */
  lemma MapOverrideReplacesTranslation(t: Transform, x: real, y: real, tx: real, ty: real)
    ensures MapToScreen(t, x, y, Some(tx), Some(ty)) == MapToScreen(t.(e := tx, f := ty), x, y, None, None)
  {
    var u := t.(e := tx, f := ty);
    assert u.a == t.a && u.b == t.b && u.c == t.c && u.d == t.d && u.e == tx && u.f == ty;
  }

  /**
   * A rotation matrix moves a local point to a screen point whose distance
   * from the translation equals the local point's distance from the origin.
   */
  lemma RotationPreservesDistance(m: MathLib, radians: real, tx: real, ty: real, x: real, y: real)
    requires PythagoreanLaw(m)
    ensures var p := MapToScreen(RotationAbout(Sin(m, radians), Cos(m, radians), tx, ty), x, y, None, None);
            (p.x - tx) * (p.x - tx) + (p.y - ty) * (p.y - ty) == x * x + y * y
  {
    var s, c := Sin(m, radians), Cos(m, radians);
    var p := MapToScreen(RotationAbout(s, c, tx, ty), x, y, None, None);
    assert p.x - tx == x * c - y * s;
    assert p.y - ty == x * s + y * c;
    calc {
      (x * c - y * s) * (x * c - y * s) + (x * s + y * c) * (x * s + y * c);
      x * x * (s * s + c * c) + y * y * (s * s + c * c);
      { assert s * s + c * c == 1.0; }
      x * x + y * y;
    }
  }

  /** With sin 0 == 0 and cos 0 == 1 the recorded matrix is a pure translation. */
  lemma ZeroRotationTranslates(m: MathLib, tx: real, ty: real, x: real, y: real)
    requires Sin(m, 0.0) == 0.0 && Cos(m, 0.0) == 1.0
    ensures MapToScreen(RotationAbout(Sin(m, 0.0), Cos(m, 0.0), tx, ty), x, y, None, None) == Vec(x + tx, y + ty)
  {
  }
}
