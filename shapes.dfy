/** The shape primitives of the canvas object as the traces of context calls
    they make. Each shape begins a path, emits its geometry, then paints:
    fill style, fill, line width, stroke style, stroke. Falsy style arguments
    fall back to cyan fill, line width 2 and black stroke. */
module Shapes {
  import opened JsValues
  import opened Context2D

  /** A position argument `{x, y}`. */
  datatype Point = Point(x: real, y: real)

  /** A `size` argument: a number, or an object with a width and a height. */
  datatype Size = Uniform(side: real) | Box(width: real, height: real)

  /** A size after normalisation. */
  datatype Dims = Dims(width: real, height: real)

  const DefaultFill: JsValue := Str("cyan")
  const DefaultLineWidth: JsValue := Num(2.0)
  const DefaultStroke: JsValue := Str("black")
  /** The end angle of a full circle, 2 pi, as a multiple of pi. */
  const FullTurnPi: real := 2.0

  /** A number `n` stands for `{width: n, height: n}`. */
  function Normalize(size: Size): Dims {
    match size
    case Uniform(n) => Dims(n, n)
    case Box(w, h) => Dims(w, h)
  }

  /** The style a shape paints with: each argument, or its default when the
      argument is falsy. The result is never falsy. */
  function ShapeStyle(color: JsValue, lineWidth: JsValue, strokeStyle: JsValue): (p: PaintStyle)
    ensures Truthy(p.fill) && Truthy(p.lineWidth) && Truthy(p.stroke)
    ensures p.fill == (if Truthy(color) then color else DefaultFill)
    ensures p.lineWidth == (if Truthy(lineWidth) then lineWidth else DefaultLineWidth)
    ensures p.stroke == (if Truthy(strokeStyle) then strokeStyle else DefaultStroke)
  {
    PaintStyle(Or(color, DefaultFill), Or(lineWidth, DefaultLineWidth), Or(strokeStyle, DefaultStroke))
  }

  /** The painting half of every shape, in the order the source issues it. */
  function PaintCmds(p: PaintStyle): seq<Cmd> {
    [SetFill(p.fill), Fill, SetLineWidth(p.lineWidth), SetStroke(p.stroke), Stroke]
  }

  predicate IsGeometry(c: Cmd) {
    c.Arc? || c.Rect? || c.MoveTo? || c.LineTo? || c.ClosePath?
  }

  /** `t` is one shape drawn with style `p`: a `beginPath`, path geometry only,
      then `fillStyle = fill`, `fill()`, `lineWidth = width`,
      `strokeStyle = stroke`, `stroke()`. */
  predicate DrawsShape(t: seq<Cmd>, p: PaintStyle) {
    |t| >= 6 && t[0] == BeginPath &&
    (forall i :: 1 <= i < |t| - 5 ==> IsGeometry(t[i])) &&
    t[|t| - 5] == SetFill(p.fill) && t[|t| - 4] == Fill &&
    t[|t| - 3] == SetLineWidth(p.lineWidth) && t[|t| - 2] == SetStroke(p.stroke) &&
    t[|t| - 1] == Stroke
  }

  /** The path geometry of a drawn shape. */
  function Geometry(t: seq<Cmd>): seq<Cmd>
    requires |t| >= 6
  {
    t[1..|t| - 5]
  }

  /** The points a path visits through `moveTo` and `lineTo`, in order. */
  function Vertices(t: seq<Cmd>): seq<Point>
    decreases |t|
  {
    if t == [] then [] else VertexOf(t[0]) + Vertices(t[1..])
  }

  function VertexOf(c: Cmd): seq<Point> {
    match c
    case MoveTo(x, y) => [Point(x, y)]
    case LineTo(x, y) => [Point(x, y)]
    case _ => []
  }

  /** A shape drawn from its path geometry: `beginPath`, the geometry, then the paint. */
  function ShapeTrace(geometry: seq<Cmd>, p: PaintStyle): seq<Cmd> {
    [BeginPath] + geometry + PaintCmds(p)
  }

  lemma ShapeTraceDraws(geometry: seq<Cmd>, p: PaintStyle)
    requires forall i :: 0 <= i < |geometry| ==> IsGeometry(geometry[i])
    ensures DrawsShape(ShapeTrace(geometry, p), p)
    ensures Geometry(ShapeTrace(geometry, p)) == geometry
  {
    var t := ShapeTrace(geometry, p);
    assert t[1..|t| - 5] == geometry;
    forall i | 1 <= i < |t| - 5
      ensures IsGeometry(t[i])
    {
      assert t[i] == geometry[i - 1];
    }
  }

  /** `addCircle`: one full arc around `pos`, clockwise. */
  function CircleTrace(pos: Point, radius: real, color: JsValue, lineWidth: JsValue,
                       strokeStyle: JsValue): (t: seq<Cmd>)
    ensures DrawsShape(t, ShapeStyle(color, lineWidth, strokeStyle))
    ensures Geometry(t) == [Arc(pos.x, pos.y, radius, 0.0, FullTurnPi, false)]
  {
    var geometry := [Arc(pos.x, pos.y, radius, 0.0, FullTurnPi, false)];
    ShapeTraceDraws(geometry, ShapeStyle(color, lineWidth, strokeStyle));
    ShapeTrace(geometry, ShapeStyle(color, lineWidth, strokeStyle))
  }

  /** The rectangle path of `addSquare`, anchored at `pos`. */
  function SquarePath(pos: Point, size: Size): seq<Cmd> {
    var d := Normalize(size);
    [Rect(pos.x, pos.y, d.width, d.height)]
  }

  /** `addSquare`: one rectangle anchored at `pos`; a number is a square side. */
  function SquareTrace(pos: Point, size: Size, color: JsValue, lineWidth: JsValue,
                       strokeStyle: JsValue): (t: seq<Cmd>)
    ensures DrawsShape(t, ShapeStyle(color, lineWidth, strokeStyle))
    ensures size.Uniform? ==> Geometry(t) == [Rect(pos.x, pos.y, size.side, size.side)]
    ensures size.Box? ==> Geometry(t) == [Rect(pos.x, pos.y, size.width, size.height)]
  {
    ShapeTraceDraws(SquarePath(pos, size), ShapeStyle(color, lineWidth, strokeStyle));
    ShapeTrace(SquarePath(pos, size), ShapeStyle(color, lineWidth, strokeStyle))
  }

  /** The closed path of `addTriangle`: from the apex `pos` to the two base corners. */
  function TrianglePath(pos: Point, size: Size): seq<Cmd> {
    var d := Normalize(size);
    [MoveTo(pos.x, pos.y),
     LineTo(pos.x + d.width / 2.0, pos.y + d.height),
     LineTo(pos.x - d.width / 2.0, pos.y + d.height),
     ClosePath]
  }

  /** `addTriangle`: the triangle path, closed before it is filled. */
  function TriangleTrace(pos: Point, size: Size, color: JsValue, lineWidth: JsValue,
                         strokeStyle: JsValue): (t: seq<Cmd>)
    ensures DrawsShape(t, ShapeStyle(color, lineWidth, strokeStyle))
    ensures var d := Normalize(size);
            Geometry(t) == [MoveTo(pos.x, pos.y),
                            LineTo(pos.x + d.width / 2.0, pos.y + d.height),
                            LineTo(pos.x - d.width / 2.0, pos.y + d.height),
                            ClosePath]
  {
    ShapeTraceDraws(TrianglePath(pos, size), ShapeStyle(color, lineWidth, strokeStyle));
    ShapeTrace(TrianglePath(pos, size), ShapeStyle(color, lineWidth, strokeStyle))
  }

  /** Falsy style arguments, `0` and `''` among them, all take the defaults. */
  lemma FalsyArgumentsTakeDefaults(color: JsValue, lineWidth: JsValue, strokeStyle: JsValue)
    requires !Truthy(color) && !Truthy(lineWidth) && !Truthy(strokeStyle)
    ensures ShapeStyle(color, lineWidth, strokeStyle) == PaintStyle(DefaultFill, DefaultLineWidth, DefaultStroke)
  {
  }

  /** A line width of `0` is drawn as `2`. */
  lemma ZeroLineWidthBecomesTwo(color: JsValue, strokeStyle: JsValue)
    ensures ShapeStyle(color, Num(0.0), strokeStyle).lineWidth == Num(2.0)
  {
  }

  /** A numeric size `n` draws exactly what `{width: n, height: n}` draws. */
  lemma UniformSizeIsBox(pos: Point, n: real, color: JsValue, lineWidth: JsValue, strokeStyle: JsValue)
    ensures SquareTrace(pos, Uniform(n), color, lineWidth, strokeStyle)
         == SquareTrace(pos, Box(n, n), color, lineWidth, strokeStyle)
    ensures TriangleTrace(pos, Uniform(n), color, lineWidth, strokeStyle)
         == TriangleTrace(pos, Box(n, n), color, lineWidth, strokeStyle)
  {
    assert SquarePath(pos, Uniform(n)) == SquarePath(pos, Box(n, n));
    assert TrianglePath(pos, Uniform(n)) == TrianglePath(pos, Box(n, n));
  }

  /** Whatever the style before, drawing a shape leaves the context with the
      style the shape painted with. */
  lemma ShapeLeavesStyle(before: PaintStyle, t: seq<Cmd>, p: PaintStyle)
    requires DrawsShape(t, p)
    ensures Replay(before, t) == p
  {
    var n := |t| - 5;
    assert t == t[..n] + t[n..];
    ReplayAppend(before, t[..n], t[n..]);
    forall i | 0 <= i < n
      ensures !IsStyleCmd(t[..n][i])
    {
      assert i == 0 || IsGeometry(t[i]);
    }
    ReplayWithoutStyle(before, t[..n]);
    assert t[n..] == PaintCmds(p);
    ReplayPaint(before, p);
  }

  /** Painting sets all three style properties, whatever they were. */
  lemma ReplayPaint(before: PaintStyle, p: PaintStyle)
    ensures Replay(before, PaintCmds(p)) == p
  {
    var t := PaintCmds(p);
    assert t[1..][1..][1..][1..][1..] == [];
    calc {
      Replay(before, t);
      Replay(before.(fill := p.fill), t[1..]);
      Replay(before.(fill := p.fill), t[2..]);
      Replay(before.(fill := p.fill, lineWidth := p.lineWidth), t[3..]);
      Replay(p, t[4..]);
      Replay(p, t[5..]);
    }
  }

  lemma {:induction false} VerticesAppend(a: seq<Cmd>, b: seq<Cmd>)
    ensures Vertices(a + b) == Vertices(a) + Vertices(b)
    decreases |a|
  {
    if a == [] {
      assert a + b == b;
    } else {
      assert (a + b)[0] == a[0];
      assert (a + b)[1..] == a[1..] + b;
      VerticesAppend(a[1..], b);
    }
  }

  lemma PaintHasNoVertices(p: PaintStyle)
    ensures Vertices(PaintCmds(p)) == []
  {
    var paint := PaintCmds(p);
    assert paint[4..][1..] == [];
    assert Vertices(paint[4..]) == [];
    assert paint[3..][1..] == paint[4..];
    assert Vertices(paint[3..]) == [];
    assert paint[2..][1..] == paint[3..];
    assert Vertices(paint[2..]) == [];
    assert paint[1..][1..] == paint[2..];
    assert Vertices(paint[1..]) == [];
  }

  lemma TrianglePathVertices(pos: Point, size: Size)
    ensures var d := Normalize(size);
            Vertices(TrianglePath(pos, size))
            == [pos, Point(pos.x + d.width / 2.0, pos.y + d.height), Point(pos.x - d.width / 2.0, pos.y + d.height)]
  {
    var d := Normalize(size);
    var path := TrianglePath(pos, size);
    var v0, v1, v2 := pos, Point(pos.x + d.width / 2.0, pos.y + d.height), Point(pos.x - d.width / 2.0, pos.y + d.height);
    assert path[3..][1..] == [];
    assert Vertices(path[3..]) == [];
    assert path[2..][1..] == path[3..];
    assert Vertices(path[2..]) == [v2];
    assert path[1..][1..] == path[2..];
    assert Vertices(path[1..]) == [v1, v2];
  }

  /** The triangle's vertices are the apex `pos` and the base corners half a
      width to either side, one height below it. */
  lemma TriangleVertices(pos: Point, size: Size, color: JsValue, lineWidth: JsValue, strokeStyle: JsValue)
    ensures var d := Normalize(size);
            Vertices(TriangleTrace(pos, size, color, lineWidth, strokeStyle))
            == [pos, Point(pos.x + d.width / 2.0, pos.y + d.height), Point(pos.x - d.width / 2.0, pos.y + d.height)]
  {
    var d := Normalize(size);
    var path := TrianglePath(pos, size);
    var p := ShapeStyle(color, lineWidth, strokeStyle);
    var t := ([BeginPath] + path) + PaintCmds(p);
    assert TriangleTrace(pos, size, color, lineWidth, strokeStyle) == t;
    assert Vertices(t) == [pos, Point(pos.x + d.width / 2.0, pos.y + d.height), Point(pos.x - d.width / 2.0, pos.y + d.height)] by {
      VerticesAppend([BeginPath] + path, PaintCmds(p));
      VerticesAppend([BeginPath], path);
      PaintHasNoVertices(p);
      TrianglePathVertices(pos, size);
      assert Vertices([BeginPath]) == [] by {
        assert [BeginPath][1..] == [];
      }
    }
  }

  /** The triangle is isosceles: its base is level, centred under the apex,
      and as wide as the normalised width. */
  lemma TriangleIsIsosceles(pos: Point, size: Size, color: JsValue, lineWidth: JsValue, strokeStyle: JsValue)
    ensures var v := Vertices(TriangleTrace(pos, size, color, lineWidth, strokeStyle));
            |v| == 3 && v[0] == pos && v[1].y == v[2].y &&
            v[1].x - v[0].x == v[0].x - v[2].x && v[1].x - v[2].x == Normalize(size).width &&
            v[1].y - v[0].y == Normalize(size).height
  {
    TriangleVertices(pos, size, color, lineWidth, strokeStyle);
  }

  /** With pos (5,5) and size 20 the vertices are (5,5), (15,25) and (-5,25). */
  lemma TriangleExample(color: JsValue, lineWidth: JsValue, strokeStyle: JsValue)
    ensures Vertices(TriangleTrace(Point(5.0, 5.0), Uniform(20.0), color, lineWidth, strokeStyle))
         == [Point(5.0, 5.0), Point(15.0, 25.0), Point(-5.0, 25.0)]
  {
    TriangleVertices(Point(5.0, 5.0), Uniform(20.0), color, lineWidth, strokeStyle);
  }
}
