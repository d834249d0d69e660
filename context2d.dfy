/** The host's 2D drawing context, seen as a sink that records every call made
    on it. Path and paint calls become commands of a trace; the three style
    properties the drawing routines assign are kept as fields, and they always
    equal what replaying the trace over the context's initial style gives. */
module Context2D {
  import opened JsValues

  /** One call on the drawing context, in the order it was made. Angles of an
      arc are written as multiples of pi radians, so a full turn ends at 2.0. */
  datatype Cmd =
    | BeginPath
    | Arc(x: real, y: real, radius: real, startPi: real, endPi: real, anticlockwise: bool)
    | Rect(x: real, y: real, width: real, height: real)
    | MoveTo(x: real, y: real)
    | LineTo(x: real, y: real)
    | ClosePath
    | SetFill(fill: JsValue)
    | Fill
    | SetLineWidth(lineWidth: JsValue)
    | SetStroke(stroke: JsValue)
    | Stroke
    | ClearRect(x: real, y: real, width: real, height: real)

  /** The context's `fillStyle`, `lineWidth` and `strokeStyle` properties. */
  datatype PaintStyle = PaintStyle(fill: JsValue, lineWidth: JsValue, stroke: JsValue)

  predicate IsStyleCmd(c: Cmd) {
    c.SetFill? || c.SetLineWidth? || c.SetStroke?
  }

  /** The style after one command: only the three property assignments change it. */
  function ApplyStyle(p: PaintStyle, c: Cmd): PaintStyle {
    match c
    case SetFill(v) => p.(fill := v)
    case SetLineWidth(v) => p.(lineWidth := v)
    case SetStroke(v) => p.(stroke := v)
    case _ => p
  }

  /** The style after replaying a whole trace from style `p`. */
  function Replay(p: PaintStyle, t: seq<Cmd>): PaintStyle
    decreases |t|
  {
    if t == [] then p else Replay(ApplyStyle(p, t[0]), t[1..])
  }

  /** Replaying a concatenation is replaying its parts one after the other. */
  lemma {:induction false} ReplayAppend(p: PaintStyle, a: seq<Cmd>, b: seq<Cmd>)
    ensures Replay(p, a + b) == Replay(Replay(p, a), b)
    decreases |a|
  {
    if a != [] {
      assert (a + b)[0] == a[0];
      assert (a + b)[1..] == a[1..] + b;
      ReplayAppend(ApplyStyle(p, a[0]), a[1..], b);
    } else {
      assert a + b == b;
    }
  }

  /** A trace free of style assignments leaves the style as it was. */
  lemma {:induction false} ReplayWithoutStyle(p: PaintStyle, t: seq<Cmd>)
    requires forall i :: 0 <= i < |t| ==> !IsStyleCmd(t[i])
    ensures Replay(p, t) == p
    decreases |t|
  {
    if t != [] {
      assert !IsStyleCmd(t[0]);
      ReplayWithoutStyle(p, t[1..]);
    }
  }

  /** The drawing context of one canvas element. */
  class Context {
    /** Every call made on the context so far. */
    var trace: seq<Cmd>
    var fillStyle: JsValue
    var lineWidth: JsValue
    var strokeStyle: JsValue
    var globalAlpha: JsValue
    var shadowColor: JsValue
    var shadowBlur: JsValue
    var shadowOffsetX: JsValue
    var shadowOffsetY: JsValue
    /** The host's style before any call was recorded. */
    ghost const initialStyle: PaintStyle

    function Style(): PaintStyle
      reads this
    {
      PaintStyle(fillStyle, lineWidth, strokeStyle)
    }

    /** The global settings: alpha, then shadow colour, blur and offsets. */
    function Globals(): (JsValue, JsValue, JsValue, JsValue, JsValue)
      reads this
    {
      (globalAlpha, shadowColor, shadowBlur, shadowOffsetX, shadowOffsetY)
    }

    ghost predicate Valid()
      reads this
    {
      Style() == Replay(initialStyle, trace)
    }

    /** A fresh context with the host's initial style and global settings. */
    constructor (style: PaintStyle, alpha: JsValue, shadowColor: JsValue, shadowBlur: JsValue,
                 shadowOffsetX: JsValue, shadowOffsetY: JsValue)
      ensures Valid()
      ensures trace == [] && Style() == style && initialStyle == style
      ensures globalAlpha == alpha && this.shadowColor == shadowColor && this.shadowBlur == shadowBlur
      ensures this.shadowOffsetX == shadowOffsetX && this.shadowOffsetY == shadowOffsetY
    {
      trace := [];
      fillStyle, lineWidth, strokeStyle := style.fill, style.lineWidth, style.stroke;
      globalAlpha := alpha;
      this.shadowColor, this.shadowBlur := shadowColor, shadowBlur;
      this.shadowOffsetX, this.shadowOffsetY := shadowOffsetX, shadowOffsetY;
      initialStyle := style;
    }

    /** Performs one call: it is appended to the trace, and a style assignment
        updates its property; the global settings are untouched. */
    method Execute(c: Cmd)
      requires Valid()
      modifies this
      ensures Valid()
      ensures trace == old(trace) + [c]
      ensures Style() == ApplyStyle(old(Style()), c)
      ensures Globals() == old(Globals())
    {
      ReplayAppend(initialStyle, trace, [c]);
      match c {
        case SetFill(v) => fillStyle := v;
        case SetLineWidth(v) => lineWidth := v;
        case SetStroke(v) => strokeStyle := v;
        case _ =>
      }
      trace := trace + [c];
    }
  }
}
