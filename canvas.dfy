/** The canvas object: the state bound to one canvas element, its shape
    primitives (which drive the element's drawing context) and its animation
    loop (which drives the host's frame scheduler). */
module JqueryCanvas {
  import opened JsValues
  import opened Context2D
  import opened Shapes
  import opened Animation

  /** The global configuration a canvas is created with. */
  datatype Options = Options(alpha: JsValue, shadowBlur: JsValue, shadowColor: JsValue,
                             shadowOffsetX: JsValue, shadowOffsetY: JsValue)

  /** The plugin's documented default configuration. */
  const DefaultOptions := Options(Num(1.0), Num(0.0), Str("gray"), Num(0.0), Num(0.0))

  /** A canvas element of the host page: its size and its one 2D context. */
  class Element {
    var width: nat
    var height: nat
    const context: Context

    constructor (width: nat, height: nat, context: Context)
      ensures this.width == width && this.height == height && this.context == context
    {
      this.width, this.height, this.context := width, height, context;
    }
  }

  class Canvas {
    const canvas: Element
    const context: Context
    var animating: bool
    var width: nat
    var height: nat
    var timeInterval: int
    var frame: nat
    const options: Options
    /** Undefined (None) until the first `startAnim`. */
    var lastTime: Option<int>
    var startTime: Option<int>
    /** The animation callback; only its truthiness matters to the loop. */
    var anim: JsValue
    /** How many times the callback has run. */
    var animCalls: nat
    /** Frames requested from the host and not yet delivered. */
    var pending: nat

    /** The loop fields as a value of the state machine. */
    function State(): LoopState
      reads this
    {
      LoopState(animating, frame, timeInterval, lastTime, startTime, Truthy(anim), animCalls, pending)
    }

    ghost predicate Wired()
      reads this, context
    {
      context == canvas.context && context.Valid()
    }

    ghost predicate Valid()
      reads this, context
    {
      Wired() && Inv(State())
    }

    /** `new Canvas(element, options)`: takes the element's context and size,
        starts stopped with no frame counted, and writes the global alpha and
        shadow settings into the context. */
    constructor (element: Element, options: Options)
      requires element.context.Valid()
      modifies element.context
      ensures Valid()
      ensures canvas == element && context == element.context && this.options == options
      ensures width == element.width && height == element.height
      ensures State() == Init() && anim == Undefined
      ensures context.Globals() == (options.alpha, options.shadowColor, options.shadowBlur,
                                    options.shadowOffsetX, options.shadowOffsetY)
      ensures context.trace == old(element.context.trace) && context.Style() == old(element.context.Style())
    {
      canvas := element;
      context := element.context;
      animating := false;
      width, height := element.width, element.height;
      timeInterval, frame := 0, 0;
      this.options := options;
      lastTime, startTime := None, None;
      anim, animCalls, pending := Undefined, 0, 0;
      new;
      context.globalAlpha := options.alpha;
      context.shadowColor := options.shadowColor;
      context.shadowBlur := options.shadowBlur;
      context.shadowOffsetX := options.shadowOffsetX;
      context.shadowOffsetY := options.shadowOffsetY;
    }

    /** The painting steps every shape ends with: fill style (or cyan), fill,
        line width (or 2), stroke style (or black), stroke. A helper shared by
        `AddCircle`, `AddSquare` and `AddTriangle`. */
    method Paint(color: JsValue, lineWidth: JsValue, strokeStyle: JsValue)
      requires Valid()
      modifies context
      ensures Valid()
      ensures context.trace == old(context.trace) + PaintCmds(ShapeStyle(color, lineWidth, strokeStyle))
      ensures context.Style() == ShapeStyle(color, lineWidth, strokeStyle)
      ensures context.Globals() == old(context.Globals())
    {
      context.Execute(SetFill(Or(color, DefaultFill)));
      context.Execute(Fill);
      context.Execute(SetLineWidth(Or(lineWidth, DefaultLineWidth)));
      context.Execute(SetStroke(Or(strokeStyle, DefaultStroke)));
      context.Execute(Stroke);
    }

    /** `addCircle`: records the circle on the context and leaves the
        context's style at the circle's. */
    method AddCircle(pos: Point, size: real, color: JsValue, lineWidth: JsValue, strokeStyle: JsValue)
      returns (self: Canvas)
      requires Valid()
      modifies context
      ensures Valid() && self == this
      ensures context.trace == old(context.trace) + CircleTrace(pos, size, color, lineWidth, strokeStyle)
      ensures context.Style() == ShapeStyle(color, lineWidth, strokeStyle)
      ensures context.Globals() == old(context.Globals())
    {
      context.Execute(BeginPath);
      context.Execute(Arc(pos.x, pos.y, size, 0.0, FullTurnPi, false));
      ghost var drawn := context.trace;
      Paint(color, lineWidth, strokeStyle);
      assert context.trace == drawn + PaintCmds(ShapeStyle(color, lineWidth, strokeStyle));
      self := this;
    }

    /** `addSquare`: records the rectangle on the context. */
    method AddSquare(pos: Point, size: Size, color: JsValue, lineWidth: JsValue, strokeStyle: JsValue)
      returns (self: Canvas)
      requires Valid()
      modifies context
      ensures Valid() && self == this
      ensures context.trace == old(context.trace) + SquareTrace(pos, size, color, lineWidth, strokeStyle)
      ensures context.Style() == ShapeStyle(color, lineWidth, strokeStyle)
      ensures context.Globals() == old(context.Globals())
    {
      var d := Normalize(size);
      context.Execute(BeginPath);
      context.Execute(Rect(pos.x, pos.y, d.width, d.height));
      assert context.trace == old(context.trace) + ([BeginPath] + SquarePath(pos, size));
      ghost var drawn := context.trace;
      Paint(color, lineWidth, strokeStyle);
      assert context.trace == drawn + PaintCmds(ShapeStyle(color, lineWidth, strokeStyle));
      assert SquareTrace(pos, size, color, lineWidth, strokeStyle)
          == ([BeginPath] + SquarePath(pos, size)) + PaintCmds(ShapeStyle(color, lineWidth, strokeStyle));
      self := this;
    }

    /** `addTriangle`: records the triangle on the context; unlike the other
        methods it returns nothing. */
    method AddTriangle(pos: Point, size: Size, color: JsValue, lineWidth: JsValue, strokeStyle: JsValue)
      requires Valid()
      modifies context
      ensures Valid()
      ensures context.trace == old(context.trace) + TriangleTrace(pos, size, color, lineWidth, strokeStyle)
      ensures context.Style() == ShapeStyle(color, lineWidth, strokeStyle)
      ensures context.Globals() == old(context.Globals())
    {
      var d := Normalize(size);
      context.Execute(BeginPath);
      context.Execute(MoveTo(pos.x, pos.y));
      context.Execute(LineTo(pos.x + d.width / 2.0, pos.y + d.height));
      context.Execute(LineTo(pos.x - d.width / 2.0, pos.y + d.height));
      context.Execute(ClosePath);
      assert context.trace == old(context.trace) + ([BeginPath] + TrianglePath(pos, size));
      ghost var drawn := context.trace;
      Paint(color, lineWidth, strokeStyle);
      assert context.trace == drawn + PaintCmds(ShapeStyle(color, lineWidth, strokeStyle));
      assert TriangleTrace(pos, size, color, lineWidth, strokeStyle)
          == ([BeginPath] + TrianglePath(pos, size)) + PaintCmds(ShapeStyle(color, lineWidth, strokeStyle));
    }

    /** `animationLoop`, run with clock reading `now`: one tick. Only the
        frame scheduled by a tick or by `startAnim` runs it, so the last tick
        time is always defined here. */
    method AnimationLoop(now: int) returns (self: Canvas)
      requires Wired() && lastTime.Some?
      modifies this`frame, this`timeInterval, this`lastTime, this`animCalls, this`pending
      ensures Wired() && self == this
      ensures State() == Tick(old(State()), now)
    {
      frame := frame + 1;
      timeInterval := now - lastTime.value;
      lastTime := Some(now);
      if Truthy(anim) {
        animCalls := animCalls + 1;
      }
      if animating {
        pending := pending + 1;
      }
      self := this;
    }

    /** `setAnim`: stores the callback; no tick runs. */
    method SetAnim(func: JsValue) returns (self: Canvas)
      requires Valid()
      modifies this`anim
      ensures Valid() && self == this && anim == func
      ensures State() == Animation.SetAnim(old(State()), Truthy(func))
    {
      anim := func;
      SetAnimInv(old(State()), Truthy(func));
      self := this;
    }

    /** `clear`: erases the element's whole current area; the loop state is
        untouched. */
    method Clear() returns (self: Canvas)
      requires Valid()
      modifies context
      ensures Valid() && self == this
      ensures context.trace == old(context.trace) + [ClearRect(0.0, 0.0, canvas.width as real, canvas.height as real)]
      ensures context.Style() == old(context.Style()) && context.Globals() == old(context.Globals())
      ensures State() == old(State())
    {
      context.Execute(ClearRect(0.0, 0.0, canvas.width as real, canvas.height as real));
      self := this;
    }

    /** `startAnim`: `now` is the clock reading of `startAnim` itself and
        `tickNow` that of the tick it runs synchronously. */
    method StartAnim(now: int, tickNow: int) returns (self: Canvas)
      requires Valid()
      modifies this`animating, this`startTime, this`frame, this`timeInterval, this`lastTime,
               this`animCalls, this`pending
      ensures Valid() && self == this
      ensures State() == Start(old(State()), now, tickNow)
    {
      ghost var before := State();
      animating := true;
      startTime := Some(now);
      lastTime := startTime;
      if Truthy(anim) {
        animCalls := animCalls + 1;
      }
      var _ := AnimationLoop(tickNow);
      StartInv(before, now, tickNow);
      self := this;
    }

    /** `stopAnim`: clears the flag, nothing else; frames in flight stay. */
    method StopAnim() returns (self: Canvas)
      requires Valid()
      modifies this`animating
      ensures Valid() && self == this
      ensures State() == Stop(old(State()))
    {
      animating := false;
      StopInv(old(State()));
      self := this;
    }

    /** The host delivers one requested frame at time `now`, which runs
        `animationLoop`; with no frame in flight there is nothing to deliver. */
    method FireFrame(now: int)
      requires Valid()
      modifies this`frame, this`timeInterval, this`lastTime, this`animCalls, this`pending
      ensures Valid()
      ensures State() == Fire(old(State()), now)
    {
      ghost var before := State();
      if pending > 0 {
        pending := pending - 1;
        var _ := AnimationLoop(now);
      }
      FireInv(before, now);
    }
  }

  /** A client run: start, stop, and then the host delivers frames. */
  method StartStopScenario(ctx: Context)
    requires ctx.Valid()
    modifies ctx
  {
    var element := new Element(300, 150, ctx);
    var c := new Canvas(element, DefaultOptions);
    var self := c.SetAnim(Obj(1));
    var _ := c.StartAnim(1000, 1000);
    assert c.animCalls == 2 && c.frame == 1 && c.pending == 1;
    var _ := c.StopAnim();
    c.FireFrame(1016);
    assert c.animCalls == 3 && c.frame == 2 && c.pending == 0 && c.timeInterval == 16;
    c.FireFrame(1033);
    assert c.animCalls == 3 && c.frame == 2;
    var _ := c.Clear();
    assert ctx.trace[|ctx.trace| - 1] == ClearRect(0.0, 0.0, 300.0, 150.0);
  }
}
