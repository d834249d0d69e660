# jquery.canvas: the Canvas object, modelled in Dafny

`jquery.canvas` binds a `Canvas` object to an HTML canvas element. The object
offers three shape primitives (`addCircle`, `addSquare`, `addTriangle`),
`clear`, and an animation loop (`setAnim`, `startAnim`, `stopAnim`, and the
internal `animationLoop` that the host's animation-frame scheduler calls).

The model has five modules:

- `JsValues` (js_values.dfy): the JavaScript values an optional argument can
  take, JavaScript truthiness, and the `a || b` operator the primitives use to
  supply defaults.
- `Context2D` (context2d.dfy): the element's 2D drawing context as a recording
  sink. Every call becomes a `Cmd` appended to `trace`. The three style
  properties the primitives assign (`fillStyle`, `lineWidth`, `strokeStyle`)
  are fields, and `Valid()` ties them to a replay of the trace. The global
  alpha and shadow settings are fields as well.
- `Shapes` (shapes.dfy): the exact command trace of each primitive as a pure
  function, and lemmas about those traces. Each trace is a `beginPath`, then
  geometry only, then `fillStyle`, `fill`, `lineWidth`, `strokeStyle`,
  `stroke`. Falsy style arguments take the defaults `'cyan'`, `2` and
  `'black'`. A numeric size equals `{width: n, height: n}`. The triangle's
  vertices are the apex and two base corners, placed half a width to either
  side and one height below.
- `Animation` (animation.dfy): the loop fields as a value (`LoopState`) and
  the loop's operations as functions on it (`Tick`, `Start`, `Stop`,
  `SetAnim`, and `Fire` for the host delivering a frame). It also holds an
  invariant of the reachable states and lemmas about runs of many frames.
- `JqueryCanvas` (canvas.dfy): the `Canvas` class. Its fields are those of the
  source object, plus `animCalls` (how often the callback ran) and `pending`
  (frames requested from the host and not yet delivered). Its methods change
  those fields and the context step by step, as the source does. Each method's
  postcondition ties the new state to the matching function of `Shapes` or
  `Animation`. `FireFrame(now)` is the host side: it delivers one requested
  frame, which runs `animationLoop`.

The host clock (`new Date().getTime()`) is a `now` argument. `startAnim`
reads the clock twice: once itself (`now`) and once in the tick it runs
synchronously (`tickNow`). The callback is a `JsValue`. Only its truthiness
matters, because the source calls it as `this.anim && this.anim()`. Each call
increments `animCalls`. Arc angles are multiples of pi, so the full circle's
end angle `2 * Math.PI` is `2.0`.

Behaviour of the code that the model keeps as written:

- `startAnim` calls the callback directly and then runs a whole tick before
  returning. So the callback runs twice, one frame is counted, and one frame
  is requested.
- `stopAnim` cancels nothing. A frame already requested still arrives. It
  counts a frame and runs the callback, but it requests no successor.
- The code does not guard `startAnim` when the loop is already running. A
  second start adds a second chain of frames.
- While the callback does not throw, `animating` implies that a frame is in flight (`Animation.Inv`). The
  converse fails right after a stop.
- `addTriangle` returns nothing. All the other methods return the canvas
  (`self == this`).

## Model

| member | source | states |
|---|---|---|
| JsValues.Or | src/jquery.canvas.js:99-102 | `a \|\| b` is one of its operands; it is truthy iff either operand is; the left operand is kept exactly when it is truthy |
| JsValues.OrWithTruthyDefault | src/jquery.canvas.js:99-102 | with a truthy default the result is never falsy, and it equals the argument iff the argument is truthy (or already the default) |
| Context2D.Context.Execute | src/jquery.canvas.js:97-103 | a context call is appended to the trace; style assignments update their property; global settings are unchanged; the style stays equal to the replay of the trace |
| Shapes.ShapeStyle | src/jquery.canvas.js:99-102 | the painted fill, line width and stroke are each the argument if truthy and otherwise `'cyan'`, `2`, `'black'`; none is ever falsy |
| Shapes.CircleTrace | src/jquery.canvas.js:96-106 | the circle is `beginPath`, a single `arc(x, y, size, 0, 2pi, false)`, then the paint steps in the fixed order with the defaulted style |
| Shapes.SquareTrace | src/jquery.canvas.js:123-134 | the square is `beginPath`, one `rect` at `pos` whose sides are `n, n` for a number and `width, height` for an object, then the paint steps in order |
| Shapes.TriangleTrace | src/jquery.canvas.js:151-163 | the triangle is `beginPath`, then exactly `moveTo(x, y)`, `lineTo(x + w/2, y + h)`, `lineTo(x - w/2, y + h)`, `closePath` with the normalised size (closed before the fill), then the paint steps in order |
| Shapes.FalsyArgumentsTakeDefaults | src/jquery.canvas.js:127-130 | falsy colour, line width and stroke arguments give exactly the style (`'cyan'`, `2`, `'black'`) |
| Shapes.ZeroLineWidthBecomesTwo | src/jquery.canvas.js:129 | a line width of `0` is drawn as `2` |
| Shapes.UniformSizeIsBox | src/jquery.canvas.js:124 | for square and triangle a numeric size `n` gives the same trace as `{width: n, height: n}` |
| Shapes.ShapeLeavesStyle | src/jquery.canvas.js:153-162 | whatever the context style before, drawing any shape leaves it at the style the shape painted with |
| Shapes.TriangleVertices | src/jquery.canvas.js:154-157 | the triangle path visits `(x, y)`, `(x + w/2, y + h)`, `(x - w/2, y + h)` with the normalised size |
| Shapes.TriangleIsIsosceles | src/jquery.canvas.js:154-157 | the base is level, centred under the apex, exactly `w` wide and `h` below the apex |
| Shapes.TriangleExample | src/jquery.canvas.js:145 | with pos (5,5) and size 20 the vertices are (5,5), (15,25), (-5,25) |
| Animation.InitInv | src/jquery.canvas.js:39-57 | the initial loop state is not animating, has frame 0 and interval 0, and satisfies the reachable-state invariant |
| Animation.SetAnimInv | src/jquery.canvas.js:195-198 | storing a callback keeps the invariant |
| Animation.StartInv | src/jquery.canvas.js:216-225 | starting keeps the invariant |
| Animation.StopInv | src/jquery.canvas.js:232-235 | stopping keeps the invariant |
| Animation.FireInv | src/jquery.canvas.js:179-183 | delivering a frame keeps the invariant |
| Animation.TickEffects | src/jquery.canvas.js:170-186 | a tick adds exactly 1 to the frame count, sets the interval to `now - lastTime` and `lastTime` to `now`, runs the callback once if set, requests one frame iff animating, and changes nothing else |
| Animation.StartEffects | src/jquery.canvas.js:216-225 | start sets the flag and `startTime`, runs the callback twice, counts one frame, requests exactly one new frame, and measures `tickNow - now` |
| Animation.StopEffects | src/jquery.canvas.js:232-235 | stop only clears the flag and is idempotent |
| Animation.RunningChainPersists | src/jquery.canvas.js:179-183 | while animating, any run of deliveries keeps the number of frames in flight, counts one frame per delivery, and runs the callback once per delivery |
| Animation.StoppedChainDrains | src/jquery.canvas.js:179-183 | once stopped, `k` deliveries tick `min(k, pending)` times, request nothing, and leave the rest in flight |
| Animation.DrainedStaysQuiet | src/jquery.canvas.js:179-183 | a stopped loop with nothing in flight never changes again |
| Animation.StartThenStop | src/jquery.canvas.js:216-235 | start then stop on a quiet canvas: the callback has already run twice, and exactly one more tick (a third call) then follows, after which nothing is in flight |
| Animation.StartTwiceRunsTwoChains | src/jquery.canvas.js:216-224 | starting twice leaves two frames in flight, and both chains go on counting frames |
| Animation.MonotoneClockIntervals | src/jquery.canvas.js:174-176 | with clock readings that never decrease, every measured interval stays non-negative and `lastTime` never decreases |
| Animation.StartIntervalNonNegative | src/jquery.canvas.js:218-223 | if the tick's clock reading is not earlier than start's, the first interval is non-negative |
| JqueryCanvas.Canvas.constructor | src/jquery.canvas.js:21-67 | the canvas takes the element's context, width and height; it starts not animating with frame 0, interval 0, no timestamps and no callback; the context's alpha and shadow settings come from the options; no drawing happens |
| JqueryCanvas.Canvas.Paint | src/jquery.canvas.js:99-103 | the shared paint steps append exactly fill style (argument or `'cyan'`), fill, line width (argument or `2`), stroke style (argument or `'black'`), stroke; the context style becomes that style and the globals are unchanged |
| JqueryCanvas.Canvas.AddCircle | src/jquery.canvas.js:96-106 | appends exactly the circle trace, leaves the circle's style and the global settings, and returns the canvas |
| JqueryCanvas.Canvas.AddSquare | src/jquery.canvas.js:123-134 | appends exactly the square trace, leaves its style and the global settings, and returns the canvas |
| JqueryCanvas.Canvas.AddTriangle | src/jquery.canvas.js:151-163 | appends exactly the triangle trace, leaves its style and the global settings, and returns nothing |
| JqueryCanvas.Canvas.AnimationLoop | src/jquery.canvas.js:170-186 | the loop fields become `Tick` of the old ones (only the frame, interval, last-time, callback-count and requested-frame fields may change), and the method returns the canvas |
| JqueryCanvas.Canvas.SetAnim | src/jquery.canvas.js:195-198 | stores the callback, runs no tick, and returns the canvas |
| JqueryCanvas.Canvas.Clear | src/jquery.canvas.js:205-208 | appends exactly `clearRect(0, 0, element width, element height)`, leaves the style and the loop state unchanged, and returns the canvas |
| JqueryCanvas.Canvas.StartAnim | src/jquery.canvas.js:216-225 | the loop fields become `Start` of the old ones, the invariant is kept, and the method returns the canvas |
| JqueryCanvas.Canvas.StopAnim | src/jquery.canvas.js:232-235 | only `animating` changes, to false; frames in flight stay; returns the canvas |
| JqueryCanvas.Canvas.FireFrame | src/jquery.canvas.js:180-182 | the host delivers one requested frame, which runs one tick; the loop fields become `Fire` of the old ones |

## Left out

- The choice of the host scheduling primitive (`requestAnimationFrame`, its vendor-prefixed names, or the 60-per-second `setTimeout` fallback written into `window.AnimationFrame`, src/jquery.canvas.js:69-79) is not modelled. The host becomes a per-canvas count of requested frames (`pending`), and `FireFrame` delivers them one at a time.
- How frames of different canvases interleave is not modelled. Neither is the delay before a frame arrives. `FireFrame` with no frame in flight does nothing.
- JqueryCanvas.Canvas.AnimationLoop: requires `lastTime` to be defined (and so does `Animation.Tick`). In the source, a tick before any `startAnim` would compute a `NaN` interval. No caller inside the object can reach that: `startAnim` sets `lastTime` before its tick, and a requested frame exists only after a start (`Animation.Inv`).
- The clock (`new Date().getTime()`) is not modelled. Its readings are the `now`/`tickNow` arguments.
- Rendering is not modelled. The context only records calls. The canvas API's own treatment of values is left out: it ignores a non-positive or non-numeric `lineWidth` or an unparsable colour, and `arc` throws on a negative radius. The trace records the value that was assigned.
- Numbers are Dafny reals. Floating-point rounding, and `NaN` or `Infinity` as coordinates or sizes, are not modelled. `Math.PI` stays symbolic, with angles written as multiples of pi.
- A `size` that is neither a number nor an object with numeric `width` and `height` is not modelled (for example a string, or an object missing a field, which yields `NaN` geometry).
- The callback only counts its calls. Its own effects are not modelled: drawing, calling `stopAnim` or `setAnim` from inside the callback, or throwing. A throw would end the frame chain. Calling a truthy value that is not a function, which throws, is also left out.
- The jQuery plugin glue (src/jquery.canvas.js:250-284) is not modelled: `$.fn.canvas`, option merging with `$.extend`, attaching with `$.data`, and the "requires a canvas element" error. Its documented defaults are kept as the constant `JqueryCanvas.DefaultOptions`.
- The frame counter is an unbounded `nat`. JavaScript number precision past 2^53 is not modelled.
- test/jquery.canvas_test.js only checks that the plugin call chains and that the methods exist. The methods' `self == this` results cover chaining.
