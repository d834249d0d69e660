/** The animation loop of a canvas as a state machine over values. A tick
    counts a frame, measures the time since the previous tick, runs the
    callback and, while the canvas is animating, asks the host for one more
    frame. Stopping only clears the flag: a frame already requested still
    arrives, ticks once more, and then the chain ends. */
module Animation {

  datatype Option<T> = None | Some(value: T)

  /** The loop fields of a canvas, plus the host's frames still to be delivered
      to it (each one runs a tick) and the number of callback invocations. */
  datatype LoopState = LoopState(
    animating: bool,
    frame: nat,
    timeInterval: int,
    lastTime: Option<int>,
    startTime: Option<int>,
    hasAnim: bool,
    animCalls: nat,
    pending: nat)

  /** What construction leaves: not animating, no frame counted, no interval,
      both timestamps and the callback still undefined, nothing scheduled. */
  function Init(): LoopState {
    LoopState(false, 0, 0, None, None, false, 0, 0)
  }

  /** `this.anim && this.anim()`: the callback runs once if one is set. */
  function Invoke(s: LoopState): LoopState {
    if s.hasAnim then s.(animCalls := s.animCalls + 1) else s
  }

  /** `animationLoop` at clock reading `now`. */
  function Tick(s: LoopState, now: int): LoopState
    requires s.lastTime.Some?
  {
    var t := Invoke(s.(frame := s.frame + 1, timeInterval := now - s.lastTime.value, lastTime := Some(now)));
    if t.animating then t.(pending := t.pending + 1) else t
  }

  /** `setAnim`: stores the callback (present or not); no tick. */
  function SetAnim(s: LoopState, present: bool): LoopState {
    s.(hasAnim := present)
  }

  /** `startAnim`: the clock is read once by `startAnim` (`now`) and once by
      the tick it runs (`tickNow`). */
  function Start(s: LoopState, now: int, tickNow: int): LoopState {
    Tick(Invoke(s.(animating := true, startTime := Some(now), lastTime := Some(now))), tickNow)
  }

  /** `stopAnim`. */
  function Stop(s: LoopState): LoopState {
    s.(animating := false)
  }

  /** The host delivers one requested frame at time `now`; with none left to
      deliver nothing happens. */
  function Fire(s: LoopState, now: int): LoopState
    requires Inv(s)
  {
    if s.pending == 0 then s else Tick(s.(pending := s.pending - 1), now)
  }

  /** The host delivers frames at the successive times of `times`. */
  function FireAll(s: LoopState, times: seq<int>): (r: LoopState)
    requires Inv(s)
    ensures Inv(r)
    decreases |times|
  {
    if times == [] then s
    else
      FireInv(s, times[0]);
      FireAll(Fire(s, times[0]), times[1..])
  }

  /** The invariant of every reachable state: an animating canvas always has
      a frame on its way; a frame is only ever requested after the timestamps
      were set; and a frame has been counted exactly when they are set. */
  predicate Inv(s: LoopState) {
    (s.animating ==> s.pending >= 1) &&
    (s.pending >= 1 ==> s.lastTime.Some?) &&
    (s.startTime.Some? <==> s.lastTime.Some?) &&
    (s.frame == 0 <==> s.lastTime.None?)
  }

  lemma InitInv()
    ensures Inv(Init())
    ensures !Init().animating && Init().frame == 0 && Init().timeInterval == 0
  {
  }

  lemma SetAnimInv(s: LoopState, present: bool)
    requires Inv(s)
    ensures Inv(SetAnim(s, present))
  {
  }

  lemma StartInv(s: LoopState, now: int, tickNow: int)
    requires Inv(s)
    ensures Inv(Start(s, now, tickNow))
  {
  }

  lemma StopInv(s: LoopState)
    requires Inv(s)
    ensures Inv(Stop(s))
  {
  }

  lemma FireInv(s: LoopState, now: int)
    requires Inv(s)
    ensures Inv(Fire(s, now))
  {
  }

  /** A tick counts exactly one frame, measures the interval since the last
      tick and runs the callback once if set; it requests exactly one frame
      when animating and none otherwise, and touches nothing else. */
  lemma TickEffects(s: LoopState, now: int)
    requires s.lastTime.Some?
    ensures var t := Tick(s, now);
            t.frame == s.frame + 1 &&
            t.timeInterval == now - s.lastTime.value && t.lastTime == Some(now) &&
            t.animCalls == s.animCalls + (if s.hasAnim then 1 else 0) &&
            t.pending == s.pending + (if s.animating then 1 else 0) &&
            t.animating == s.animating && t.startTime == s.startTime && t.hasAnim == s.hasAnim
  {
  }

  /** Starting sets the flag and both timestamps, runs the callback directly
      and once more in the tick, counts one frame and leaves one new frame
      requested. */
  lemma StartEffects(s: LoopState, now: int, tickNow: int)
    ensures var t := Start(s, now, tickNow);
            t.animating && t.startTime == Some(now) && t.lastTime == Some(tickNow) &&
            t.timeInterval == tickNow - now &&
            t.frame == s.frame + 1 &&
            t.animCalls == s.animCalls + (if s.hasAnim then 2 else 0) &&
            t.pending == s.pending + 1 && t.hasAnim == s.hasAnim
  {
  }

  /** Stopping only clears the flag, and stopping twice is stopping once. */
  lemma StopEffects(s: LoopState)
    ensures Stop(s) == s.(animating := false)
    ensures Stop(Stop(s)) == Stop(s)
  {
  }

  /** While the canvas keeps animating, every delivered frame requests the
      next one: the number of frames in flight never changes and each frame
      is counted. */
  lemma {:induction false} RunningChainPersists(s: LoopState, times: seq<int>)
    requires Inv(s) && s.animating
    ensures var r := FireAll(s, times);
            r.animating && r.pending == s.pending && r.frame == s.frame + |times| &&
            r.animCalls == s.animCalls + (if s.hasAnim then |times| else 0)
    decreases |times|
  {
    if times != [] {
      RunningChainPersists(Fire(s, times[0]), times[1..]);
    }
  }

  function Min(a: nat, b: nat): nat {
    if a <= b then a else b
  }

  /** Once stopped, each frame still in flight is delivered and ticks once
      (running the callback), but requests no successor: after `k` deliveries
      `min(k, pending)` frames were counted and the rest remain in flight. */
  lemma {:induction false} StoppedChainDrains(s: LoopState, times: seq<int>)
    requires Inv(s) && !s.animating
    ensures var r := FireAll(s, times);
            var fired := Min(|times|, s.pending);
            !r.animating && r.pending == s.pending - fired && r.frame == s.frame + fired &&
            r.animCalls == s.animCalls + (if s.hasAnim then fired else 0)
    decreases |times|
  {
    if times != [] {
      StoppedChainDrains(Fire(s, times[0]), times[1..]);
    }
  }

  /** Once the stopped chain has drained, further frames change nothing. */
  lemma {:induction false} DrainedStaysQuiet(s: LoopState, times: seq<int>)
    requires Inv(s) && !s.animating && s.pending == 0
    ensures FireAll(s, times) == s
    decreases |times|
  {
    if times != [] {
      DrainedStaysQuiet(Fire(s, times[0]), times[1..]);
    }
  }

  /** `startAnim` then `stopAnim` from a quiet canvas: the callback has run
      twice already, and exactly one more tick follows, however many times
      the host is given afterwards. */
  lemma StartThenStop(s: LoopState, now: int, tickNow: int, times: seq<int>)
    requires Inv(s) && s.pending == 0 && |times| >= 1
    ensures var stopped := Stop(Start(s, now, tickNow));
            var r := FireAll(stopped, times);
            !stopped.animating && stopped.animCalls == s.animCalls + (if s.hasAnim then 2 else 0) &&
            r.pending == 0 && r.frame == s.frame + 2 &&
            r.animCalls == s.animCalls + (if s.hasAnim then 3 else 0)
  {
    StartInv(s, now, tickNow);
    StopInv(Start(s, now, tickNow));
    StoppedChainDrains(Stop(Start(s, now, tickNow)), times);
  }

  /** Nothing guards against starting twice: a second `startAnim` while the
      first chain is still running leaves two frames in flight, and both
      chains keep going. */
  lemma StartTwiceRunsTwoChains(s: LoopState, n1: int, t1: int, n2: int, t2: int, times: seq<int>)
    requires Inv(s) && s.pending == 0
    ensures var twice := Start(Start(s, n1, t1), n2, t2);
            twice.pending == 2 && FireAll(twice, times).pending == 2 &&
            FireAll(twice, times).frame == s.frame + 2 + |times|
  {
    StartInv(s, n1, t1);
    StartInv(Start(s, n1, t1), n2, t2);
    RunningChainPersists(Start(Start(s, n1, t1), n2, t2), times);
  }

  predicate NonDecreasing(times: seq<int>) {
    forall i, j :: 0 <= i < j < |times| ==> times[i] <= times[j]
  }

  /** With a clock that never runs backwards, every measured interval is
      non-negative and the last tick time never decreases. */
  lemma {:induction false} MonotoneClockIntervals(s: LoopState, times: seq<int>)
    requires Inv(s) && s.lastTime.Some? && s.timeInterval >= 0
    requires NonDecreasing(times)
    requires forall i :: 0 <= i < |times| ==> s.lastTime.value <= times[i]
    ensures var r := FireAll(s, times);
            r.lastTime.Some? && r.timeInterval >= 0 && s.lastTime.value <= r.lastTime.value
    decreases |times|
  {
    if times != [] {
      var next := Fire(s, times[0]);
      assert next.lastTime.Some? && next.timeInterval >= 0;
      assert forall i :: 0 <= i < |times[1..]| ==> next.lastTime.value <= times[1..][i] by {
        forall i | 0 <= i < |times[1..]|
          ensures next.lastTime.value <= times[1..][i]
        {
          assert times[1..][i] == times[i + 1];
          assert times[0] <= times[i + 1];
        }
      }
      MonotoneClockIntervals(next, times[1..]);
    }
  }

  /** Started with a clock read no earlier than the previous one, the first
      interval is non-negative. */
  lemma StartIntervalNonNegative(s: LoopState, now: int, tickNow: int)
    requires now <= tickNow
    ensures Start(s, now, tickNow).timeInterval >= 0
    ensures Start(s, now, tickNow).startTime.value <= Start(s, now, tickNow).lastTime.value
  {
  }
}
