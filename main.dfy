/** The frame loop: a fixed-step accumulator that runs the simulation at
    the tick rate whatever the display rate, and a once-a-second policy
    that trades render resolution for frame rate. */
module GameLoop {
  import opened Js

  /** The frame rate the resolution policy aims for. */
  const TargetFps: real := 35.0
  /** Above `TargetFps + FpsHeadroom` the resolution is raised again. */
  const FpsHeadroom: real := 5.0
  const ScaleMin: real := 0.25
  const ScaleMax: real := 1.0
  const ScaleStep: real := 0.05
  /** The length of one measurement window, in milliseconds. */
  const AdaptWindow: real := 1000.0
  /** The longest frame time the accumulator takes in, in seconds. */
  const MaxFrameTime: real := 0.1

  // ---------------------------------------------------------------------
  // The resolution policy
  // ---------------------------------------------------------------------

  /** The render scale after a window measured at `fps`: one step down
      when too slow, one step up when comfortably fast, clamped to the
      allowed range, else unchanged. */
  function Rescale(scale: real, fps: real): (r: real)
    ensures r < scale ==> fps < TargetFps
    ensures r > scale ==> fps > TargetFps + FpsHeadroom
    ensures r != scale <==> (fps < TargetFps && scale > ScaleMin) || (fps > TargetFps + FpsHeadroom && scale < ScaleMax)
    ensures scale - ScaleStep <= r <= scale + ScaleStep
    ensures ScaleMin <= scale <= ScaleMax ==> ScaleMin <= r <= ScaleMax
  {
    if fps < TargetFps && scale > ScaleMin then MaxR(ScaleMin, scale - ScaleStep)
    else if fps > TargetFps + FpsHeadroom && scale < ScaleMax then MinR(ScaleMax, scale + ScaleStep)
    else scale
  }

  /** A slower window never leaves a higher scale than a faster one. */
  lemma {:induction false} RescaleMonotone(scale: real, fps1: real, fps2: real)
    requires fps1 <= fps2
    ensures Rescale(scale, fps1) <= Rescale(scale, fps2)
  {
    if fps1 < TargetFps && scale > ScaleMin {
      assert Rescale(scale, fps1) < scale;
    } else if fps2 > TargetFps + FpsHeadroom && scale < ScaleMax {
      assert Rescale(scale, fps2) > scale;
    }
  }

  /** The canvas side for a window side: `floor(inner * scale)`. */
  function CanvasSide(inner: real, scale: real): (n: nat)
    requires inner >= 0.0 && scale >= 0.0
    ensures n as real <= inner * scale < n as real + 1.0
  {
    MulNonNeg(inner, scale);
    Floor(inner * scale)
  }

  /** A smaller scale never gives a larger canvas. */
  lemma CanvasSideMonotone(inner: real, s1: real, s2: real)
    requires inner >= 0.0 && 0.0 <= s1 <= s2
    ensures CanvasSide(inner, s1) <= CanvasSide(inner, s2)
  {
    MulNonNeg(inner, s2 - s1);
    FloorMono(inner * s1, inner * s2);
  }

  // ---------------------------------------------------------------------
  // The fixed-step accumulator
  // ---------------------------------------------------------------------

  /** The frame time the accumulator takes in, in seconds, capped. */
  function FrameTime(now: real, last: real): (dt: real)
    ensures dt <= MaxFrameTime
    ensures (now - last) / 1000.0 <= MaxFrameTime ==> dt == (now - last) / 1000.0
  {
    MinR((now - last) / 1000.0, MaxFrameTime)
  }

  /** `ticks` steps of `rate` were drained from `acc`, leaving `rest`:
      what remains is below one step, and not negative when a step ran. */
  predicate Drained(acc: real, rate: real, ticks: nat, rest: real)
  {
    && rest == acc - ticks as real * rate
    && rest < rate
    && (ticks > 0 ==> rest >= 0.0)
  }

  /** The number of whole steps in an accumulator: none below one step,
      else the quotient rounded down. */
  function Steps(acc: real, rate: real): nat
    requires rate > 0.0
  {
    if acc < rate then 0 else
      assert 1.0 <= acc / rate by {
        DivBounds(acc, rate, 1.0);
      }
      Floor(acc / rate)
  }

  /** A drain is determined by the amount drained: it runs `Steps`
      steps, so any two drains of the same amount agree. */
  lemma DrainedSteps(acc: real, rate: real, ticks: nat, rest: real)
    requires rate > 0.0 && Drained(acc, rate, ticks, rest)
    ensures ticks == Steps(acc, rate)
    ensures rest == acc - Steps(acc, rate) as real * rate
  {
    if ticks > 0 {
      var t := ticks as real;
      assert acc >= rate by {
        MulNonNeg(t - 1.0, rate);
      }
      DivBounds(acc, rate, t);
      assert acc < (t + 1.0) * rate;
      DivBounds(acc, rate, t + 1.0);
    }
  }

  /** With the carry from the last frame below one step and a frame time
      capped at `MaxFrameTime`, a frame runs fewer steps than fit in one
      step plus that cap: a slow frame cannot snowball. */
  lemma DrainBounded(carry: real, dt: real, rate: real, ticks: nat, rest: real)
    requires rate > 0.0 && carry < rate && dt <= MaxFrameTime
    requires Drained(carry + dt, rate, ticks, rest)
    ensures ticks as real * rate < rate + MaxFrameTime
  {
    if ticks > 0 {
      assert ticks as real * rate == carry + dt - rest;
    } else {
      assert ticks as real * rate == 0.0;
    }
  }

  /** A step count fits in the amount it was drained from. */
  lemma StepsBelowQuotient(acc: real, rate: real, n: nat)
    requires rate > 0.0 && n as real * rate <= acc
    ensures n <= Floor(acc / rate)
  {
    DivBounds(acc, rate, n as real);
    FloorMono(n as real, acc / rate);
  }

  /** Dividing by a positive number keeps the order with any bound. */
  lemma DivBounds(a: real, b: real, lo: real)
    requires b > 0.0
    ensures lo * b <= a ==> lo <= a / b
    ensures a < lo * b ==> a / b < lo
  {
    var q := a / b;
    assert q * b == a;
    if lo > q {
      MulPos(lo - q, b);
    } else {
      MulNonNeg(q - lo, b);
    }
  }

  /** The simulation calls one frame makes, in order. */
  datatype Call = GetIntent | UpdatePlayer | UpdateWeapon | UpdateProjectiles | UpdateEntities | Cast | Draw

  /** One tick: read the intent once, then advance the player, the weapon,
      the projectiles and the entities by one step each. */
  const TickCalls: seq<Call> := [GetIntent, UpdatePlayer, UpdateWeapon, UpdateProjectiles, UpdateEntities]

  /** The calls of n ticks. */
  function TicksCalls(n: nat): (r: seq<Call>)
    ensures |r| == |TickCalls| * n
  {
    if n == 0 then [] else
      var m: nat := n - 1;
      TicksCalls(m) + TickCalls
  }

  /** Tick i occupies calls 5i to 5i + 4, in the fixed update order. */
  lemma {:induction false} TicksCallsOrder(n: nat, i: nat, k: nat)
    requires i < n && k < |TickCalls|
    ensures |TickCalls| * i + k < |TicksCalls(n)|
    ensures TicksCalls(n)[|TickCalls| * i + k] == TickCalls[k]
  {
    var m: nat := n - 1;
    if i < m {
      TicksCallsOrder(m, i, k);
    } else {
      assert |TicksCalls(m)| == |TickCalls| * i;
    }
  }

  /** The calls of a frame that ran `ticks` steps. */
  function FrameCalls(ticks: nat): seq<Call>
  {
    TicksCalls(ticks) + [Cast, Draw]
  }

  /** A frame casts and draws exactly once, after all its ticks. */
  lemma FrameCallsRenderLast(ticks: nat)
    ensures |FrameCalls(ticks)| == |TickCalls| * ticks + 2
    ensures FrameCalls(ticks)[|TickCalls| * ticks] == Cast
    ensures FrameCalls(ticks)[|TickCalls| * ticks + 1] == Draw
    ensures forall i :: 0 <= i < |TickCalls| * ticks ==> FrameCalls(ticks)[i] != Cast && FrameCalls(ticks)[i] != Draw
  {
    TicksCallsNoRender(ticks);
    assert forall i :: 0 <= i < |TickCalls| * ticks ==> FrameCalls(ticks)[i] == TicksCalls(ticks)[i];
  }

  /** Ticks never cast or draw. */
  lemma {:induction false} TicksCallsNoRender(n: nat)
    ensures Cast !in TicksCalls(n) && Draw !in TicksCalls(n)
  {
    if n > 0 {
      var m: nat := n - 1;
      TicksCallsNoRender(m);
    }
  }

  /** Drain the accumulator: one tick per whole step in it. */
  method RunTicks(acc: real, rate: real) returns (ticks: nat, rest: real, calls: seq<Call>)
    requires rate > 0.0
    ensures Drained(acc, rate, ticks, rest)
    ensures calls == TicksCalls(ticks)
  {
    ticks := 0;
    rest := acc;
    calls := [];
    while rest >= rate
      invariant rest == acc - ticks as real * rate
      invariant ticks > 0 ==> rest >= 0.0
      invariant calls == TicksCalls(ticks)
      decreases Floor(acc / rate) - ticks
    {
      StepsBelowQuotient(acc, rate, ticks + 1);
      calls := calls + TickCalls;
      rest := rest - rate;
      ticks := ticks + 1;
    }
  }

  // ---------------------------------------------------------------------
  // The loop state
  // ---------------------------------------------------------------------

  /** The loop's closure variables, the configured render scale, and the
      canvas with its depth buffer. */
  class FrameLoop {
    var lastTime: real
    var accumulator: real
    var adaptFrames: int
    var adaptLastTime: real
    var renderScale: real
    var width: nat
    var height: nat
    var depthBuffer: array<real>

    /** The depth buffer has one entry per canvas column, and the render
      scale lies in the policy's range. */
    ghost predicate Valid()
      reads this
    {
      depthBuffer.Length == width && ScaleMin <= renderScale <= ScaleMax
    }

    /** `init`: the loop starts at `now` with an empty accumulator and a
      fresh measurement window, after one `resize`. */
    constructor (now: real, scale: real, innerW: real, innerH: real)
      requires ScaleMin <= scale <= ScaleMax && innerW >= 0.0 && innerH >= 0.0
      ensures Valid()
      ensures lastTime == now && accumulator == 0.0 && adaptFrames == 0 && adaptLastTime == now
      ensures renderScale == scale
      ensures width == CanvasSide(innerW, scale) && height == CanvasSide(innerH, scale)
      ensures fresh(depthBuffer) && forall i :: 0 <= i < depthBuffer.Length ==> depthBuffer[i] == 0.0
    {
      lastTime := now;
      accumulator := 0.0;
      adaptFrames := 0;
      adaptLastTime := now;
      renderScale := scale;
      var w := CanvasSide(innerW, scale);
      width := w;
      height := CanvasSide(innerH, scale);
      depthBuffer := new real[w](_ => 0.0);
    }

    /** `resize`: the canvas takes the window size times the render scale,
      rounded down, and a fresh zeroed depth buffer as wide as the canvas. */
    method Resize(innerW: real, innerH: real)
      requires Valid() && innerW >= 0.0 && innerH >= 0.0
      modifies this
      ensures Valid() && renderScale == old(renderScale)
      ensures width == CanvasSide(innerW, renderScale) && height == CanvasSide(innerH, renderScale)
      ensures fresh(depthBuffer) && forall i :: 0 <= i < depthBuffer.Length ==> depthBuffer[i] == 0.0
      ensures lastTime == old(lastTime) && accumulator == old(accumulator)
      ensures adaptFrames == old(adaptFrames) && adaptLastTime == old(adaptLastTime)
    {
      var w := CanvasSide(innerW, renderScale);
      width := w;
      height := CanvasSide(innerH, renderScale);
      depthBuffer := new real[w](_ => 0.0);
    }

    /** The resolution policy's part of a frame: count the frame, and once
      a window of `AdaptWindow` ms has passed, measure the frame rate,
      start a new window and step the scale, resizing when it moved. */
    method Adapt(now: real, innerW: real, innerH: real) returns (resized: bool)
      requires Valid() && innerW >= 0.0 && innerH >= 0.0
      modifies this
      ensures Valid()
      ensures lastTime == old(lastTime) && accumulator == old(accumulator)
      ensures now - old(adaptLastTime) < AdaptWindow ==>
        && adaptFrames == old(adaptFrames) + 1 && adaptLastTime == old(adaptLastTime)
        && renderScale == old(renderScale) && !resized
      ensures now - old(adaptLastTime) >= AdaptWindow ==>
        && adaptFrames == 0 && adaptLastTime == now
        && renderScale == Rescale(old(renderScale), Fps(old(adaptFrames) + 1, now - old(adaptLastTime)))
        && (resized <==> renderScale != old(renderScale))
      ensures resized ==> width == CanvasSide(innerW, renderScale) && height == CanvasSide(innerH, renderScale) && fresh(depthBuffer)
      ensures !resized ==> width == old(width) && height == old(height) && depthBuffer == old(depthBuffer)
    {
      adaptFrames := adaptFrames + 1;
      resized := false;
      if now - adaptLastTime >= AdaptWindow {
        var fps := Fps(adaptFrames, now - adaptLastTime);
        adaptFrames := 0;
        adaptLastTime := now;
        if fps < TargetFps && renderScale > ScaleMin {
          renderScale := MaxR(ScaleMin, renderScale - ScaleStep);
          Resize(innerW, innerH);
          resized := true;
        } else if fps > TargetFps + FpsHeadroom && renderScale < ScaleMax {
          renderScale := MinR(ScaleMax, renderScale + ScaleStep);
          Resize(innerW, innerH);
          resized := true;
        }
      }
    }

    /** One animation frame at time `now` (ms): take in the capped frame
      time, run the resolution policy, drain the accumulator in fixed
      steps, then cast and draw once. Returns the calls made, in order. */
    method Frame(now: real, rate: real, innerW: real, innerH: real) returns (ticks: nat, calls: seq<Call>)
      requires Valid() && rate > 0.0 && innerW >= 0.0 && innerH >= 0.0
      modifies this
      ensures Valid()
      ensures lastTime == now
      ensures Drained(old(accumulator) + FrameTime(now, old(lastTime)), rate, ticks, accumulator)
      ensures calls == FrameCalls(ticks)
      ensures now - old(adaptLastTime) < AdaptWindow ==>
        && adaptFrames == old(adaptFrames) + 1 && adaptLastTime == old(adaptLastTime)
        && renderScale == old(renderScale)
      ensures now - old(adaptLastTime) >= AdaptWindow ==>
        && adaptFrames == 0 && adaptLastTime == now
        && renderScale == Rescale(old(renderScale), Fps(old(adaptFrames) + 1, now - old(adaptLastTime)))
      ensures renderScale != old(renderScale) ==>
        width == CanvasSide(innerW, renderScale) && height == CanvasSide(innerH, renderScale) && fresh(depthBuffer)
      ensures renderScale == old(renderScale) ==>
        width == old(width) && height == old(height) && depthBuffer == old(depthBuffer)
    {
      var acc := accumulator + FrameTime(now, lastTime);
      lastTime := now;
      accumulator := acc;
      var _ := Adapt(now, innerW, innerH);
      var rest: real;
      ticks, rest, calls := RunTicks(acc, rate);
      accumulator := rest;
      calls := calls + [Cast, Draw];
    }
  }

  /** Frames per second over a window: `frames / (elapsed / 1000)`. */
  function Fps(frames: int, elapsed: real): real
    requires elapsed >= AdaptWindow
  {
    frames as real / (elapsed / 1000.0)
  }
}
