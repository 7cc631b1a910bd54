/** Keyboard and mouse state, updated by the event handlers and turned
    into one movement-and-fire intent per simulation tick. Timestamps are
    seconds, passed in by the caller. */
module Input {
  import opened Js
  import Config

  datatype DashDir = Forward | Back | Left | Right

  /** What one tick of the simulation is asked to do. */
  datatype Intent = Intent(
    forward: int,
    strafe: int,
    sprint: bool,
    jump: bool,
    dashDirection: Option<DashDir>,
    mouseDelta: real,
    mouseDeltaY: real,
    firing: bool,
    shotgunTap: bool)

  /** The dash a key names when double-tapped: W, S, A and D. */
  function DirectionOf(code: string): (d: Option<DashDir>)
    ensures d.Some? <==> code in {"KeyW", "KeyS", "KeyA", "KeyD"}
  {
    if code == "KeyW" then Some(Forward)
    else if code == "KeyS" then Some(Back)
    else if code == "KeyA" then Some(Left)
    else if code == "KeyD" then Some(Right)
    else None
  }

  /** `keys[code]` read as a boolean: a key never seen is up. */
  function Held(keys: map<string, bool>, code: string): bool
  {
    code in keys && keys[code]
  }

  /** One movement axis from its two keys. */
  function Axis(plus: bool, minus: bool): (a: int)
    ensures -1 <= a <= 1
    ensures a == 1 <==> plus && !minus
    ensures a == -1 <==> minus && !plus
  {
    (if plus then 1 else 0) - (if minus then 1 else 0)
  }

  /** One axis of `getIntent`, accumulated from 0 as the source does. */
  method AxisOf(plus: bool, minus: bool) returns (a: int)
    ensures a == Axis(plus, minus)
  {
    a := 0;
    if plus { a := a + 1; }
    if minus { a := a - 1; }
  }

  /** Whether a press of a direction key at `now` completes a double tap:
      it comes within the window after that key's last release (a key
      never released counts as released at time 0). */
  function IsDoubleTap(lastRelease: map<string, real>, code: string, now: real, window: real): bool
  {
    var last := if code in lastRelease then lastRelease[code] else 0.0;
    now - last < window
  }

  /** How long the fire button has been held at `now`; 0 once released. */
  function HoldTime(down: bool, downTime: real, now: real): real
  {
    if down then now - downTime else 0.0
  }

  /** The fire-mode flags of an intent: `firing` after a long enough hold,
      `shotgunTap` for a release seen by this poll that did not follow a
      long hold still in progress. */
  function FireFlags(down: bool, downTime: real, justUp: bool, now: real, threshold: real): (f: (bool, bool))
    ensures f.0 <==> down && now - downTime >= threshold
    ensures !down ==> (f.1 <==> justUp && threshold > 0.0)
    ensures f.0 && f.1 ==> false
  {
    var hold := HoldTime(down, downTime, now);
    (down && hold >= threshold, justUp && hold < threshold)
  }

  /** A release since the last poll always yields a shotgun tap once the
      button is up, however long it was held before. */
  lemma ReleaseAlwaysTaps(downTime: real, now: real, threshold: real)
    requires threshold > 0.0
    ensures FireFlags(false, downTime, true, now, threshold) == (false, true)
  {
  }

  class InputState {
    var keys: map<string, bool>
    var mouseDX: real
    var mouseDY: real
    var mouseDown: bool
    var mouseDownTime: real
    var mouseJustUp: bool
    var locked: bool
    var lastTapTime: map<string, real>
    var lastReleaseTime: map<string, real>
    var pendingDash: Option<DashDir>

    /** The state before any event. */
    constructor ()
      ensures keys == map[] && lastTapTime == map[] && lastReleaseTime == map[]
      ensures mouseDX == 0.0 && mouseDY == 0.0 && !mouseDown && mouseDownTime == 0.0
      ensures !mouseJustUp && !locked && pendingDash.None?
    {
      keys := map[];
      mouseDX := 0.0;
      mouseDY := 0.0;
      mouseDown := false;
      mouseDownTime := 0.0;
      mouseJustUp := false;
      locked := false;
      lastTapTime := map[];
      lastReleaseTime := map[];
      pendingDash := None;
    }

    /** The keydown handler. A key that is already down is ignored, so
        auto-repeat never re-arms a dash. */
    method KeyDown(code: string, now: real, cfg: Config.Config)
      modifies this
      ensures old(Held(keys, code)) ==> unchanged(this)
      ensures !old(Held(keys, code)) ==> keys == old(keys)[code := true]
      ensures !old(Held(keys, code)) && DirectionOf(code).Some? ==>
        && lastTapTime == old(lastTapTime)[code := now]
        && pendingDash == (if IsDoubleTap(old(lastReleaseTime), code, now, cfg.doubleTapWindow)
                           then DirectionOf(code) else old(pendingDash))
      ensures !old(Held(keys, code)) && DirectionOf(code).None? ==>
        lastTapTime == old(lastTapTime) && pendingDash == old(pendingDash)
      ensures mouseDX == old(mouseDX) && mouseDY == old(mouseDY) && mouseDown == old(mouseDown)
      ensures mouseDownTime == old(mouseDownTime) && mouseJustUp == old(mouseJustUp) && locked == old(locked)
      ensures lastReleaseTime == old(lastReleaseTime)
    {
      if code in keys && keys[code] {
        return;
      }
      keys := keys[code := true];

      var dir := DirectionOf(code);
      if dir.Some? {
        var lastRelease := if code in lastReleaseTime then lastReleaseTime[code] else 0.0;
        if now - lastRelease < cfg.doubleTapWindow {
          pendingDash := dir;
        }
        lastTapTime := lastTapTime[code := now];
      }
    }

    /** The keyup handler: the key is up, and a direction key's release
        time is recorded. */
    method KeyUp(code: string, now: real)
      modifies this
      ensures keys == old(keys)[code := false]
      ensures lastReleaseTime == if DirectionOf(code).Some? then old(lastReleaseTime)[code := now] else old(lastReleaseTime)
      ensures mouseDX == old(mouseDX) && mouseDY == old(mouseDY) && mouseDown == old(mouseDown)
      ensures mouseDownTime == old(mouseDownTime) && mouseJustUp == old(mouseJustUp) && locked == old(locked)
      ensures lastTapTime == old(lastTapTime) && pendingDash == old(pendingDash)
    {
      keys := keys[code := false];
      if DirectionOf(code).Some? {
        lastReleaseTime := lastReleaseTime[code := now];
      }
    }

    /** The pointer-lock handler: locked exactly when the game canvas holds the lock. */
    method PointerLockChange(onCanvas: bool)
      modifies this
      ensures locked == onCanvas
      ensures keys == old(keys) && mouseDX == old(mouseDX) && mouseDY == old(mouseDY)
      ensures mouseDown == old(mouseDown) && mouseDownTime == old(mouseDownTime) && mouseJustUp == old(mouseJustUp)
      ensures lastTapTime == old(lastTapTime) && lastReleaseTime == old(lastReleaseTime) && pendingDash == old(pendingDash)
    {
      locked := onCanvas;
    }

    /** The mousemove handler: movement accumulates only while locked. */
    method MouseMove(movementX: real, movementY: real)
      modifies this
      ensures old(locked) ==> mouseDX == old(mouseDX) + movementX && mouseDY == old(mouseDY) + movementY
      ensures !old(locked) ==> unchanged(this)
      ensures keys == old(keys) && locked == old(locked) && mouseDown == old(mouseDown)
      ensures mouseDownTime == old(mouseDownTime) && mouseJustUp == old(mouseJustUp)
      ensures lastTapTime == old(lastTapTime) && lastReleaseTime == old(lastReleaseTime) && pendingDash == old(pendingDash)
    {
      if locked {
        mouseDX := mouseDX + movementX;
        mouseDY := mouseDY + movementY;
      }
    }

    /** The mousedown handler: a left press while locked starts a hold. */
    method MouseDown(button: int, now: real)
      modifies this
      ensures old(locked) && button == 0 ==> mouseDown && mouseDownTime == now
      ensures !(old(locked) && button == 0) ==> unchanged(this)
      ensures keys == old(keys) && locked == old(locked) && mouseDX == old(mouseDX) && mouseDY == old(mouseDY)
      ensures mouseJustUp == old(mouseJustUp)
      ensures lastTapTime == old(lastTapTime) && lastReleaseTime == old(lastReleaseTime) && pendingDash == old(pendingDash)
    {
      if locked && button == 0 {
        mouseDown := true;
        mouseDownTime := now;
      }
    }

    /** The mouseup handler: a left release counts only after a recorded press. */
    method MouseUp(button: int)
      modifies this
      ensures button == 0 && old(mouseDown) ==> !mouseDown && mouseJustUp
      ensures !(button == 0 && old(mouseDown)) ==> unchanged(this)
      ensures keys == old(keys) && locked == old(locked) && mouseDX == old(mouseDX) && mouseDY == old(mouseDY)
      ensures mouseDownTime == old(mouseDownTime)
      ensures lastTapTime == old(lastTapTime) && lastReleaseTime == old(lastReleaseTime) && pendingDash == old(pendingDash)
    {
      if button == 0 && mouseDown {
        mouseDown := false;
        mouseJustUp := true;
      }
    }

    /** `getIntent`: reads the held keys, hands over and clears the mouse
        deltas, the pending dash and the release flag. */
    method GetIntent(now: real, cfg: Config.Config) returns (intent: Intent)
      modifies this
      ensures intent.forward == Axis(Held(keys, "KeyW"), Held(keys, "KeyS"))
      ensures intent.strafe == Axis(Held(keys, "KeyD"), Held(keys, "KeyA"))
      ensures intent.sprint == (Held(keys, "ShiftLeft") || Held(keys, "ShiftRight"))
      ensures intent.jump == Held(keys, "Space")
      ensures intent.mouseDelta == old(mouseDX) && intent.mouseDeltaY == old(mouseDY)
      ensures intent.dashDirection == old(pendingDash)
      ensures (intent.firing, intent.shotgunTap) == FireFlags(mouseDown, mouseDownTime, old(mouseJustUp), now, cfg.holdThreshold)
      ensures mouseDX == 0.0 && mouseDY == 0.0 && pendingDash.None? && !mouseJustUp
      ensures keys == old(keys) && locked == old(locked) && mouseDown == old(mouseDown) && mouseDownTime == old(mouseDownTime)
      ensures lastTapTime == old(lastTapTime) && lastReleaseTime == old(lastReleaseTime)
    {
      var forward := AxisOf(Held(keys, "KeyW"), Held(keys, "KeyS"));
      var strafe := AxisOf(Held(keys, "KeyD"), Held(keys, "KeyA"));

      var sprint := Held(keys, "ShiftLeft") || Held(keys, "ShiftRight");
      var jump := Held(keys, "Space");

      var mouseDelta := mouseDX;
      var mouseDeltaY := mouseDY;
      mouseDX := 0.0;
      mouseDY := 0.0;

      var dashDirection := pendingDash;
      pendingDash := None;

      var holdTime := if mouseDown then now - mouseDownTime else 0.0;
      var firing := mouseDown && holdTime >= cfg.holdThreshold;
      var shotgunTap := mouseJustUp && holdTime < cfg.holdThreshold;
      mouseJustUp := false;

      intent := Intent(forward, strafe, sprint, jump, dashDirection, mouseDelta, mouseDeltaY, firing, shotgunTap);
    }
  }

  /** A second poll straight after a first hands over nothing: no mouse
      movement, no dash and no shotgun tap. */
  method PollTwice(s: InputState, now1: real, now2: real, cfg: Config.Config) returns (first: Intent, second: Intent)
    modifies s
    ensures second.mouseDelta == 0.0 && second.mouseDeltaY == 0.0
    ensures second.dashDirection.None? && !second.shotgunTap
    ensures first.dashDirection == old(s.pendingDash)
  {
    first := s.GetIntent(now1, cfg);
    second := s.GetIntent(now2, cfg);
  }
}
