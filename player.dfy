/** The player: spawning, the per-tick update (look, jump and gravity,
    recoil recovery, dash, movement) and collision against walls and
    entities. */
module Player {
  import opened Js
  import opened GameMap
  import opened Entities
  import opened Input
  import Config

  const StartHp: int := 100

  /** The cell of a point lies between the cells of `v - r` and `v + r`
      and is one of them when the box is at most one cell wide. */
  lemma CellBetween(v: real, r: real)
    ensures 0.0 <= r <= 0.5 ==> Floor(v) == Floor(v - r) || Floor(v) == Floor(v + r)
  {
    if 0.0 <= r {
      FloorMono(v - r, v);
      FloorMono(v, v + r);
    }
  }

  /** `collidesAt`: some corner of the square of half-side `playerRadius`
      centred on (x, y) lies in a wall cell. With a radius of at most half
      a cell, a position free of wall corners is itself in an open cell. */
  predicate CollidesAt(x: real, y: real, m: TileMap, cfg: Config.Config)
    requires m.Valid()
    ensures 0.0 <= cfg.playerRadius <= 0.5 && !CollidesAt(x, y, m, cfg) ==> !m.IsWall(Floor(x), Floor(y))
  {
    var r := cfg.playerRadius;
    CellBetween(x, r);
    CellBetween(y, r);
    || m.IsWall(Floor(x - r), Floor(y - r))
    || m.IsWall(Floor(x + r), Floor(y - r))
    || m.IsWall(Floor(x - r), Floor(y + r))
    || m.IsWall(Floor(x + r), Floor(y + r))
  }

  /** A player at (x, y) is blocked by an entity that is active, alive and
      strictly inside the sum of the two radii. */
  predicate BlockedBy(x: real, y: real, e: Entity, cfg: Config.Config)
  {
    var r := cfg.playerRadius + cfg.entityRadius;
    e.active && e.hp > 0 && (x - e.x) * (x - e.x) + (y - e.y) * (y - e.y) < r * r
  }

  /** `collidesWithEntity`: scans the entities and stops at the first that blocks. */
  method CollidesWithEntity(x: real, y: real, entities: seq<Entity>, cfg: Config.Config) returns (b: bool)
    ensures b <==> exists i :: 0 <= i < |entities| && BlockedBy(x, y, entities[i], cfg)
  {
    var r := cfg.playerRadius + cfg.entityRadius;
    for i := 0 to |entities|
      invariant forall j :: 0 <= j < i ==> !BlockedBy(x, y, entities[j], cfg)
    {
      var e := entities[i];
      if !e.active || e.hp <= 0 {
        continue;
      }
      var dx := x - e.x;
      var dy := y - e.y;
      if dx * dx + dy * dy < r * r {
        return true;
      }
    }
    return false;
  }

  /** Where the player may stand: no wall corner and no blocking entity. */
  predicate Free(x: real, y: real, m: TileMap, entities: seq<Entity>, cfg: Config.Config)
    requires m.Valid()
  {
    !CollidesAt(x, y, m, cfg) && forall i :: 0 <= i < |entities| ==> !BlockedBy(x, y, entities[i], cfg)
  }

  /** `Math.max(-max, Math.min(max, p))`. */
  function ClampPitch(p: real, max: real): (r: real)
    requires max >= 0.0
    ensures -max <= r <= max
    ensures -max <= p <= max ==> r == p
    ensures p > max ==> r == max
    ensures p < -max ==> r == -max
  {
    MaxR(-max, MinR(max, p))
  }

  /** A position advanced by a velocity for `dt`. */
  function Advance(p: real, v: real, dt: real): real
  {
    p + v * dt
  }

  /** Jump, gravity and landing for one tick: the new height and vertical
      speed. */
  function Vertical(z: real, vz: real, jump: bool, dt: real, cfg: Config.Config): (r: (real, real))
    ensures r.0 >= 0.0
    ensures r == (0.0, 0.0) || r.0 == Advance(z, r.1, dt)
    ensures r.1 == 0.0 || r.1 == (if jump && z == 0.0 then cfg.jumpVelocity else vz) - cfg.gravity * dt
  {
    var vz1 := if jump && z == 0.0 then cfg.jumpVelocity else vz;
    var vz2 := vz1 - cfg.gravity * dt;
    var z2 := Advance(z, vz2, dt);
    if z2 < 0.0 then (0.0, 0.0) else (z2, vz2)
  }

  /** A jump only takes off from the ground: in the air, the jump key
      changes nothing. */
  lemma JumpOnlyFromGround(z: real, vz: real, dt: real, cfg: Config.Config)
    requires z != 0.0
    ensures Vertical(z, vz, true, dt, cfg) == Vertical(z, vz, false, dt, cfg)
  {
  }

  /** Recoil recovery: the offset moves toward zero by `decay` and stops at
      zero rather than crossing it. */
  function DecayRecoil(offset: real, decay: real): (r: real)
    requires decay >= 0.0
    ensures Abs(r) == MaxR(0.0, Abs(offset) - decay)
    ensures r == 0.0 || (r > 0.0 <==> offset > 0.0)
  {
    if offset == 0.0 then offset
    else if Abs(offset) <= decay then 0.0
    else offset - (if offset > 0.0 then 1.0 else -1.0) * decay
  }

  /** The WASD axes turned to heading (cos, sin): forward along the
      heading, strafe to its right. */
  function Turned(forward: int, strafe: int, cos: real, sin: real): (real, real)
  {
    (cos * forward as real + -sin * strafe as real, sin * forward as real + cos * strafe as real)
  }

  /** The unit movement vector for the WASD axes at heading (cos, sin). */
  function MoveVector(forward: int, strafe: int, cos: real, sin: real, sqrt: real -> real): (real, real)
  {
    if forward == 0 && strafe == 0 then (0.0, 0.0)
    else
      var m := Turned(forward, strafe, cos, sin);
      var len := sqrt(m.0 * m.0 + m.1 * m.1);
      if len > 0.0 then (m.0 / len, m.1 / len) else m
  }

  /** The dash vector for a direction at heading (cos, sin). */
  function DashVector(d: DashDir, cos: real, sin: real): (v: (real, real))
    ensures d == Forward ==> v == (cos, sin)
    ensures d == Back ==> v == (-cos, -sin)
    ensures d == Left ==> v == (sin, -cos)
    ensures d == Right ==> v == (-sin, cos)
  {
    match d
    case Forward => (cos, sin)
    case Back => (-cos, -sin)
    case Left => (sin, -cos)
    case Right => (-sin, cos)
  }

  /** The walking speed: `walkSpeed`, times `sprintMultiplier` while sprinting. */
  function Speed(sprint: bool, cfg: Config.Config): real
  {
    if sprint then cfg.walkSpeed * cfg.sprintMultiplier else cfg.walkSpeed
  }

  /** A vector scaled by `k`. */
  function Times(v: (real, real), k: real): (real, real)
  {
    (v.0 * k, v.1 * k)
  }

  /** The velocity of one tick: the WASD vector at the walking speed, plus
      the dash vector at `dashSpeed` while a dash runs. */
  function Velocity(intent: Intent, dashing: bool, dashX: real, dashY: real, cos: real, sin: real,
                    sqrt: real -> real, cfg: Config.Config): (v: (real, real))
    ensures intent.forward == 0 && intent.strafe == 0 && !dashing ==> v == (0.0, 0.0)
    ensures intent.forward == 0 && intent.strafe == 0 && dashing ==> v == (dashX * cfg.dashSpeed, dashY * cfg.dashSpeed)
    ensures dashing ==> var walk := Velocity(intent, false, dashX, dashY, cos, sin, sqrt, cfg);
      v == (walk.0 + dashX * cfg.dashSpeed, walk.1 + dashY * cfg.dashSpeed)
  {
    var walk := Times(MoveVector(intent.forward, intent.strafe, cos, sin, sqrt), Speed(intent.sprint, cfg));
    if dashing then (walk.0 + dashX * cfg.dashSpeed, walk.1 + dashY * cfg.dashSpeed) else walk
  }

  /** Diagonal movement is normalised: at a unit heading, and with a
      square root that is exact on the turned vector's squared length,
      whichever WASD keys are held the player walks at exactly the walking
      speed. */
  lemma WalkSpeed(intent: Intent, cos: real, sin: real, sqrt: real -> real, cfg: Config.Config)
    requires intent.forward != 0 || intent.strafe != 0
    requires Sq(cos) + Sq(sin) == 1.0
    requires var m := Turned(intent.forward, intent.strafe, cos, sin);
      sqrt(Sq(m.0) + Sq(m.1)) >= 0.0 && Sq(sqrt(Sq(m.0) + Sq(m.1))) == Sq(m.0) + Sq(m.1)
    ensures var v := Velocity(intent, false, 0.0, 0.0, cos, sin, sqrt, cfg);
      Sq(v.0) + Sq(v.1) == Sq(Speed(intent.sprint, cfg))
  {
    UnitMove(intent.forward, intent.strafe, cos, sin, sqrt);
    ScaledLength(MoveVector(intent.forward, intent.strafe, cos, sin, sqrt), Speed(intent.sprint, cfg));
  }

  /** Under the same assumptions, the WASD vector of held keys is a unit
      vector. */
  lemma UnitMove(forward: int, strafe: int, cos: real, sin: real, sqrt: real -> real)
    requires forward != 0 || strafe != 0
    requires Sq(cos) + Sq(sin) == 1.0
    requires var m := Turned(forward, strafe, cos, sin);
      sqrt(Sq(m.0) + Sq(m.1)) >= 0.0 && Sq(sqrt(Sq(m.0) + Sq(m.1))) == Sq(m.0) + Sq(m.1)
    ensures var v := MoveVector(forward, strafe, cos, sin, sqrt);
      Sq(v.0) + Sq(v.1) == 1.0
  {
    var m := Turned(forward, strafe, cos, sin);
    TurnedLength(forward, strafe, cos, sin);
    SquaresPositive(forward, strafe);
    var len := sqrt(Sq(m.0) + Sq(m.1));
    assert len > 0.0;
    assert MoveVector(forward, strafe, cos, sin, sqrt) == (m.0 / len, m.1 / len);
    UnitAfterDivide(m.0, m.1, len);
  }

  function Sq(a: real): real
  {
    a * a
  }

  /** Turning by a unit heading keeps the squared length of the axes. */
  lemma TurnedLength(forward: int, strafe: int, cos: real, sin: real)
    requires Sq(cos) + Sq(sin) == 1.0
    ensures var m := Turned(forward, strafe, cos, sin);
      Sq(m.0) + Sq(m.1) == Sq(forward as real) + Sq(strafe as real)
  {
    var f, t := forward as real, strafe as real;
    calc {
      Sq(cos * f + -sin * t) + Sq(sin * f + cos * t);
      (cos * f + -sin * t) * (cos * f + -sin * t) + (sin * f + cos * t) * (sin * f + cos * t);
      (cos * cos + sin * sin) * (f * f + t * t);
      { assert cos * cos + sin * sin == Sq(cos) + Sq(sin); }
      1.0 * (f * f + t * t);
      Sq(f) + Sq(t);
    }
  }

  /** Two whole numbers, not both zero, have a positive sum of squares. */
  lemma SquaresPositive(f: int, t: int)
    requires f != 0 || t != 0
    ensures Sq(f as real) + Sq(t as real) > 0.0
  {
    if f != 0 {
      SqPos(f as real);
    } else {
      SqPos(t as real);
    }
  }

  /** A non-zero number has a positive square. */
  lemma SqPos(a: real)
    requires a != 0.0
    ensures Sq(a) > 0.0
  {
    if a > 0.0 {
      MulPos(a, a);
    } else {
      MulPos(-a, -a);
      assert Sq(a) == Mul(-a, -a);
    }
  }

  /** Dividing by the length leaves a unit vector. */
  lemma UnitAfterDivide(a: real, b: real, len: real)
    requires len > 0.0 && Sq(len) == Sq(a) + Sq(b)
    ensures Sq(a / len) + Sq(b / len) == 1.0
  {
    SqPos(len);
    SqOfQuotient(a, len);
    SqOfQuotient(b, len);
    CancelPositive(Sq(a / len), Sq(b / len), Sq(len), Sq(a), Sq(b));
  }

  /** The square of a quotient times the square of the divisor. */
  lemma SqOfQuotient(a: real, l: real)
    requires l > 0.0
    ensures Sq(a / l) * Sq(l) == Sq(a)
  {
    var u := a / l;
    assert u * l == a;
    assert Sq(u) * Sq(l) == Sq(u * l);
  }

  /** Shares p and q of a positive whole k that add up to k sum to one. */
  lemma CancelPositive(p: real, q: real, k: real, x: real, y: real)
    requires k > 0.0
    requires p * k == x
    requires q * k == y
    requires k == x + y
    ensures p + q == 1.0
  {
    assert (p + q - 1.0) * k == 0.0;
  }

  /** A unit vector scaled by k has squared length k². */
  lemma ScaledLength(v: (real, real), k: real)
    requires Sq(v.0) + Sq(v.1) == 1.0
    ensures Sq(Times(v, k).0) + Sq(Times(v, k).1) == Sq(k)
  {
    assert Sq(Times(v, k).0) + Sq(Times(v, k).1) == (Sq(v.0) + Sq(v.1)) * Sq(k);
  }

  class Player {
    var x: real
    var y: real
    var angle: real
    var hp: int
    var pitch: real
    var z: real
    var vz: real
    var dashTimer: real
    var dashCooldownTimer: real
    var dashDirX: real
    var dashDirY: real
    var recoilOffset: real

    /** `createPlayer`: at the spawn point, facing the spawn angle (0 when
        absent), at rest on the ground with full health. */
    constructor (spawn: Spawn)
      ensures x == spawn.x && y == spawn.y
      ensures angle == (if spawn.angle.Some? then spawn.angle.value else 0.0)
      ensures hp == StartHp && pitch == 0.0 && z == 0.0 && vz == 0.0
      ensures dashTimer == 0.0 && dashCooldownTimer == 0.0 && dashDirX == 0.0 && dashDirY == 0.0
      ensures recoilOffset == 0.0
    {
      x := spawn.x;
      y := spawn.y;
      angle := if spawn.angle.Some? then spawn.angle.value else 0.0;
      hp := StartHp;
      pitch := 0.0;
      z := 0.0;
      vz := 0.0;
      dashTimer := 0.0;
      dashCooldownTimer := 0.0;
      dashDirX := 0.0;
      dashDirY := 0.0;
      recoilOffset := 0.0;
    }

    /** Mouse look: turn by the horizontal delta, tilt by the vertical one
        and clamp the tilt. */
    method Look(intent: Intent, cfg: Config.Config)
      requires cfg.maxPitch >= 0.0
      modifies this
      ensures angle == old(angle) + intent.mouseDelta * cfg.mouseSensitivity
      ensures pitch == ClampPitch(old(pitch) - intent.mouseDeltaY * cfg.pitchSensitivity, cfg.maxPitch)
      ensures x == old(x) && y == old(y) && hp == old(hp) && z == old(z) && vz == old(vz)
      ensures dashTimer == old(dashTimer) && dashCooldownTimer == old(dashCooldownTimer)
      ensures dashDirX == old(dashDirX) && dashDirY == old(dashDirY) && recoilOffset == old(recoilOffset)
    {
      angle := angle + intent.mouseDelta * cfg.mouseSensitivity;

      pitch := pitch - intent.mouseDeltaY * cfg.pitchSensitivity;
      pitch := MaxR(-cfg.maxPitch, MinR(cfg.maxPitch, pitch));
    }

    /** Jump, gravity and landing. */
    method Fall(jump: bool, dt: real, cfg: Config.Config)
      modifies this
      ensures (z, vz) == Vertical(old(z), old(vz), jump, dt, cfg)
      ensures x == old(x) && y == old(y) && hp == old(hp) && angle == old(angle) && pitch == old(pitch)
      ensures dashTimer == old(dashTimer) && dashCooldownTimer == old(dashCooldownTimer)
      ensures dashDirX == old(dashDirX) && dashDirY == old(dashDirY) && recoilOffset == old(recoilOffset)
    {
      ghost var target := Vertical(z, vz, jump, dt, cfg);
      if jump && z == 0.0 {
        vz := cfg.jumpVelocity;
      }

      vz := vz - cfg.gravity * dt;
      z := Advance(z, vz, dt);
      if z < 0.0 {
        z := 0.0;
        vz := 0.0;
      }
      assert (z, vz) == target;
    }

    /** Recoil recovery toward zero. */
    method RecoverRecoil(dt: real, cfg: Config.Config)
      requires cfg.recoilDecay >= 0.0 && dt >= 0.0
      modifies this
      ensures recoilOffset == DecayRecoil(old(recoilOffset), cfg.recoilDecay * dt)
      ensures x == old(x) && y == old(y) && hp == old(hp) && angle == old(angle) && pitch == old(pitch)
      ensures z == old(z) && vz == old(vz) && dashTimer == old(dashTimer) && dashCooldownTimer == old(dashCooldownTimer)
      ensures dashDirX == old(dashDirX) && dashDirY == old(dashDirY)
    {
      if recoilOffset != 0.0 {
        var decay := cfg.recoilDecay * dt;
        if Abs(recoilOffset) <= decay {
          recoilOffset := 0.0;
        } else {
          recoilOffset := recoilOffset - (if recoilOffset > 0.0 then 1.0 else -1.0) * decay;
        }
      }
    }

    /** Axis-separated movement: x moves to the advanced value when that
        spot is free at the old y, then y moves to its advanced value when
        that spot is free at the new x. */
    method Move(velX: real, velY: real, dt: real, m: TileMap, entities: seq<Entity>, cfg: Config.Config)
      requires m.Valid()
      modifies this
      ensures var nx := Advance(old(x), velX, dt);
        x == if Free(nx, old(y), m, entities, cfg) then nx else old(x)
      ensures var ny := Advance(old(y), velY, dt);
        y == if Free(x, ny, m, entities, cfg) then ny else old(y)
      ensures Free(old(x), old(y), m, entities, cfg) ==> Free(x, y, m, entities, cfg)
      ensures hp == old(hp) && angle == old(angle) && pitch == old(pitch) && z == old(z) && vz == old(vz)
      ensures dashTimer == old(dashTimer) && dashCooldownTimer == old(dashCooldownTimer)
      ensures dashDirX == old(dashDirX) && dashDirY == old(dashDirY) && recoilOffset == old(recoilOffset)
    {
      var newX := Advance(x, velX, dt);
      var blockedX := CollidesWithEntity(newX, y, entities, cfg);
      if !CollidesAt(newX, y, m, cfg) && !blockedX {
        x := newX;
      }

      var newY := Advance(y, velY, dt);
      var blockedY := CollidesWithEntity(x, newY, entities, cfg);
      if !CollidesAt(x, newY, m, cfg) && !blockedY {
        y := newY;
      }
    }

    /** The dash bookkeeping of one tick: the cooldown runs down; a dash
        starts when one is asked for and neither timer runs, taking the
        direction's vector at heading (cos, sin); then a running dash
        runs down. `dashing` says whether the dash adds its velocity. */
    method StepDash(dir: Option<DashDir>, dt: real, cos: real, sin: real, cfg: Config.Config) returns (dashing: bool)
      modifies this
      ensures var cd := if old(dashCooldownTimer) > 0.0 then old(dashCooldownTimer) - dt else old(dashCooldownTimer);
        var starts := dir.Some? && cd <= 0.0 && old(dashTimer) <= 0.0;
        var t0 := if starts then cfg.dashDuration else old(dashTimer);
        && (starts ==> dashCooldownTimer == cfg.dashCooldown && (dashDirX, dashDirY) == DashVector(dir.value, cos, sin))
        && (!starts ==> dashCooldownTimer == cd && dashDirX == old(dashDirX) && dashDirY == old(dashDirY))
        && dashing == (t0 > 0.0)
        && dashTimer == (if t0 > 0.0 then t0 - dt else t0)
      ensures x == old(x) && y == old(y) && hp == old(hp) && angle == old(angle) && pitch == old(pitch)
      ensures z == old(z) && vz == old(vz) && recoilOffset == old(recoilOffset)
    {
      if dashCooldownTimer > 0.0 {
        dashCooldownTimer := dashCooldownTimer - dt;
      }

      if dir.Some? && dashCooldownTimer <= 0.0 && dashTimer <= 0.0 {
        dashTimer := cfg.dashDuration;
        dashCooldownTimer := cfg.dashCooldown;
        var dash := DashVector(dir.value, cos, sin);
        dashDirX := dash.0;
        dashDirY := dash.1;
      }

      dashing := dashTimer > 0.0;
      if dashing {
        dashTimer := dashTimer - dt;
      }
    }

    /** `updatePlayer` for one tick of `dt` seconds. `ml` supplies the
        cosine, sine and square root of the source's math calls. */
    method Update(intent: Intent, dt: real, m: TileMap, entities: seq<Entity>, ml: MathLib, cfg: Config.Config)
      requires m.Valid() && cfg.maxPitch >= 0.0 && cfg.recoilDecay >= 0.0 && dt >= 0.0
      modifies this
      ensures angle == old(angle) + intent.mouseDelta * cfg.mouseSensitivity
      ensures pitch == ClampPitch(old(pitch) - intent.mouseDeltaY * cfg.pitchSensitivity, cfg.maxPitch)
      ensures (z, vz) == Vertical(old(z), old(vz), intent.jump, dt, cfg)
      ensures recoilOffset == DecayRecoil(old(recoilOffset), cfg.recoilDecay * dt)
      ensures hp == old(hp)
      ensures var cd := if old(dashCooldownTimer) > 0.0 then old(dashCooldownTimer) - dt else old(dashCooldownTimer);
        var starts := intent.dashDirection.Some? && cd <= 0.0 && old(dashTimer) <= 0.0;
        && (starts ==> dashCooldownTimer == cfg.dashCooldown
                       && (dashDirX, dashDirY) == DashVector(intent.dashDirection.value, ml.cos(angle), ml.sin(angle)))
        && (!starts ==> dashCooldownTimer == cd && dashDirX == old(dashDirX) && dashDirY == old(dashDirY))
        && (var t0 := if starts then cfg.dashDuration else old(dashTimer);
            dashTimer == if t0 > 0.0 then t0 - dt else t0)
      ensures var cd := if old(dashCooldownTimer) > 0.0 then old(dashCooldownTimer) - dt else old(dashCooldownTimer);
        var starts := intent.dashDirection.Some? && cd <= 0.0 && old(dashTimer) <= 0.0;
        var t0 := if starts then cfg.dashDuration else old(dashTimer);
        var v := Velocity(intent, t0 > 0.0, dashDirX, dashDirY, ml.cos(angle), ml.sin(angle), ml.sqrt, cfg);
        var nx := Advance(old(x), v.0, dt);
        var ny := Advance(old(y), v.1, dt);
        && x == (if Free(nx, old(y), m, entities, cfg) then nx else old(x))
        && y == (if Free(x, ny, m, entities, cfg) then ny else old(y))
      ensures Free(old(x), old(y), m, entities, cfg) ==> Free(x, y, m, entities, cfg)
    {
      Look(intent, cfg);
      Fall(intent.jump, dt, cfg);
      RecoverRecoil(dt, cfg);

      var cos := ml.cos(angle);
      var sin := ml.sin(angle);

      var dashing := StepDash(intent.dashDirection, dt, cos, sin, cfg);
      var vel := Velocity(intent, dashing, dashDirX, dashDirY, cos, sin, ml.sqrt, cfg);
      Move(vel.0, vel.1, dt, m, entities, cfg);
    }
  }
}
