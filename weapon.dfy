/** The weapon: cooldown and muzzle-flash timers, machine-gun spread that
    grows under sustained fire and recovers when the trigger is released,
    the hold-to-fire machine gun and the tap-to-fire shotgun, and the
    nearest-entity hitscan along a ray. */
module Weapon {
  import opened Js
  import opened Entities
  import opened Projectiles
  import opened Input
  import Player
  import Config

  datatype Mode = IdleMode | MachineGun | ShotgunFired

  /** The fields of a weapon, as a value. */
  datatype WeaponState = WeaponState(cooldownTimer: real, spread: real, muzzleFlash: real, recoilKick: real, mode: Mode)

  /** `createWeaponState`. */
  function Initial(cfg: Config.Config): (w: WeaponState)
    ensures w.cooldownTimer == 0.0 && w.muzzleFlash == 0.0 && w.recoilKick == 0.0 && w.mode == IdleMode
    ensures w.spread == cfg.machineGunSpread
  {
    WeaponState(0.0, cfg.machineGunSpread, 0.0, 0.0, IdleMode)
  }

  /** A timer that runs down by `dt` while positive. */
  function RunDown(t: real, dt: real): (r: real)
    ensures t > 0.0 ==> r == t - dt
    ensures t <= 0.0 ==> r == t
  {
    if t > 0.0 then t - dt else t
  }

  /** Seconds between machine-gun shots. */
  function ShotInterval(cfg: Config.Config): (r: real)
    requires cfg.machineGunFireRate > 0.0
    ensures r > 0.0
  {
    1.0 / cfg.machineGunFireRate
  }

  /** How much spread recovers in `dt` seconds without firing. */
  function SpreadRecovery(dt: real, cfg: Config.Config): real
  {
    cfg.machineGunSpreadGrowth * 5.0 * dt
  }

  /** The spread after the recovery step: shrinks toward, but never below,
      the base spread while the trigger is not held. */
  function Recovered(spread: real, firing: bool, dt: real, cfg: Config.Config): (r: real)
    ensures firing ==> r == spread
    ensures !firing ==> r >= cfg.machineGunSpread
    ensures !firing && SpreadRecovery(dt, cfg) >= 0.0 && spread >= cfg.machineGunSpread ==> r <= spread
  {
    if !firing then MaxR(cfg.machineGunSpread, spread - SpreadRecovery(dt, cfg)) else spread
  }

  /** Which modes fire in an update: the machine gun when the trigger is
      held and the cooldown has run out; the shotgun on a tap when the
      cooldown has run out and the machine gun did not just fire. */
  function Fired(w: WeaponState, intent: Intent, dt: real, cfg: Config.Config): (f: (bool, bool))
    requires cfg.machineGunFireRate > 0.0
    ensures f.0 <==> intent.firing && RunDown(w.cooldownTimer, dt) <= 0.0
    ensures f.1 <==> intent.shotgunTap && RunDown(w.cooldownTimer, dt) <= 0.0 && !f.0
    ensures !(f.0 && f.1)
  {
    var cd := RunDown(w.cooldownTimer, dt);
    var mg := intent.firing && cd <= 0.0;
    var cdAfter := if mg then ShotInterval(cfg) else cd;
    (mg, intent.shotgunTap && cdAfter <= 0.0)
  }

  /** The weapon's fields after `updateWeapon`. */
  function Next(w: WeaponState, intent: Intent, dt: real, cfg: Config.Config): (r: WeaponState)
    requires cfg.machineGunFireRate > 0.0
    ensures r.recoilKick == w.recoilKick
    ensures Fired(w, intent, dt, cfg).0 ==> r.cooldownTimer == ShotInterval(cfg) && r.muzzleFlash == 0.05
    ensures Fired(w, intent, dt, cfg).1 ==> r.cooldownTimer == cfg.shotgunCooldown && r.muzzleFlash == 0.1
    ensures !Fired(w, intent, dt, cfg).0 && !Fired(w, intent, dt, cfg).1 ==>
      r.cooldownTimer == RunDown(w.cooldownTimer, dt) && r.muzzleFlash == RunDown(w.muzzleFlash, dt)
    ensures Fired(w, intent, dt, cfg).0 ==> r.spread == MinR(cfg.machineGunSpreadMax, w.spread + cfg.machineGunSpreadGrowth)
    ensures !Fired(w, intent, dt, cfg).0 ==> r.spread == Recovered(w.spread, intent.firing, dt, cfg)
    ensures !intent.firing && !intent.shotgunTap ==> r.mode == IdleMode
    ensures Fired(w, intent, dt, cfg).0 ==> r.mode == MachineGun
    ensures Fired(w, intent, dt, cfg).1 ==> r.mode == ShotgunFired
    ensures (intent.firing || intent.shotgunTap) && !Fired(w, intent, dt, cfg).0 && !Fired(w, intent, dt, cfg).1 ==>
      r.mode == w.mode
  {
    var f := Fired(w, intent, dt, cfg);
    var w0 := WeaponState(RunDown(w.cooldownTimer, dt), Recovered(w.spread, intent.firing, dt, cfg),
                          RunDown(w.muzzleFlash, dt), w.recoilKick, w.mode);
    var w1 := if f.0 then w0.(mode := MachineGun, cooldownTimer := ShotInterval(cfg), muzzleFlash := 0.05,
                              spread := MinR(cfg.machineGunSpreadMax, w0.spread + cfg.machineGunSpreadGrowth))
              else w0;
    var w2 := if f.1 then w1.(mode := ShotgunFired, cooldownTimer := cfg.shotgunCooldown, muzzleFlash := 0.1) else w1;
    if !intent.firing && !intent.shotgunTap then w2.(mode := IdleMode) else w2
  }

  /** Spread stays between the base spread and the maximum across updates. */
  lemma SpreadStaysInRange(w: WeaponState, intent: Intent, dt: real, cfg: Config.Config)
    requires cfg.machineGunFireRate > 0.0 && dt >= 0.0 && cfg.machineGunSpreadGrowth >= 0.0
    requires cfg.machineGunSpread <= w.spread <= cfg.machineGunSpreadMax
    ensures cfg.machineGunSpread <= Next(w, intent, dt, cfg).spread <= cfg.machineGunSpreadMax
  {
    MulNonNeg(cfg.machineGunSpreadGrowth * 5.0, dt);
  }

  /** The spread offset drawn from a random value: `(r - 0.5) * spread * 2`. */
  function SpreadAngle(r: real, spread: real): real
  {
    (r - 0.5) * spread * 2.0
  }

  /** A random value in [0, 1) puts the shot within `spread` of the aim. */
  lemma SpreadAngleBound(r: real, spread: real)
    requires 0.0 <= r < 1.0 && spread >= 0.0
    ensures -spread <= SpreadAngle(r, spread) <= spread
  {
    var a := 2.0 * r - 1.0;
    assert SpreadAngle(r, spread) == a * spread;
    MulNonNeg(1.0 - a, spread);
    MulNonNeg(1.0 + a, spread);
  }

  /** The direction of shotgun pellet `i`: the aim plus the i-th random spread. */
  function PelletAngle(angle: real, rng: Rng, i: nat, cfg: Config.Config): real
  {
    angle + SpreadAngle(rng(i), cfg.shotgunSpread)
  }

  /** The pool after the first `n` pellets of a shotgun shot. */
  function Volley(ps: seq<Projectile>, n: nat, x: real, y: real, angle: real, rng: Rng,
                  ml: MathLib, cfg: Config.Config): (r: seq<Projectile>)
    ensures |r| == |ps|
  {
    if n == 0 then ps
    else Spawned(Volley(ps, n - 1, x, y, angle, rng, ml, cfg), x, y, PelletAngle(angle, rng, n - 1, cfg),
                 cfg.projectileSpeed * 0.8, cfg.shotgunDamage, Some("#fa0"), ml, cfg)
  }

  /** Each pellet takes one more free slot, so `n` pellets take `n` slots,
      or all that are left. */
  lemma {:induction false} VolleyCount(ps: seq<Projectile>, n: nat, x: real, y: real, angle: real, rng: Rng,
                                       ml: MathLib, cfg: Config.Config)
    ensures CountActive(Volley(ps, n, x, y, angle, rng, ml, cfg)) == MinI(|ps|, CountActive(ps) + n)
  {
    if n == 0 {
      CountActiveBounds(ps);
    } else {
      var m: nat := n - 1;
      VolleyCount(ps, m, x, y, angle, rng, ml, cfg);
      PelletCount(ps, m, x, y, angle, rng, ml, cfg);
      MinStep(|ps|, CountActive(ps), CountActive(Volley(ps, m, x, y, angle, rng, ml, cfg)),
              CountActive(Volley(ps, n, x, y, angle, rng, ml, cfg)), n);
    }
  }

  /** Pellet `i` takes one more free slot, if there is one. */
  lemma PelletCount(ps: seq<Projectile>, i: nat, x: real, y: real, angle: real, rng: Rng, ml: MathLib, cfg: Config.Config)
    ensures CountActive(Volley(ps, i + 1, x, y, angle, rng, ml, cfg))
         == MinI(|ps|, CountActive(Volley(ps, i, x, y, angle, rng, ml, cfg)) + 1)
  {
    var before := Volley(ps, i, x, y, angle, rng, ml, cfg);
    VolleyNext(ps, i, x, y, angle, rng, ml, cfg);
    SpawnedCount(before, x, y, PelletAngle(angle, rng, i, cfg), cfg.projectileSpeed * 0.8, cfg.shotgunDamage,
                 Some("#fa0"), ml, cfg);
  }

  /** One more pellet is one more spawn. */
  lemma VolleyNext(ps: seq<Projectile>, i: nat, x: real, y: real, angle: real, rng: Rng, ml: MathLib, cfg: Config.Config)
    ensures Volley(ps, i + 1, x, y, angle, rng, ml, cfg)
         == Spawned(Volley(ps, i, x, y, angle, rng, ml, cfg), x, y, PelletAngle(angle, rng, i, cfg),
                    cfg.projectileSpeed * 0.8, cfg.shotgunDamage, Some("#fa0"), ml, cfg)
  {
  }

  lemma MinStep(len: int, c0: int, c1: int, c2: int, n: int)
    requires c1 == MinI(len, c0 + n - 1) && c2 == MinI(len, c1 + 1)
    ensures c2 == MinI(len, c0 + n)
  {
  }

  /** The recoil an update adds to the player: a small random kick for a
      machine-gun shot (random value 1), a full kick of random sign for a
      shotgun shot (the random value after the pellets'), nothing otherwise. */
  function RecoilKick(mg: bool, sg: bool, rng: Rng, cfg: Config.Config): (r: real)
    ensures !mg && !sg ==> r == 0.0
    ensures sg && !mg ==> r == cfg.shotgunRecoil || r == -cfg.shotgunRecoil
  {
    if mg then (rng(1) - 0.5) * cfg.machineGunRecoil
    else if sg then cfg.shotgunRecoil * (if rng(cfg.shotgunPellets) > 0.5 then 1.0 else -1.0)
    else 0.0
  }

  /** The pool after an update: one machine-gun projectile (random value 0
      for its spread), a shotgun volley, or no change. */
  function PoolAfter(ps: seq<Projectile>, w: WeaponState, intent: Intent, dt: real, px: real, py: real,
                     angle: real, rng: Rng, ml: MathLib, cfg: Config.Config): (r: seq<Projectile>)
    requires cfg.machineGunFireRate > 0.0
    ensures |r| == |ps|
  {
    var f := Fired(w, intent, dt, cfg);
    if f.0 then
      Spawned(ps, px, py, angle + SpreadAngle(rng(0), w.spread), cfg.projectileSpeed, cfg.machineGunDamage,
              Some("#ff0"), ml, cfg)
    else if f.1 then Volley(ps, cfg.shotgunPellets, px, py, angle, rng, ml, cfg)
    else ps
  }

  /** An update takes one slot for a machine-gun shot, `shotgunPellets`
      slots for a shotgun shot (either capped by the free slots), and none
      otherwise. */
  lemma PoolAfterCount(ps: seq<Projectile>, w: WeaponState, intent: Intent, dt: real, px: real, py: real,
                       angle: real, rng: Rng, ml: MathLib, cfg: Config.Config)
    requires cfg.machineGunFireRate > 0.0
    ensures var f := Fired(w, intent, dt, cfg);
      CountActive(PoolAfter(ps, w, intent, dt, px, py, angle, rng, ml, cfg))
        == MinI(|ps|, CountActive(ps) + (if f.0 then 1 else if f.1 then cfg.shotgunPellets else 0))
  {
    CountActiveBounds(ps);
    var f := Fired(w, intent, dt, cfg);
    if f.0 {
      SpawnedCount(ps, px, py, angle + SpreadAngle(rng(0), w.spread), cfg.projectileSpeed, cfg.machineGunDamage,
                   Some("#ff0"), ml, cfg);
    } else if f.1 {
      VolleyCount(ps, cfg.shotgunPellets, px, py, angle, rng, ml, cfg);
    }
  }

  class Weapon {
    var cooldownTimer: real
    var spread: real
    var muzzleFlash: real
    var recoilKick: real
    var mode: Mode

    function State(): WeaponState
      reads this
    {
      WeaponState(cooldownTimer, spread, muzzleFlash, recoilKick, mode)
    }

    /** `createWeaponState`. */
    constructor (cfg: Config.Config)
      ensures State() == Initial(cfg)
    {
      cooldownTimer := 0.0;
      spread := cfg.machineGunSpread;
      muzzleFlash := 0.0;
      recoilKick := 0.0;
      mode := IdleMode;
    }

    /** The timer and spread-recovery steps at the top of `updateWeapon`. */
    method Recover(intent: Intent, dt: real, cfg: Config.Config)
      modifies this
      ensures cooldownTimer == RunDown(old(cooldownTimer), dt) && muzzleFlash == RunDown(old(muzzleFlash), dt)
      ensures spread == Recovered(old(spread), intent.firing, dt, cfg)
      ensures mode == old(mode) && recoilKick == old(recoilKick)
    {
      if cooldownTimer > 0.0 {
        cooldownTimer := cooldownTimer - dt;
      }
      if muzzleFlash > 0.0 {
        muzzleFlash := muzzleFlash - dt;
      }

      if !intent.firing {
        spread := MaxR(cfg.machineGunSpread, spread - SpreadRecovery(dt, cfg));
      }
    }

    /** A machine-gun shot: one projectile within the current spread of the
        aim, a grown spread, and a small random recoil. */
    method FireMachineGun(player: Player.Player, pool: array<Projectile>, rng: Rng, ml: MathLib, cfg: Config.Config)
      requires cfg.machineGunFireRate > 0.0
      modifies this, player, pool
      ensures State() == old(State()).(mode := MachineGun, cooldownTimer := ShotInterval(cfg), muzzleFlash := 0.05,
                                       spread := MinR(cfg.machineGunSpreadMax, old(spread) + cfg.machineGunSpreadGrowth))
      ensures pool[..] == Spawned(old(pool[..]), player.x, player.y, player.angle + SpreadAngle(rng(0), old(spread)),
                                  cfg.projectileSpeed, cfg.machineGunDamage, Some("#ff0"), ml, cfg)
      ensures player.recoilOffset == old(player.recoilOffset) + RecoilKick(true, false, rng, cfg)
      ensures player.x == old(player.x) && player.y == old(player.y) && player.angle == old(player.angle)
      ensures player.hp == old(player.hp) && player.pitch == old(player.pitch)
      ensures player.z == old(player.z) && player.vz == old(player.vz)
      ensures player.dashTimer == old(player.dashTimer) && player.dashCooldownTimer == old(player.dashCooldownTimer)
      ensures player.dashDirX == old(player.dashDirX) && player.dashDirY == old(player.dashDirY)
    {
      mode := MachineGun;
      cooldownTimer := ShotInterval(cfg);
      muzzleFlash := 0.05;

      var fireAngle := player.angle + SpreadAngle(rng(0), spread);
      var slot := SpawnProjectile(pool, player.x, player.y, fireAngle,
                                  cfg.projectileSpeed, cfg.machineGunDamage, Some("#ff0"), ml, cfg);

      spread := MinR(cfg.machineGunSpreadMax, spread + cfg.machineGunSpreadGrowth);

      player.recoilOffset := player.recoilOffset + RecoilKick(true, false, rng, cfg);
    }

    /** A shotgun shot: `shotgunPellets` slower pellets, each with its own
        random spread, and a full recoil kick of random sign. */
    method FireShotgun(player: Player.Player, pool: array<Projectile>, rng: Rng, ml: MathLib, cfg: Config.Config)
      modifies this, player, pool
      ensures State() == old(State()).(mode := ShotgunFired, cooldownTimer := cfg.shotgunCooldown, muzzleFlash := 0.1)
      ensures pool[..] == Volley(old(pool[..]), cfg.shotgunPellets, player.x, player.y, player.angle, rng, ml, cfg)
      ensures player.recoilOffset == old(player.recoilOffset) + RecoilKick(false, true, rng, cfg)
      ensures player.x == old(player.x) && player.y == old(player.y) && player.angle == old(player.angle)
      ensures player.hp == old(player.hp) && player.pitch == old(player.pitch)
      ensures player.z == old(player.z) && player.vz == old(player.vz)
      ensures player.dashTimer == old(player.dashTimer) && player.dashCooldownTimer == old(player.dashCooldownTimer)
      ensures player.dashDirX == old(player.dashDirX) && player.dashDirY == old(player.dashDirY)
    {
      mode := ShotgunFired;
      cooldownTimer := cfg.shotgunCooldown;
      muzzleFlash := 0.1;

      SpawnPellets(pool, player.x, player.y, player.angle, rng, ml, cfg);

      player.recoilOffset := player.recoilOffset + RecoilKick(false, true, rng, cfg);
    }

    /** `updateWeapon`: runs the timers down, recovers or grows the spread,
        fires at most one mode into the pool and kicks the player's recoil.
        `rng(k)` is the k-th `Math.random()` of the call. */
    method Update(intent: Intent, dt: real, player: Player.Player, pool: array<Projectile>,
                  rng: Rng, ml: MathLib, cfg: Config.Config)
      requires cfg.machineGunFireRate > 0.0
      modifies this, player, pool
      ensures State() == Next(old(State()), intent, dt, cfg)
      ensures pool[..] == PoolAfter(old(pool[..]), old(State()), intent, dt, player.x, player.y, player.angle, rng, ml, cfg)
      ensures var f := Fired(old(State()), intent, dt, cfg);
        player.recoilOffset == old(player.recoilOffset) + RecoilKick(f.0, f.1, rng, cfg)
      ensures player.x == old(player.x) && player.y == old(player.y) && player.angle == old(player.angle)
      ensures player.hp == old(player.hp) && player.pitch == old(player.pitch)
      ensures player.z == old(player.z) && player.vz == old(player.vz)
      ensures player.dashTimer == old(player.dashTimer) && player.dashCooldownTimer == old(player.dashCooldownTimer)
      ensures player.dashDirX == old(player.dashDirX) && player.dashDirY == old(player.dashDirY)
    {
      ghost var w := State();
      ghost var f := Fired(w, intent, dt, cfg);

      Recover(intent, dt, cfg);

      if intent.firing && cooldownTimer <= 0.0 {
        FireMachineGun(player, pool, rng, ml, cfg);
      }

      if intent.shotgunTap && cooldownTimer <= 0.0 {
        FireShotgun(player, pool, rng, ml, cfg);
      }

      if !intent.firing && !intent.shotgunTap {
        mode := IdleMode;
      }
    }
  }

  /** The pellet loop of a shotgun shot. */
  method SpawnPellets(pool: array<Projectile>, x: real, y: real, angle: real, rng: Rng, ml: MathLib, cfg: Config.Config)
    modifies pool
    ensures pool[..] == Volley(old(pool[..]), cfg.shotgunPellets, x, y, angle, rng, ml, cfg)
  {
    ghost var ps := pool[..];
    for i := 0 to cfg.shotgunPellets
      invariant pool[..] == Volley(ps, i, x, y, angle, rng, ml, cfg)
    {
      var slot := SpawnProjectile(pool, x, y, PelletAngle(angle, rng, i, cfg),
                                  cfg.projectileSpeed * 0.8, cfg.shotgunDamage, Some("#fa0"), ml, cfg);
      VolleyNext(ps, i, x, y, angle, rng, ml, cfg);
    }
  }

  /** Where a hitscan ray starts and which way it points. */
  datatype Sight = Sight(x: real, y: real, dirX: real, dirY: real)

  function Sq(a: real): real
  {
    a * a
  }

  /** How far along the ray an entity's centre projects. */
  function Along(s: Sight, e: Entity): real
  {
    (e.x - s.x) * s.dirX + (e.y - s.y) * s.dirY
  }

  /** The distance from an entity's centre to the ray point at `t`. */
  function Offset(s: Sight, e: Entity, t: real, sqrt: real -> real): real
  {
    sqrt(Sq(s.x + s.dirX * t - e.x) + Sq(s.y + s.dirY * t - e.y))
  }

  /** An entity the ray passes through: active, alive, ahead of the shooter
      and with its centre closer to the ray than the entity radius. */
  predicate Crosses(s: Sight, e: Entity, sqrt: real -> real, cfg: Config.Config)
  {
    e.active && e.hp > 0 && Along(s, e) >= 0.0 && Offset(s, e, Along(s, e), sqrt) < cfg.entityRadius
  }

  /** The running (closest, closestDist) of `hitscanRay` after the first
      `n` entities. */
  function Scan(s: Sight, es: seq<Entity>, n: nat, maxDist: real, sqrt: real -> real, cfg: Config.Config): (Option<nat>, real)
    requires n <= |es|
  {
    if n == 0 then (None, maxDist)
    else
      var prev := Scan(s, es, n - 1, maxDist, sqrt, cfg);
      var e := es[n - 1];
      if !e.active || e.hp <= 0 then prev
      else
        var dot := Along(s, e);
        if dot < 0.0 || dot > prev.1 then prev
        else if Offset(s, e, dot, sqrt) < cfg.entityRadius then (Some(n - 1), dot)
        else prev
  }

  /** What the scan has found after `n` entities: the nearest crossed entity
      within `maxDist` (the last of equally near ones), or none when no
      crossed entity is that near. */
  lemma {:induction false} ScanNearest(s: Sight, es: seq<Entity>, n: nat, maxDist: real, sqrt: real -> real, cfg: Config.Config)
    requires n <= |es|
    ensures var r := Scan(s, es, n, maxDist, sqrt, cfg);
      && r.1 <= maxDist
      && (r.0.None? ==> r.1 == maxDist && forall j :: 0 <= j < n && Crosses(s, es[j], sqrt, cfg) ==> Along(s, es[j]) > maxDist)
      && (r.0.Some? ==> r.0.value < n && Crosses(s, es[r.0.value], sqrt, cfg) && Along(s, es[r.0.value]) == r.1)
      && (forall j :: 0 <= j < n && Crosses(s, es[j], sqrt, cfg) ==> r.1 <= Along(s, es[j]))
      && (r.0.Some? ==> forall j :: r.0.value < j < n && Crosses(s, es[j], sqrt, cfg) ==> Along(s, es[j]) > r.1)
  {
    if n > 0 {
      ScanNearest(s, es, n - 1, maxDist, sqrt, cfg);
    }
  }

  /** `hitscanRay`: the index of the nearest live entity the ray from the
      player at `angle` passes through within `maxDist`, or none. */
  method HitscanRay(px: real, py: real, angle: real, maxDist: real, entities: seq<Entity>, ml: MathLib, cfg: Config.Config)
    returns (closest: Option<nat>)
    ensures var s := Sight(px, py, ml.cos(angle), ml.sin(angle));
      && (closest.Some? ==> closest.value < |entities| && Crosses(s, entities[closest.value], ml.sqrt, cfg)
                            && Along(s, entities[closest.value]) <= maxDist)
      && (forall j :: 0 <= j < |entities| && Crosses(s, entities[j], ml.sqrt, cfg) && Along(s, entities[j]) <= maxDist ==>
            closest.Some? && Along(s, entities[closest.value]) <= Along(s, entities[j]))
      && (closest.Some? ==> forall j :: closest.value < j < |entities| && Crosses(s, entities[j], ml.sqrt, cfg) ==>
            Along(s, entities[j]) > Along(s, entities[closest.value]))
  {
    var dirX := ml.cos(angle);
    var dirY := ml.sin(angle);
    var s := Sight(px, py, dirX, dirY);
    closest := None;
    var closestDist := maxDist;

    for i := 0 to |entities|
      invariant (closest, closestDist) == Scan(s, entities, i, maxDist, ml.sqrt, cfg)
    {
      var e := entities[i];
      if !e.active || e.hp <= 0 {
        continue;
      }

      var dot := Along(s, e);
      if dot < 0.0 || dot > closestDist {
        continue;
      }

      var distToCenter := Offset(s, e, dot, ml.sqrt);

      if distToCenter < cfg.entityRadius {
        closestDist := dot;
        closest := Some(i);
      }
    }
    ScanNearest(s, entities, |entities|, maxDist, ml.sqrt, cfg);
  }
}
