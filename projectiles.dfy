/** The projectile pool: a fixed array of slots that are reused, never
    grown. Spawning takes the lowest free slot; a tick moves, expires and
    collides every active slot in order. */
module Projectiles {
  import opened Js
  import opened GameMap
  import opened Entities
  import Config

  const MaxProjectiles: nat := 100
  const DefaultColor: string := "#ff0"
  const SpriteScale: real := 0.2

  datatype Projectile = Projectile(
    x: real,
    y: real,
    dx: real,
    dy: real,
    speed: real,
    lifetime: real,
    damage: int,
    active: bool,
    color: string)

  /** The state every slot starts in. */
  const Idle := Projectile(0.0, 0.0, 0.0, 0.0, 0.0, 0.0, 0, false, DefaultColor)

  /** `createProjectilePool`: MaxProjectiles idle slots. */
  method CreatePool() returns (pool: array<Projectile>)
    ensures fresh(pool) && pool.Length == MaxProjectiles
    ensures forall i :: 0 <= i < pool.Length ==> pool[i] == Idle && !pool[i].active
  {
    pool := new Projectile[MaxProjectiles];
    for i := 0 to MaxProjectiles
      invariant forall j :: 0 <= j < i ==> pool[j] == Idle
    {
      pool[i] := Idle;
    }
  }

  /** The lowest-index inactive slot, if any. */
  function FirstFree(ps: seq<Projectile>): (r: Option<nat>)
    ensures r.None? <==> forall i :: 0 <= i < |ps| ==> ps[i].active
    ensures r.Some? ==> (r.value < |ps| && !ps[r.value].active
      && forall i :: 0 <= i < r.value ==> ps[i].active)
  {
    if |ps| == 0 then None
    else if !ps[0].active then Some(0)
    else
      var rest := FirstFree(ps[1..]);
      assert forall i :: 1 <= i < |ps| ==> ps[i] == ps[1..][i - 1];
      if rest.None? then None else Some(rest.value + 1)
  }

  /** The colour a projectile gets: the given one, or DefaultColor when it
      is absent or empty. */
  function ColorOr(color: Option<string>): (c: string)
    ensures c != ""
    ensures color.Some? && color.value != "" ==> c == color.value
  {
    if color.Some? && color.value != "" then color.value else DefaultColor
  }

  /** The contents of a freshly launched slot. */
  function Launched(x: real, y: real, angle: real, speed: real, damage: int, color: Option<string>,
                    ml: MathLib, cfg: Config.Config): (p: Projectile)
    ensures p.active && p.lifetime == cfg.projectileLifetime
    ensures p.x == x && p.y == y && p.speed == speed && p.damage == damage
    ensures p.color == ColorOr(color)
  {
    Projectile(x, y, ml.cos(angle), ml.sin(angle), speed, cfg.projectileLifetime, damage, true, ColorOr(color))
  }

  /** The pool after one spawn: the lowest free slot launched, or the same
      pool when every slot is in use. */
  function Spawned(ps: seq<Projectile>, x: real, y: real, angle: real, speed: real, damage: int,
                   color: Option<string>, ml: MathLib, cfg: Config.Config): (r: seq<Projectile>)
    ensures |r| == |ps|
  {
    var slot := FirstFree(ps);
    if slot.None? then ps else ps[slot.value := Launched(x, y, angle, speed, damage, color, ml, cfg)]
  }

  /** A spawn makes one more slot active unless the pool is full. */
  lemma SpawnedCount(ps: seq<Projectile>, x: real, y: real, angle: real, speed: real, damage: int,
                     color: Option<string>, ml: MathLib, cfg: Config.Config)
    ensures CountActive(Spawned(ps, x, y, angle, speed, damage, color, ml, cfg)) == MinI(|ps|, CountActive(ps) + 1)
  {
    CountActiveBounds(ps);
    var slot := FirstFree(ps);
    if slot.Some? {
      CountActiveUpdate(ps, slot.value, Launched(x, y, angle, speed, damage, color, ml, cfg));
    }
  }

  /** `spawnProjectile`: fills the lowest inactive slot and returns its
      index, or returns `None` and changes nothing when every slot is in use. */
  method SpawnProjectile(pool: array<Projectile>, x: real, y: real, angle: real, speed: real, damage: int,
                         color: Option<string>, ml: MathLib, cfg: Config.Config)
    returns (slot: Option<nat>)
    modifies pool
    ensures slot == FirstFree(old(pool[..]))
    ensures pool[..] == Spawned(old(pool[..]), x, y, angle, speed, damage, color, ml, cfg)
  {
    for i := 0 to pool.Length
      invariant forall j :: 0 <= j < i ==> pool[j].active
    {
      if !pool[i].active {
        pool[i] := Launched(x, y, angle, speed, damage, color, ml, cfg);
        return Some(i);
      }
    }
    return None;
  }

  /** The entities a projectile at (x, y) can hit: active, alive, and
      strictly closer than the sum of the two radii. */
  predicate Touches(x: real, y: real, e: Entity, cfg: Config.Config)
  {
    var r := cfg.entityRadius + cfg.projectileRadius;
    e.active && e.hp > 0 && (x - e.x) * (x - e.x) + (y - e.y) * (y - e.y) < r * r
  }

  /** The first entity a projectile at (x, y) touches. */
  function FirstTouched(x: real, y: real, es: seq<Entity>, cfg: Config.Config): (r: Option<nat>)
    ensures r.None? <==> forall j :: 0 <= j < |es| ==> !Touches(x, y, es[j], cfg)
    ensures r.Some? ==> (r.value < |es| && Touches(x, y, es[r.value], cfg)
      && forall j :: 0 <= j < r.value ==> !Touches(x, y, es[j], cfg))
  {
    if |es| == 0 then None
    else if Touches(x, y, es[0], cfg) then Some(0)
    else
      var rest := FirstTouched(x, y, es[1..], cfg);
      assert forall j :: 1 <= j < |es| ==> es[j] == es[1..][j - 1];
      if rest.None? then None else Some(rest.value + 1)
  }

  /** An entity struck by a projectile carrying `damage`. */
  function Struck(e: Entity, damage: int): Entity
  {
    e.(hp := e.hp - damage, hitFlash := 0.1)
  }

  /** Where a slot moves in `dt` seconds along its direction. */
  function NextX(p: Projectile, dt: real): real
  {
    p.x + p.dx * p.speed * dt
  }

  function NextY(p: Projectile, dt: real): real
  {
    p.y + p.dy * p.speed * dt
  }

  datatype Tick = Tick(p: Projectile, es: seq<Entity>)

  /** One slot's update: expire, stop at a wall, or move and then strike
      the first entity it touches. */
  function StepOne(p: Projectile, es: seq<Entity>, dt: real, m: TileMap, cfg: Config.Config): (r: Tick)
    requires m.Valid()
    ensures |r.es| == |es|
    ensures !p.active ==> r == Tick(p, es)
    ensures p.active && p.lifetime - dt <= 0.0 ==> r == Tick(p.(lifetime := p.lifetime - dt, active := false), es)
    ensures p.active && p.lifetime - dt > 0.0 && m.IsWall(Floor(NextX(p, dt)), Floor(NextY(p, dt))) ==>
      r == Tick(p.(lifetime := p.lifetime - dt, active := false), es)
    ensures p.active && p.lifetime - dt > 0.0 && !m.IsWall(Floor(NextX(p, dt)), Floor(NextY(p, dt))) ==>
      var t := FirstTouched(NextX(p, dt), NextY(p, dt), es, cfg);
      && r.p == p.(lifetime := p.lifetime - dt, x := NextX(p, dt), y := NextY(p, dt), active := t.None?)
      && r.es == (if t.None? then es else es[t.value := Struck(es[t.value], p.damage)])
    ensures r.p.active ==> r.es == es && !m.IsWall(Floor(r.p.x), Floor(r.p.y))
    ensures r.p.x == p.x || r.p.x == NextX(p, dt)
  {
    if !p.active then Tick(p, es)
    else
      var p1 := p.(lifetime := p.lifetime - dt);
      if p1.lifetime <= 0.0 then Tick(p1.(active := false), es)
      else
        var newX := NextX(p, dt);
        var newY := NextY(p, dt);
        if m.IsWall(Floor(newX), Floor(newY)) then Tick(p1.(active := false), es)
        else
          var p2 := p1.(x := newX, y := newY);
          var hit := FirstTouched(newX, newY, es, cfg);
          if hit.None? then Tick(p2, es)
          else Tick(p2.(active := false), es[hit.value := Struck(es[hit.value], p.damage)])
  }

  /** A slot strikes at most one entity per tick: the first live one it
      touches after moving, which loses the projectile's damage; the slot
      then deactivates. */
  lemma StrikesAtMostOne(p: Projectile, es: seq<Entity>, dt: real, m: TileMap, cfg: Config.Config)
    requires m.Valid()
    ensures var r := StepOne(p, es, dt, m, cfg);
      forall j :: 0 <= j < |es| && r.es[j] != es[j] ==>
        && r.es[j] == Struck(es[j], p.damage)
        && !r.p.active
        && Touches(r.p.x, r.p.y, es[j], cfg)
        && (forall k :: 0 <= k < |es| && k != j ==> r.es[k] == es[k])
        && (forall k :: 0 <= k < j ==> !Touches(r.p.x, r.p.y, es[k], cfg))
  {
  }

  /** The pool and entities after updating the first `n` slots in order. */
  function UpdateUpTo(ps: seq<Projectile>, es: seq<Entity>, n: nat, dt: real, m: TileMap, cfg: Config.Config)
    : (r: (seq<Projectile>, seq<Entity>))
    requires m.Valid() && n <= |ps|
    ensures |r.0| == n && |r.1| == |es|
  {
    if n == 0 then ([], es)
    else
      var prev := UpdateUpTo(ps, es, n - 1, dt, m, cfg);
      var t := StepOne(ps[n - 1], prev.1, dt, m, cfg);
      (prev.0 + [t.p], t.es)
  }

  /** A tick never touches the inactive slots. */
  lemma {:induction false} InactiveSlotsUnchanged(ps: seq<Projectile>, es: seq<Entity>, n: nat, dt: real, m: TileMap, cfg: Config.Config)
    requires m.Valid() && n <= |ps|
    ensures forall i :: 0 <= i < n && !ps[i].active ==> UpdateUpTo(ps, es, n, dt, m, cfg).0[i] == ps[i]
  {
    if n > 0 {
      InactiveSlotsUnchanged(ps, es, n - 1, dt, m, cfg);
    }
  }

  /** Every slot still active after a tick sits outside any wall. */
  lemma {:induction false} ActiveSlotsOutsideWalls(ps: seq<Projectile>, es: seq<Entity>, n: nat, dt: real, m: TileMap, cfg: Config.Config)
    requires m.Valid() && n <= |ps|
    ensures forall i :: 0 <= i < n && UpdateUpTo(ps, es, n, dt, m, cfg).0[i].active ==>
      !m.IsWall(Floor(UpdateUpTo(ps, es, n, dt, m, cfg).0[i].x), Floor(UpdateUpTo(ps, es, n, dt, m, cfg).0[i].y))
  {
    if n > 0 {
      ActiveSlotsOutsideWalls(ps, es, n - 1, dt, m, cfg);
    }
  }

  /** The first touched entity is the one at a touched index with no
      touched index before it. */
  lemma FirstTouchedAt(x: real, y: real, es: seq<Entity>, j: nat, cfg: Config.Config)
    requires j < |es| && Touches(x, y, es[j], cfg)
    requires forall k :: 0 <= k < j ==> !Touches(x, y, es[k], cfg)
    ensures FirstTouched(x, y, es, cfg) == Some(j)
  {
  }

  /** The entity scan of one moved projectile: strikes the first entity
      it touches, if any, and says whether it did. */
  method StrikeFirst(entities: array<Entity>, x: real, y: real, damage: int, cfg: Config.Config)
    returns (struck: bool)
    modifies entities
    ensures var hit := FirstTouched(x, y, old(entities[..]), cfg);
      && (struck <==> hit.Some?)
      && entities[..] == if hit.None? then old(entities[..])
                         else old(entities[..])[hit.value := Struck(old(entities[hit.value]), damage)]
  {
    for j := 0 to entities.Length
      invariant entities[..] == old(entities[..])
      invariant forall k :: 0 <= k < j ==> !Touches(x, y, entities[k], cfg)
    {
      var e := entities[j];
      if !e.active || e.hp <= 0 {
        continue;
      }
      var dx := x - e.x;
      var dy := y - e.y;
      var dist := dx * dx + dy * dy;
      var r := cfg.entityRadius + cfg.projectileRadius;
      if dist < r * r {
        FirstTouchedAt(x, y, entities[..], j, cfg);
        entities[j] := e.(hp := e.hp - damage, hitFlash := 0.1);
        return true;
      }
    }
    return false;
  }

  /** One slot of `updateProjectiles`. */
  method StepSlot(pool: array<Projectile>, i: nat, dt: real, m: TileMap, entities: array<Entity>, cfg: Config.Config)
    requires m.Valid() && i < pool.Length
    modifies pool, entities
    ensures var t := StepOne(old(pool[i]), old(entities[..]), dt, m, cfg);
      pool[..] == old(pool[..])[i := t.p] && entities[..] == t.es
  {
    ghost var t := StepOne(pool[i], entities[..], dt, m, cfg);
    var p := pool[i];
    if !p.active {
      assert t.p == p && t.es == entities[..];
      return;
    }

    p := p.(lifetime := p.lifetime - dt);
    if p.lifetime <= 0.0 {
      pool[i] := p.(active := false);
      assert t.p == pool[i] && t.es == entities[..];
      return;
    }

    var newX := NextX(pool[i], dt);
    var newY := NextY(pool[i], dt);

    if m.IsWall(Floor(newX), Floor(newY)) {
      pool[i] := p.(active := false);
      assert t.p == pool[i] && t.es == entities[..];
      return;
    }

    p := p.(x := newX, y := newY);
    pool[i] := p;

    ghost var hit := FirstTouched(p.x, p.y, entities[..], cfg);
    var struck := StrikeFirst(entities, p.x, p.y, p.damage, cfg);
    if struck {
      pool[i] := p.(active := false);
    }
    assert t.p == pool[i];
  }

  /** `updateProjectiles`: one tick for every slot in pool order; a slot's
      hit lowers that entity's hit points before the next slot moves. */
  method UpdateProjectiles(pool: array<Projectile>, dt: real, m: TileMap, entities: array<Entity>, cfg: Config.Config)
    requires m.Valid()
    modifies pool, entities
    ensures (pool[..], entities[..]) == UpdateUpTo(old(pool[..]), old(entities[..]), pool.Length, dt, m, cfg)
  {
    ghost var ps := pool[..];
    ghost var es0 := entities[..];
    for i := 0 to pool.Length
      invariant pool[..i] == UpdateUpTo(ps, es0, i, dt, m, cfg).0
      invariant pool[i..] == ps[i..]
      invariant entities[..] == UpdateUpTo(ps, es0, i, dt, m, cfg).1
    {
      assert pool[i] == ps[i];
      StepSlot(pool, i, dt, m, entities, cfg);
      assert pool[..i + 1] == pool[..i] + [pool[i]];
    }
    assert pool[..] == pool[..pool.Length];
  }

  /** The sprite of an active slot: a small sprite in the slot's colour. */
  function SpriteOf(p: Projectile): (s: Sprite)
    ensures s.x == p.x && s.y == p.y && s.color == p.color
    ensures s.scale == SpriteScale && s.entity.None?
  {
    Sprite(p.x, p.y, p.color, SpriteScale, None)
  }

  /** How many slots are in use. */
  function CountActive(ps: seq<Projectile>): nat
  {
    CountUpTo(ps, |ps|)
  }

  /** How many of the first `k` slots are in use. */
  function CountUpTo(ps: seq<Projectile>, k: nat): nat
    requires k <= |ps|
  {
    if k == 0 then 0 else CountUpTo(ps, k - 1) + Used(ps[k - 1])
  }

  function Used(p: Projectile): nat
  {
    if p.active then 1 else 0
  }

  /** At most `k` of the first `k` slots are in use, and exactly `k` only
      when none of them is free. */
  lemma {:induction false} CountUpToBounds(ps: seq<Projectile>, k: nat)
    requires k <= |ps|
    ensures CountUpTo(ps, k) <= k
    ensures CountUpTo(ps, k) == k <==> forall i :: 0 <= i < k ==> ps[i].active
  {
    if k > 0 {
      CountUpToBounds(ps, k - 1);
    }
  }

  /** At most every slot is in use, and exactly every slot only when none is free. */
  lemma CountActiveBounds(ps: seq<Projectile>)
    ensures CountActive(ps) <= |ps|
    ensures CountActive(ps) == |ps| <==> forall i :: 0 <= i < |ps| ==> ps[i].active
  {
    CountUpToBounds(ps, |ps|);
  }

  /** Replacing slot `i` changes the count of a prefix holding it by the
      difference of the two slots, and leaves a shorter prefix alone. */
  lemma {:induction false} CountUpToUpdate(ps: seq<Projectile>, k: nat, i: nat, p: Projectile)
    requires i < |ps| && k <= |ps|
    ensures CountUpTo(ps[i := p], k) + (if i < k then Used(ps[i]) else 0)
         == CountUpTo(ps, k) + (if i < k then Used(p) else 0)
  {
    if k > 0 {
      CountUpToUpdate(ps, k - 1, i, p);
    }
  }

  /** Replacing one slot changes the count by the difference of the two slots. */
  lemma CountActiveUpdate(ps: seq<Projectile>, i: nat, p: Projectile)
    requires i < |ps|
    ensures CountActive(ps[i := p]) + Used(ps[i]) == CountActive(ps) + Used(p)
  {
    CountUpToUpdate(ps, |ps|, i, p);
  }

  /** The indices of the active slots among the first `k`, ascending. */
  function ActiveSlots(ps: seq<Projectile>, k: nat): (ix: seq<nat>)
    requires k <= |ps|
    ensures |ix| == CountUpTo(ps, k)
    ensures forall j :: 0 <= j < |ix| ==> ix[j] < k && ps[ix[j]].active
    ensures forall j, j' :: 0 <= j < j' < |ix| ==> ix[j] < ix[j']
    ensures forall i :: 0 <= i < k && ps[i].active ==> i in ix
  {
    if k == 0 then []
    else ActiveSlots(ps, k - 1) + (if ps[k - 1].active then [k - 1] else [])
  }

  /** The sprites of the active slots among the first `k`: one per active
      slot, in pool order. */
  function SpritesUpTo(ps: seq<Projectile>, k: nat): (r: seq<Sprite>)
    requires k <= |ps|
    ensures |r| == |ActiveSlots(ps, k)| == CountUpTo(ps, k)
    ensures forall j :: 0 <= j < |r| ==> r[j] == SpriteOf(ps[ActiveSlots(ps, k)[j]])
  {
    if k == 0 then []
    else SpritesUpTo(ps, k - 1) + (if ps[k - 1].active then [SpriteOf(ps[k - 1])] else [])
  }

  /** Every sprite is a small untagged one, and every active slot among
      the first `k` has its sprite in the list. */
  lemma SpritesOfActiveSlots(ps: seq<Projectile>, k: nat)
    requires k <= |ps|
    ensures var r := SpritesUpTo(ps, k);
      && (forall j :: 0 <= j < |r| ==> r[j].scale == SpriteScale && r[j].entity.None?)
      && (forall i :: 0 <= i < k && ps[i].active ==> SpriteOf(ps[i]) in r)
  {
    var r := SpritesUpTo(ps, k);
    var ix := ActiveSlots(ps, k);
    forall i | 0 <= i < k && ps[i].active
      ensures SpriteOf(ps[i]) in r
    {
      var j :| 0 <= j < |ix| && ix[j] == i;
      assert r[j] == SpriteOf(ps[i]);
    }
  }

  /** `getProjectileSpriteList`: one sprite per active slot, in pool order. */
  method ProjectileSprites(pool: array<Projectile>) returns (list: seq<Sprite>)
    ensures list == SpritesUpTo(pool[..], pool.Length)
    ensures |list| == CountActive(pool[..])
  {
    list := [];
    for i := 0 to pool.Length
      invariant list == SpritesUpTo(pool[..], i)
    {
      var p := pool[i];
      if !p.active {
        continue;
      }
      list := list + [SpriteOf(p)];
    }
  }
}
