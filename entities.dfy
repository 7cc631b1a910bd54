/** Enemies and pickups: spawning from level definitions, the per-tick
    lifecycle (active, then dying, then inactive) and the sprite records
    the renderer draws for them. */
module Entities {
  import opened Js
  import GameMap

  /** Seconds a dying entity keeps being drawn before it is removed. */
  const DeathDuration: real := 0.4

  datatype Entity = Entity(
    kind: string,
    x: real,
    y: real,
    hp: int,
    maxHp: int,
    speed: real,
    color: string,
    scale: real,
    state: string,
    stateTimer: real,
    active: bool,
    hitFlash: real,
    dying: bool,
    deathTimer: real)

  /** The stats an entity type starts with. */
  datatype TypeDef = TypeDef(hp: int, speed: real, color: string, scale: real)

  predicate KnownKind(kind: string)
  {
    kind in {"grunt", "charger", "turret", "tank", "health"}
  }

  const GruntDef := TypeDef(100, 2.0, "#e44", 1.0)

  /** The stats of a type; a kind the table does not list gets grunt stats. */
  function TypeDefOf(kind: string): (t: TypeDef)
    ensures (kind == "grunt" || !KnownKind(kind)) <==> t == GruntDef
    ensures kind == "health" ==> t.hp == 0
    ensures kind != "health" ==> t.hp > 0 && t.scale > 0.0
  {
    if kind == "charger" then TypeDef(60, 5.0, "#e82", 0.9)
    else if kind == "turret" then TypeDef(150, 0.0, "#88e", 1.1)
    else if kind == "tank" then TypeDef(300, 1.0, "#a4a", 1.4)
    else if kind == "health" then TypeDef(0, 0.0, "#4e4", 0.6)
    else GruntDef
  }

  /** A fresh entity for one level definition. */
  function Spawn(def: GameMap.EntityDef): (e: Entity)
    ensures e.kind == def.kind && e.x == def.x && e.y == def.y
    ensures e.hp == e.maxHp == TypeDefOf(def.kind).hp
    ensures e.active && !e.dying && e.hitFlash == 0.0 && e.deathTimer == 0.0
  {
    var t := TypeDefOf(def.kind);
    Entity(def.kind, def.x, def.y, t.hp, t.hp, t.speed, t.color, t.scale, "idle", 0.0, true, 0.0, false, 0.0)
  }

  /** `spawnEntities`: one entity per definition, in order. */
  function SpawnEntities(defs: seq<GameMap.EntityDef>): (es: seq<Entity>)
    ensures |es| == |defs|
    ensures forall i :: 0 <= i < |defs| ==> es[i] == Spawn(defs[i])
  {
    seq(|defs|, i requires 0 <= i < |defs| => Spawn(defs[i]))
  }

  /** How far along its lifecycle an entity is: 0 alive, 1 dying, 2 removed. */
  function Phase(e: Entity): int
  {
    if !e.active then 2 else if e.dying then 1 else 0
  }

  /** One entity's update for a tick of `dt` seconds. */
  function Step(e: Entity, dt: real): (r: Entity)
    ensures !e.active ==> r == e
    ensures e.active && e.hitFlash > 0.0 ==> r.hitFlash == e.hitFlash - dt
    ensures e.hitFlash <= 0.0 ==> r.hitFlash == e.hitFlash
    ensures e.active && e.dying ==> r.dying && r.deathTimer == e.deathTimer + dt
    ensures e.active && e.dying ==> (r.active <==> e.deathTimer + dt < DeathDuration)
    ensures e.active && !e.dying && e.hp <= 0 ==> r.active && r.dying && r.deathTimer == 0.0
    ensures e.active && !e.dying && e.hp > 0 ==> r == e.(hitFlash := r.hitFlash)
    ensures r.x == e.x && r.y == e.y && r.hp == e.hp && r.kind == e.kind
  {
    if !e.active then e
    else
      var e1 := if e.hitFlash > 0.0 then e.(hitFlash := e.hitFlash - dt) else e;
      if e1.dying then
        var e2 := e1.(deathTimer := e1.deathTimer + dt);
        if e2.deathTimer >= DeathDuration then e2.(active := false) else e2
      else if e1.hp <= 0 then e1.(dying := true, deathTimer := 0.0)
      else e1
  }

  /** The lifecycle only moves forward: nothing re-activates an entity or
      clears `dying`, and a live entity at most starts dying in one tick. */
  lemma StepIsOneWay(e: Entity, dt: real)
    ensures Phase(e) <= Phase(Step(e, dt))
    ensures Phase(Step(e, dt)) <= Phase(e) + 1
    ensures e.dying ==> Step(e, dt).dying
  {
  }

  /** A health pickup spawns with no hit points, so its first update starts
      its death. */
  lemma HealthPickupDiesAtOnce(def: GameMap.EntityDef, dt: real)
    requires def.kind == "health"
    ensures Step(Spawn(def), dt).dying && Step(Spawn(def), dt).active
  {
  }

  /** `updateEntities`: advances every entity by one tick in place. */
  method UpdateEntities(entities: array<Entity>, dt: real)
    modifies entities
    ensures forall i :: 0 <= i < entities.Length ==> entities[i] == Step(old(entities[i]), dt)
  {
    for i := 0 to entities.Length
      invariant forall j :: 0 <= j < i ==> entities[j] == Step(old(entities[j]), dt)
      invariant forall j :: i <= j < entities.Length ==> entities[j] == old(entities[j])
    {
      var e := entities[i];
      if !e.active {
        continue;
      }
      if e.hitFlash > 0.0 {
        e := e.(hitFlash := e.hitFlash - dt);
      }
      if e.dying {
        e := e.(deathTimer := e.deathTimer + dt);
        if e.deathTimer >= DeathDuration {
          e := e.(active := false);
        }
        entities[i] := e;
        continue;
      }
      if e.hp <= 0 && !e.dying {
        e := e.(dying := true, deathTimer := 0.0);
      }
      entities[i] := e;
    }
  }

  /** What the sprite stage draws: a world position, a colour string, a
      size factor, and the entity it came from (none for a projectile). */
  datatype Sprite = Sprite(x: real, y: real, color: string, scale: real, entity: Option<Entity>)

  /** The red of a dying entity's colour, as `rgb(r,0,0)` text. */
  function DyingColor(t: real): string
  {
    "rgb(" + IntText(Floor(200.0 * (1.0 - t))) + ",0,0)"
  }

  /** A dying entity's size `t` of the way through its death: it shrinks
      linearly to 30%. */
  function DyingScale(scale: real, t: real): real
  {
    scale * (1.0 - t * 0.7)
  }

  /** The sprite of one active entity: white while flashing from a hit,
      shrunk and reddened while dying. */
  function SpriteOf(e: Entity): (s: Sprite)
    ensures s.x == e.x && s.y == e.y && s.entity == Some(e)
    ensures !e.dying ==> s.scale == e.scale
    ensures !e.dying ==> s.color == (if e.hitFlash > 0.0 then "#fff" else e.color)
    ensures e.dying ==> s.scale == DyingScale(e.scale, e.deathTimer / DeathDuration)
    ensures e.dying ==> s.color == DyingColor(e.deathTimer / DeathDuration)
  {
    var color := if e.hitFlash > 0.0 then "#fff" else e.color;
    if e.dying then
      var t := e.deathTimer / DeathDuration;
      Sprite(e.x, e.y, DyingColor(t), DyingScale(e.scale, t), Some(e))
    else Sprite(e.x, e.y, color, e.scale, Some(e))
  }

  /** The positions of the active entities among the first `k`, ascending. */
  function ActiveIndices(es: seq<Entity>, k: nat): (ix: seq<nat>)
    requires k <= |es|
    ensures forall j :: 0 <= j < |ix| ==> ix[j] < k && es[ix[j]].active
    ensures forall j, j' :: 0 <= j < j' < |ix| ==> ix[j] < ix[j']
    ensures forall i :: 0 <= i < k && es[i].active ==> i in ix
  {
    if k == 0 then []
    else ActiveIndices(es, k - 1) + (if es[k - 1].active then [k - 1] else [])
  }

  /** The sprites of the active entities among the first `k`: one per
      active entity, in the entities' order. */
  function SpritesUpTo(es: seq<Entity>, k: nat): (r: seq<Sprite>)
    requires k <= |es|
    ensures |r| == |ActiveIndices(es, k)| <= k
    ensures forall j :: 0 <= j < |r| ==> r[j] == SpriteOf(es[ActiveIndices(es, k)[j]])
  {
    if k == 0 then []
    else SpritesUpTo(es, k - 1) + (if es[k - 1].active then [SpriteOf(es[k - 1])] else [])
  }

  /** Every sprite comes from an active entity among the first `k`, and
      every such entity has its sprite in the list. */
  lemma SpritesOfActive(es: seq<Entity>, k: nat)
    requires k <= |es|
    ensures var r := SpritesUpTo(es, k);
      && (forall j :: 0 <= j < |r| ==>
            r[j].entity.Some? && r[j].entity.value in es[..k] && r[j].entity.value.active && r[j] == SpriteOf(r[j].entity.value))
      && (forall i :: 0 <= i < k && es[i].active ==> SpriteOf(es[i]) in r)
  {
    var r := SpritesUpTo(es, k);
    var ix := ActiveIndices(es, k);
    forall j | 0 <= j < |r|
      ensures r[j].entity.value in es[..k]
    {
      assert es[..k][ix[j]] == es[ix[j]];
    }
    forall i | 0 <= i < k && es[i].active
      ensures SpriteOf(es[i]) in r
    {
      var j :| 0 <= j < |ix| && ix[j] == i;
      assert r[j] == SpriteOf(es[i]);
    }
  }

  /** `getEntitySpriteList`: the sprites of the active entities, in order. */
  method EntitySprites(entities: seq<Entity>) returns (list: seq<Sprite>)
    ensures list == SpritesUpTo(entities, |entities|)
    ensures forall j :: 0 <= j < |list| ==> list[j].entity.Some? && list[j].entity.value in entities
  {
    list := [];
    for i := 0 to |entities|
      invariant list == SpritesUpTo(entities, i)
    {
      var e := entities[i];
      if !e.active {
        continue;
      }

      var scale := e.scale;
      var color := if e.hitFlash > 0.0 then "#fff" else e.color;

      if e.dying {
        var t := e.deathTimer / DeathDuration;
        scale := DyingScale(scale, t);
        color := DyingColor(t);
      }

      list := list + [Sprite(e.x, e.y, color, scale, Some(e))];
    }
    assert entities[..|entities|] == entities;
    SpritesOfActive(entities, |entities|);
  }
}
