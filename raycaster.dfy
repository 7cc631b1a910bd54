/** Grid-DDA ray casting: one ray per screen column, stepping one cell
    boundary at a time until it enters a cell with a non-zero texture id or
    runs past the maximum cast distance. */
module Raycaster {
  import opened Js
  import opened GameMap
  import Config

  /** What a column's ray found. `side` is 0 when an x grid line was crossed
      last and 1 for a y grid line. */
  datatype Hit = Hit(perpDist: real, side: int, tile: int, wallX: real, mapX: int, mapY: int, height: int)

  /** Facing direction and camera plane; the plane is the facing vector
      turned a quarter and scaled by tan(fov / 2). */
  datatype Basis = Basis(dirX: real, dirY: real, planeX: real, planeY: real)

  datatype RayResult = RayResult(hits: seq<Option<Hit>>, basis: Basis)

  /** The part of the player the caster reads. */
  datatype Pose = Pose(x: real, y: real, angle: real, recoilOffset: real)

  /** Per-column constants of one ray. */
  datatype Ray = Ray(px: real, py: real, rayDirX: real, rayDirY: real, stepX: int, stepY: int, deltaX: Ext, deltaY: Ext)

  /** The DDA state: current cell, the two side-distance accumulators and
      the axis crossed last. */
  datatype Dda = Dda(mapX: int, mapY: int, sideX: Ext, sideY: Ext, side: int)

  function CameraBasis(dirX: real, dirY: real, planeLen: real): (b: Basis)
    ensures b.dirX == dirX && b.dirY == dirY
    ensures b.planeX * dirX + b.planeY * dirY == 0.0
    ensures b.planeX == -dirY * planeLen && b.planeY == dirX * planeLen
  {
    Basis(dirX, dirY, -dirY * planeLen, dirX * planeLen)
  }

  /** The column's position across the camera plane. */
  function CameraX(col: int, w: int): (c: real)
    requires 0 <= col < w
    ensures -1.0 <= c < 1.0
  {
    assert col as real < w as real;
    assert 2.0 * col as real / w as real < 2.0 by {
      assert 2.0 * col as real < 2.0 * w as real;
    }
    2.0 * col as real / w as real - 1.0
  }

  function RayDirX(b: Basis, col: int, w: int): real
    requires 0 <= col < w
  {
    b.dirX + b.planeX * CameraX(col, w)
  }

  function RayDirY(b: Basis, col: int, w: int): real
    requires 0 <= col < w
  {
    b.dirY + b.planeY * CameraX(col, w)
  }

  /** `Math.abs(1 / rayDir)`, which is `Infinity` for a zero component. */
  function DeltaDist(rayDir: real): (d: Ext)
    ensures d.Inf? <==> rayDir == 0.0
    ensures d.Fin? ==> d.r > 0.0 && d.r * Abs(rayDir) == 1.0
  {
    if rayDir == 0.0 then Inf else Fin(Abs(1.0 / rayDir))
  }

  /** The grid step along one axis: -1 exactly when the ray component is negative. */
  function AxisStep(rayDir: real): (s: int)
    ensures s == -1 || s == 1
    ensures s == -1 <==> rayDir < 0.0
  {
    if rayDir < 0.0 then -1 else 1
  }

  /** The initial side distance along one axis: the distance from `pos` to
      the next grid line in the step direction, times `delta`. */
  function InitialSide(pos: real, rayDir: real, delta: Ext): (d: Ext)
    requires delta.Inf? <==> rayDir == 0.0
    requires delta.Fin? ==> delta.r > 0.0
    ensures d.Fin? <==> delta.Fin?
    ensures d.Fin? ==> 0.0 <= d.r <= delta.r
    ensures d.Fin? && rayDir < 0.0 ==> d.r == (pos - Floor(pos) as real) * delta.r
    ensures d.Fin? && rayDir >= 0.0 ==> d.r == (Floor(pos) as real + 1.0 - pos) * delta.r
  {
    var cell := Floor(pos);
    var f := if rayDir < 0.0 then pos - cell as real else cell as real + 1.0 - pos;
    assert 0.0 <= f <= 1.0;
    assert delta.Fin? ==> f * delta.r <= delta.r by {
      if delta.Fin? {
        assert (1.0 - f) * delta.r >= 0.0;
      }
    }
    Scale(f, delta)
  }

  function RayFor(px: real, py: real, b: Basis, col: int, w: int): (r: Ray)
    requires 0 <= col < w
  {
    var rx := RayDirX(b, col, w);
    var ry := RayDirY(b, col, w);
    Ray(px, py, rx, ry, AxisStep(rx), AxisStep(ry), DeltaDist(rx), DeltaDist(ry))
  }

  function Start(r: Ray): (s: Dda)
    requires r.deltaX.Inf? <==> r.rayDirX == 0.0
    requires r.deltaY.Inf? <==> r.rayDirY == 0.0
    requires r.deltaX.Fin? ==> r.deltaX.r > 0.0
    requires r.deltaY.Fin? ==> r.deltaY.r > 0.0
  {
    Dda(Floor(r.px), Floor(r.py), InitialSide(r.px, r.rayDirX, r.deltaX), InitialSide(r.py, r.rayDirY, r.deltaY), 0)
  }

  predicate NonNeg(e: Ext)
  {
    e.Inf? || e.r >= 0.0
  }

  /** The invariant of the DDA walk: unit steps, positive finite deltas, an
      accumulator is infinite exactly when its delta is, and not both are. */
  predicate Sane(r: Ray, s: Dda)
  {
    && (r.stepX == -1 || r.stepX == 1)
    && (r.stepY == -1 || r.stepY == 1)
    && (r.deltaX.Fin? ==> r.deltaX.r > 0.0)
    && (r.deltaY.Fin? ==> r.deltaY.r > 0.0)
    && (s.sideX.Fin? <==> r.deltaX.Fin?)
    && (s.sideY.Fin? <==> r.deltaY.Fin?)
    && !(r.deltaX.Inf? && r.deltaY.Inf?)
    && NonNeg(s.sideX) && NonNeg(s.sideY)
    && (s.side == 0 || s.side == 1)
  }

  /** One DDA step: advance along the axis with the smaller accumulator
      (ties step y). */
  function Advance(r: Ray, s: Dda): (t: Dda)
    requires Sane(r, s)
    ensures Sane(r, t)
    ensures t.side == 0 <==> Less(s.sideX, s.sideY)
    ensures t.side == 0 ==> t.mapX == s.mapX + r.stepX && t.mapY == s.mapY && t.sideY == s.sideY
    ensures t.side == 1 ==> t.mapY == s.mapY + r.stepY && t.mapX == s.mapX && t.sideX == s.sideX
    ensures t.side == 0 ==> s.sideX.Fin? && t.sideX.Fin? && r.deltaX.Fin? && t.sideX.r == s.sideX.r + r.deltaX.r
    ensures t.side == 1 ==> s.sideY.Fin? && t.sideY.Fin? && r.deltaY.Fin? && t.sideY.r == s.sideY.r + r.deltaY.r
  {
    if Less(s.sideX, s.sideY) then Dda(s.mapX + r.stepX, s.mapY, Add(s.sideX, r.deltaX), s.sideY, 0)
    else Dda(s.mapX, s.mapY + r.stepY, s.sideX, Add(s.sideY, r.deltaY), 1)
  }

  /** The perpendicular distance after a step: the accumulator of the axis
      just crossed, minus one delta. */
  function Dist(r: Ray, t: Dda): real
    requires t.side == 0 ==> t.sideX.Fin? && r.deltaX.Fin?
    requires t.side != 0 ==> t.sideY.Fin? && r.deltaY.Fin?
  {
    if t.side == 0 then t.sideX.r - r.deltaX.r else t.sideY.r - r.deltaY.r
  }

  /** The fractional part of a number, as `v - Math.floor(v)`. */
  function Frac(v: real): (f: real)
    ensures 0.0 <= f < 1.0
  {
    v - Floor(v) as real
  }

  /** The hit record for the cell a step entered. */
  function MakeHit(m: TileMap, r: Ray, t: Dda, tile: int): Hit
    requires m.Valid()
    requires t.side == 0 ==> t.sideX.Fin? && r.deltaX.Fin?
    requires t.side != 0 ==> t.sideY.Fin? && r.deltaY.Fin?
  {
    var perp := Dist(r, t);
    var wallX := if t.side == 0 then r.py + perp * r.rayDirY else r.px + perp * r.rayDirX;
    Hit(perp, t.side, tile, Frac(wallX), t.mapX, t.mapY, m.GetHeight(t.mapX, t.mapY))
  }

  /** Cells left before the walk leaves the grid along one axis. */
  function Room(step: int, cell: int, size: int): nat
  {
    var k := if step == 1 then size - cell else cell + 1;
    if k < 0 then 0 else k
  }

  function Measure(m: TileMap, r: Ray, s: Dda): nat
  {
    Room(r.stepX, s.mapX, m.width) + Room(r.stepY, s.mapY, m.height)
  }

  /** The cell (x, y) lies ahead of `s` along the ray's step directions and
      is not the cell of `s` itself. */
  predicate Ahead(r: Ray, s: Dda, x: int, y: int)
  {
    && (if r.stepX == 1 then x >= s.mapX else x <= s.mapX)
    && (if r.stepY == 1 then y >= s.mapY else y <= s.mapY)
    && (x != s.mapX || y != s.mapY)
  }

  /** What a hit record promises. */
  predicate HitFacts(m: TileMap, r: Ray, s: Dda, h: Hit)
    requires m.Valid()
  {
    && h.tile > 0
    && h.tile == m.GetTile(h.mapX, h.mapY)
    && h.height == m.GetHeight(h.mapX, h.mapY)
    && 0.0 <= h.wallX < 1.0
    && h.perpDist >= 0.0
    && (h.side == 0 || h.side == 1)
    && Ahead(r, s, h.mapX, h.mapY)
  }

  /** The rest of a column's walk from state `s`: the first cell entered
      whose texture id is positive, or `None` once the distance passes
      `maxDist` first. It always ends, because the grid is finite and every
      cell off it reads as texture 1. */
  function Walk(m: TileMap, r: Ray, s: Dda, maxDist: real): (res: Option<Hit>)
    requires m.Valid() && Sane(r, s)
    ensures res.Some? ==> HitFacts(m, r, s, res.value)
    decreases Measure(m, r, s)
  {
    var t := Advance(r, s);
    var tile := m.GetTile(t.mapX, t.mapY);
    if tile > 0 then Some(MakeHit(m, r, t, tile))
    else if Dist(r, t) > maxDist then None
    else
      EmptyTileIsInGrid(m, t.mapX, t.mapY);
      Walk(m, r, t, maxDist)
  }

  /** A ray of the camera is never the zero vector: the facing vector is a
      unit vector and the plane is perpendicular to it. */
  lemma RayNonZero(dirX: real, dirY: real, planeLen: real, c: real)
    requires dirX * dirX + dirY * dirY == 1.0
    ensures dirX + (-dirY * planeLen) * c != 0.0 || dirY + (dirX * planeLen) * c != 0.0
  {
  }

  /** The setup of a column's ray from a unit facing vector is sane. */
  lemma StartSane(px: real, py: real, b: Basis, col: int, w: int, planeLen: real)
    requires 0 <= col < w
    requires b == CameraBasis(b.dirX, b.dirY, planeLen)
    requires b.dirX * b.dirX + b.dirY * b.dirY == 1.0
    ensures Sane(RayFor(px, py, b, col, w), Start(RayFor(px, py, b, col, w)))
  {
    RayNonZero(b.dirX, b.dirY, planeLen, CameraX(col, w));
  }

  /** The specification of one column of `Cast`. */
  function ColumnHit(m: TileMap, px: real, py: real, b: Basis, col: int, w: int, maxDist: real): Option<Hit>
    requires m.Valid() && 0 <= col < w
    requires Sane(RayFor(px, py, b, col, w), Start(RayFor(px, py, b, col, w)))
  {
    var r := RayFor(px, py, b, col, w);
    Walk(m, r, Start(r), maxDist)
  }

  /** The depth buffer entry of a column: the hit distance, or the cutoff on a miss. */
  function DepthOf(h: Option<Hit>, maxDist: real): real
  {
    if h.Some? then h.value.perpDist else maxDist
  }

  /** The body of `cast` for one column: set up the ray, walk the grid,
      and return the hit record and the depth to store. */
  method CastColumn(px: real, py: real, m: TileMap, b: Basis, col: nat, screenWidth: nat, maxDist: real, ghost planeLen: real)
    returns (hit: Option<Hit>, depth: real)
    requires m.Valid() && col < screenWidth
    requires b == CameraBasis(b.dirX, b.dirY, planeLen)
    requires b.dirX * b.dirX + b.dirY * b.dirY == 1.0
    ensures Sane(RayFor(px, py, b, col, screenWidth), Start(RayFor(px, py, b, col, screenWidth)))
    ensures hit == ColumnHit(m, px, py, b, col, screenWidth, maxDist)
    ensures depth == DepthOf(hit, maxDist)
  {
    // Ray setup (camera x, direction, deltas, steps, initial side distances).
    var r := RayFor(px, py, b, col, screenWidth);
    StartSane(px, py, b, col, screenWidth, planeLen);
    var s0 := Start(r);
    var mapX, mapY, sideDistX, sideDistY, side := s0.mapX, s0.mapY, s0.sideX, s0.sideY, 0;

    while true
      invariant Sane(r, Dda(mapX, mapY, sideDistX, sideDistY, side))
      invariant Walk(m, r, Dda(mapX, mapY, sideDistX, sideDistY, side), maxDist)
             == ColumnHit(m, px, py, b, col, screenWidth, maxDist)
      decreases Measure(m, r, Dda(mapX, mapY, sideDistX, sideDistY, side))
    {
      ghost var s := Dda(mapX, mapY, sideDistX, sideDistY, side);
      if Less(sideDistX, sideDistY) {
        sideDistX := Add(sideDistX, r.deltaX);
        mapX := mapX + r.stepX;
        side := 0;
      } else {
        sideDistY := Add(sideDistY, r.deltaY);
        mapY := mapY + r.stepY;
        side := 1;
      }
      var t := Dda(mapX, mapY, sideDistX, sideDistY, side);
      assert t == Advance(r, s);

      var tile := m.GetTile(mapX, mapY);
      if tile > 0 {
        hit := Some(MakeHit(m, r, t, tile));
        depth := hit.value.perpDist;
        return;
      }

      if Dist(r, t) > maxDist {
        depth := maxDist;
        hit := None;
        return;
      }
      EmptyTileIsInGrid(m, mapX, mapY);
    }
  }

  /** `cast`: fills the depth buffer and returns one hit record per column
      together with the camera basis. `cosA`/`sinA` are the cosine and sine
      of the view angle (player angle plus recoil) and `planeLen` is
      `tan(fov / 2)`. */
  method Cast(pose: Pose, m: TileMap, screenWidth: nat, depthBuffer: array<real>,
              cosA: real, sinA: real, planeLen: real, cfg: Config.Config)
    returns (res: RayResult)
    requires m.Valid()
    requires depthBuffer.Length == screenWidth
    requires cosA * cosA + sinA * sinA == 1.0
    modifies depthBuffer
    ensures res.basis == CameraBasis(cosA, sinA, planeLen)
    ensures |res.hits| == screenWidth
    ensures forall col :: 0 <= col < screenWidth ==>
      Sane(RayFor(pose.x, pose.y, res.basis, col, screenWidth), Start(RayFor(pose.x, pose.y, res.basis, col, screenWidth)))
      && res.hits[col] == ColumnHit(m, pose.x, pose.y, res.basis, col, screenWidth, cfg.maxRayDist)
    ensures forall col :: 0 <= col < screenWidth ==> depthBuffer[col] == DepthOf(res.hits[col], cfg.maxRayDist)
  {
    var dirX := cosA;
    var dirY := sinA;
    var planeX := -dirY * planeLen;
    var planeY := dirX * planeLen;
    var b := Basis(dirX, dirY, planeX, planeY);

    var hits := new Option<Hit>[screenWidth](_ => None);

    for col := 0 to screenWidth
      invariant forall c :: 0 <= c < col ==>
        Sane(RayFor(pose.x, pose.y, b, c, screenWidth), Start(RayFor(pose.x, pose.y, b, c, screenWidth)))
        && hits[c] == ColumnHit(m, pose.x, pose.y, b, c, screenWidth, cfg.maxRayDist)
        && depthBuffer[c] == DepthOf(hits[c], cfg.maxRayDist)
    {
      var hit, depth := CastColumn(pose.x, pose.y, m, b, col, screenWidth, cfg.maxRayDist, planeLen);
      depthBuffer[col] := depth;
      hits[col] := hit;
    }

    res := RayResult(hits[..], b);
  }
}
