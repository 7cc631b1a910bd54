/** The level: an immutable grid of raw cell values, each packing a wall
    texture id (units digit) and a block height (tens digit). */
module GameMap {
  import opened Js

  /** The player's spawn as the level file gives it; `angle` may be absent. */
  datatype Spawn = Spawn(x: real, y: real, angle: Option<real>)

  /** An entity placement as the level file gives it. */
  datatype EntityDef = EntityDef(kind: string, x: real, y: real)

  datatype TileMap = TileMap(
    tiles: seq<seq<int>>,
    width: int,
    height: int,
    player: Spawn,
    entities: seq<EntityDef>,
    sky: bool)
  {
    /** Rows of equal length, with width and height read off the grid. */
    ghost predicate Valid()
    {
      && |tiles| > 0
      && height == |tiles|
      && width == |tiles[0]|
      && forall y :: 0 <= y < |tiles| ==> |tiles[y]| == width
    }

    predicate InGrid(x: int, y: int)
    {
      0 <= x < width && 0 <= y < height
    }

    /** Blocks movement and projectiles: every off-grid cell, and every
        cell whose raw value is positive. A wall stands at least one block
        high. */
    predicate IsWall(x: int, y: int)
      requires Valid()
      ensures !InGrid(x, y) ==> IsWall(x, y)
      ensures IsWall(x, y) ==> GetHeight(x, y) >= 1
    {
      !InGrid(x, y) || tiles[y][x] > 0
    }

    /** The wall texture id of a cell: the JS remainder of the raw value by
        10, and 1 off the grid. */
    function GetTile(x: int, y: int): (t: int)
      requires Valid()
      ensures !InGrid(x, y) ==> t == 1
      ensures InGrid(x, y) && tiles[y][x] >= 0 ==> t == tiles[y][x] % 10 && 0 <= t <= 9
      ensures InGrid(x, y) && tiles[y][x] < 0 ==> -9 <= t <= 0
      ensures t > 0 ==> IsWall(x, y)
    {
      if !InGrid(x, y) then 1 else JsRem(tiles[y][x], 10)
    }

    /** The block height of a cell in grid units: the tens part of the raw
        value, at least 1, except 0 for an empty cell and 1 off the grid. */
    function GetHeight(x: int, y: int): (h: int)
      requires Valid()
      ensures !InGrid(x, y) ==> h == 1
      ensures InGrid(x, y) && tiles[y][x] == 0 ==> h == 0
      ensures InGrid(x, y) && tiles[y][x] != 0 ==> h == MaxI(1, tiles[y][x] / 10)
    {
      if !InGrid(x, y) then 1
      else
        var raw := tiles[y][x];
        if raw == 0 then 0
        else
          TensPart(raw / 10, raw % 10);
          var h := Floor(raw as real / 10.0);
          if h > 0 then h else 1
    }
  }

  /** The object `loadMap` builds from a parsed level file. `entities` is
      absent or falsy as `None`; `sky` is `None` when the key is undefined. */
  function Load(tiles: seq<seq<int>>, player: Spawn, entities: Option<seq<EntityDef>>, sky: Option<bool>): (m: TileMap)
    requires |tiles| > 0
    requires forall y :: 0 <= y < |tiles| ==> |tiles[y]| == |tiles[0]|
    ensures m.Valid()
    ensures m.tiles == tiles && m.width == |tiles[0]| && m.height == |tiles| && m.player == player
    ensures m.entities == (if entities.Some? then entities.value else [])
    ensures m.sky <==> (sky.None? || sky.value)
  {
    TileMap(tiles, |tiles[0]|, |tiles|, player,
            if entities.Some? then entities.value else [],
            if sky.Some? then sky.value else true)
  }

  /** The raw value of a wall cell with texture id `id` stacked `h` blocks high. */
  function Encode(id: int, h: int): int
  {
    10 * h + id
  }

  /** The tens part of a raw value, as `Math.floor(raw / 10)` computes it. */
  lemma TensPart(h: int, id: int)
    requires 0 <= id <= 9
    ensures Floor((10 * h + id) as real / 10.0) == h
  {
    var v := (10 * h + id) as real / 10.0;
    assert v == h as real + id as real / 10.0;
    assert h as real <= v < h as real + 1.0;
  }

  /** Decoding inverts encoding: a cell written as texture id 1..9 on a
      height of at least 1 reads back as that id and that height. */
  lemma DecodeEncode(m: TileMap, x: int, y: int, id: int, h: int)
    requires m.Valid() && m.InGrid(x, y)
    requires 1 <= id <= 9 && h >= 1
    requires m.tiles[y][x] == Encode(id, h)
    ensures m.IsWall(x, y)
    ensures m.GetTile(x, y) == id
    ensures m.GetHeight(x, y) == h
  {
    ModUnique(10 * h + id, 10, h, id);
    TensPart(h, id);
  }

  /** A single-digit raw value is a wall one block high. */
  lemma SingleDigitIsOneBlock(m: TileMap, x: int, y: int)
    requires m.Valid() && m.InGrid(x, y)
    requires 1 <= m.tiles[y][x] <= 9
    ensures m.GetTile(x, y) == m.tiles[y][x] && m.GetHeight(x, y) == 1
  {
    TensPart(0, m.tiles[y][x]);
  }

  /** A positive multiple of 10 blocks movement but has texture id 0, so a
      ray passes through it. */
  lemma MultipleOfTenIsInvisibleWall(m: TileMap, x: int, y: int, k: int)
    requires m.Valid() && m.InGrid(x, y)
    requires k >= 1 && m.tiles[y][x] == 10 * k
    ensures m.IsWall(x, y) && m.GetTile(x, y) == 0
  {
    ModUnique(10 * k, 10, k, 0);
  }

  /** A texture id that is not positive only occurs inside the grid. */
  lemma EmptyTileIsInGrid(m: TileMap, x: int, y: int)
    requires m.Valid() && m.GetTile(x, y) <= 0
    ensures m.InGrid(x, y)
  {
  }
}
