/** One frame of the 3D view: ceiling and floor, a textured (or solid) wall
    slice per screen column, side faces where neighbouring walls differ in
    height, then the sprites. The HUD and minimap are not modelled. */
module Renderer {
  import opened Js
  import opened Canvas
  import Config
  import Raycaster
  import Textures
  import Entities
  import Projectiles
  import Sprites
  import Player

  const UpperShade: real := 0.12
  const LedgeShade: real := 0.35
  const SideFaceColor: string := "#2a2a2a"

  /** Neighbouring columns further apart in depth than this belong to
      different walls. */
  const SameWallGap: real := 1.5

  /** A top edge has to move by more than this many pixels to get a side face. */
  const FaceStep: int := 2

  // ---------------------------------------------------------------------------
  // One wall column
  // ---------------------------------------------------------------------------

  /** `hit.height || 1`: a zero height counts as one block. */
  function Blocks(hit: Raycaster.Hit): (n: int)
    ensures n != 0
    ensures hit.height != 0 ==> n == hit.height
  {
    if hit.height == 0 then 1 else hit.height
  }

  /** The height in pixels of one block at distance `perpDist`. */
  function BaseHeight(h: nat, perpDist: real): real
    requires perpDist > 0.0
  {
    h as real / perpDist
  }

  function Stack(base: real, blocks: int): real
  {
    base * blocks as real
  }

  /** The first and one-past-last screen rows of a wall slice. */
  datatype Span = Span(drawStart: int, drawEnd: int)

  /** The slice of a hit: its bottom sits where a one-block wall's bottom
      would (shifted by eye height, rounded down to a pixel) and it is
      `Blocks` base heights tall, rounded up to whole pixels. */
  function WallSpan(hit: Raycaster.Hit, h: nat, horizon: int, z: real): (s: Span)
    requires hit.perpDist > 0.0
    ensures var base := BaseHeight(h, hit.perpDist);
      && s.drawEnd as real <= horizon as real + base / 2.0 + z * base < s.drawEnd as real + 1.0
    ensures var stack := Stack(BaseHeight(h, hit.perpDist), Blocks(hit));
      && stack <= (s.drawEnd - s.drawStart) as real < stack + 1.0
  {
    var base := BaseHeight(h, hit.perpDist);
    var drawEnd := Floor(horizon as real + base / 2.0 + z * BaseHeight(h, hit.perpDist));
    var drawStart := Floor(drawEnd as real - Stack(base, Blocks(hit)));
    Span(drawStart, drawEnd)
  }

  /** Only the top of a slice depends on the wall's height. */
  lemma SpanBottomIgnoresHeight(hit: Raycaster.Hit, blocks: int, h: nat, horizon: int, z: real)
    requires hit.perpDist > 0.0
    ensures WallSpan(hit.(height := blocks), h, horizon, z).drawEnd == WallSpan(hit, h, horizon, z).drawEnd
  {
  }

  /** The texture column a hit samples: `floor(wallX * 64) & 63`. */
  function TexX(wallX: real): (t: int)
    ensures 0 <= t < Textures.TexSize
  {
    assert IsPowerOfTwo(Textures.TexSize) by {
      assert IsPowerOfTwo(2) && IsPowerOfTwo(4) && IsPowerOfTwo(8) && IsPowerOfTwo(16) && IsPowerOfTwo(32);
    }
    Mask(Floor(wallX * Textures.TexSize as real) as real, Textures.TexSize)
  }

  /** A texture column taken from a fraction in [0, 1) is that fraction of
      the way across the texture. */
  lemma TexXOfFraction(wallX: real)
    requires 0.0 <= wallX < 1.0
    ensures TexX(wallX) == Floor(wallX * Textures.TexSize as real)
  {
    var v := wallX * Textures.TexSize as real;
    MulNonNeg(wallX, Textures.TexSize as real);
    MulNonNeg(1.0 - wallX, Textures.TexSize as real);
    assert 0 <= Floor(v) < Textures.TexSize;
  }

  /** The solid colour of a wall face: the tile's pair (tile 1's for an
      unknown tile), dark on side 1. */
  function WallColor(cfg: Config.Config, tile: int, side: int): (c: string)
    requires 1 in cfg.wallColors
    ensures tile in cfg.wallColors && side == 1 ==> c == cfg.wallColors[tile].dark
    ensures tile in cfg.wallColors && side != 1 ==> c == cfg.wallColors[tile].light
    ensures tile !in cfg.wallColors ==> c == (if side == 1 then cfg.wallColors[1].dark else cfg.wallColors[1].light)
  {
    var pair := if tile in cfg.wallColors then cfg.wallColors[tile] else cfg.wallColors[1];
    if side == 1 then pair.dark else pair.light
  }

  /** The top of the `t`-th block of a slice. */
  function SegTop(drawStart: int, t: int, seg: real): real
  {
    drawStart as real + t as real * seg
  }

  /** The texture blits of blocks 0..k-1, bottom-up in the source's order
      (which is top-down on screen). */
  function SegmentsUpTo(src: Source, texX: int, col: int, drawStart: int, seg: real, k: nat): (r: seq<Op>)
    ensures |r| == k
    ensures forall t :: 0 <= t < k ==> r[t].Blit? && r[t].x == col as real && r[t].h == seg && r[t].y == SegTop(drawStart, t, seg)
    ensures forall t :: 0 <= t < k ==> r[t].src == src && r[t].sx == texX && r[t].sh == Textures.TexSize
  {
    if k == 0 then []
    else
      var m: nat := k - 1;
      SegmentsUpTo(src, texX, col, drawStart, seg, m)
        + [Blit(src, texX, 0, 1, Textures.TexSize, col as real, SegTop(drawStart, m, seg), 1.0, seg)]
  }

  /** The blocks of a slice tile it: they start at the top, each ends where
      the next begins, and the last ends at the bottom. */
  lemma SegmentsTile(src: Source, texX: int, col: int, span: Span, blocks: nat)
    requires blocks > 0
    ensures var seg := (span.drawEnd - span.drawStart) as real / blocks as real;
      var r := SegmentsUpTo(src, texX, col, span.drawStart, seg, blocks);
      && r[0].y == span.drawStart as real
      && (forall t :: 0 <= t < blocks - 1 ==> r[t].y + r[t].h == r[t + 1].y)
      && r[blocks - 1].y + r[blocks - 1].h == span.drawEnd as real
  {
    var seg := (span.drawEnd - span.drawStart) as real / blocks as real;
    var r := SegmentsUpTo(src, texX, col, span.drawStart, seg, blocks);
    forall t | 0 <= t < blocks - 1 ensures r[t].y + r[t].h == r[t + 1].y {
      assert SegTop(span.drawStart, t, seg) + seg == SegTop(span.drawStart, t + 1, seg);
    }
    assert SegTop(span.drawStart, blocks - 1, seg) + seg == span.drawStart as real + blocks as real * seg;
  }

  /** The 2-pixel ledge lines at the boundaries between blocks 1..k-1. */
  function LedgesUpTo(col: int, drawStart: int, seg: real, k: nat): (r: seq<Op>)
    ensures |r| == if k <= 1 then 0 else k - 1
    ensures forall j :: 0 <= j < |r| ==> r[j] == Fill(col as real, Floor(SegTop(drawStart, j + 1, seg)) as real, 1.0, 2.0, Black(LedgeShade))
  {
    if k <= 1 then []
    else
      var m: nat := k - 1;
      LedgesUpTo(col, drawStart, seg, m) + [Fill(col as real, Floor(SegTop(drawStart, m, seg)) as real, 1.0, 2.0, Black(LedgeShade))]
  }

  /** The boundary above block `t` of a slice cut into `blocks` equal
      blocks lies inside the slice. */
  lemma BoundaryInsideSpan(span: Span, blocks: nat, t: nat)
    requires 0 < t < blocks && span.drawStart <= span.drawEnd
    ensures var seg := (span.drawEnd - span.drawStart) as real / blocks as real;
      span.drawStart <= Floor(SegTop(span.drawStart, t, seg)) <= span.drawEnd
  {
    var d := (span.drawEnd - span.drawStart) as real;
    var seg := d / blocks as real;
    assert seg >= 0.0;
    assert seg * blocks as real == d;
    MulNonNeg(t as real, seg);
    MulNonNeg(blocks as real - t as real, seg);
    assert t as real * seg <= d;
    FloorMono(span.drawStart as real, SegTop(span.drawStart, t, seg));
    FloorMono(SegTop(span.drawStart, t, seg), span.drawEnd as real);
  }

  /** Every ledge of a slice lies inside it. */
  lemma LedgesInsideSpan(col: int, span: Span, blocks: nat)
    requires blocks > 0 && span.drawStart <= span.drawEnd
    ensures var seg := (span.drawEnd - span.drawStart) as real / blocks as real;
      forall op :: op in LedgesUpTo(col, span.drawStart, seg, blocks) ==>
        span.drawStart as real <= op.y <= span.drawEnd as real
  {
    var seg := (span.drawEnd - span.drawStart) as real / blocks as real;
    var r := LedgesUpTo(col, span.drawStart, seg, blocks);
    forall op | op in r ensures span.drawStart as real <= op.y <= span.drawEnd as real {
      var j :| 0 <= j < |r| && r[j] == op;
      BoundaryInsideSpan(span, blocks, j + 1);
    }
  }

  method DrawSegments(src: Source, texX: int, col: int, drawStart: int, seg: real, blocks: nat) returns (ops: seq<Op>)
    ensures ops == SegmentsUpTo(src, texX, col, drawStart, seg, blocks)
  {
    ops := [];
    for t := 0 to blocks
      invariant ops == SegmentsUpTo(src, texX, col, drawStart, seg, t)
    {
      ops := ops + [Blit(src, texX, 0, 1, Textures.TexSize, col as real, SegTop(drawStart, t, seg), 1.0, seg)];
    }
  }

  method DrawLedges(col: int, drawStart: int, seg: real, blocks: nat) returns (ops: seq<Op>)
    ensures ops == LedgesUpTo(col, drawStart, seg, blocks)
  {
    ops := [];
    if blocks <= 1 {
      return;
    }
    for t := 1 to blocks
      invariant ops == LedgesUpTo(col, drawStart, seg, t)
    {
      ops := ops + [Fill(col as real, Floor(SegTop(drawStart, t, seg)) as real, 1.0, 2.0, Black(LedgeShade))];
    }
  }

  /** The slice itself: texture blits when the tile has a texture and the
      slice is at least a pixel tall, a solid fill otherwise. */
  function SliceOps(hit: Raycaster.Hit, col: int, span: Span, textured: set<int>, cfg: Config.Config): (r: seq<Op>)
    requires 1 in cfg.wallColors
    ensures forall op :: op in r ==> op.Left() == col as real
    ensures hit.tile in textured && span.drawEnd > span.drawStart ==>
      |r| == (if Blocks(hit) <= 1 then 1 else Blocks(hit)) && forall op :: op in r ==> op.Blit? && op.src == WallTexture(hit.tile, hit.side == 1)
    ensures !(hit.tile in textured && span.drawEnd > span.drawStart) ==>
      r == [Fill(col as real, span.drawStart as real, 1.0, (span.drawEnd - span.drawStart) as real, Css(WallColor(cfg, hit.tile, hit.side)))]
  {
    var drawHeight := span.drawEnd - span.drawStart;
    var blocks := Blocks(hit);
    if hit.tile in textured && drawHeight > 0 then
      var src := WallTexture(hit.tile, hit.side == 1);
      if blocks <= 1 then
        [Blit(src, TexX(hit.wallX), 0, 1, Textures.TexSize, col as real, span.drawStart as real, 1.0, drawHeight as real)]
      else
        SegmentsUpTo(src, TexX(hit.wallX), col, span.drawStart, drawHeight as real / blocks as real, blocks)
    else [Fill(col as real, span.drawStart as real, 1.0, drawHeight as real, Css(WallColor(cfg, hit.tile, hit.side)))]
  }

  /** The shading of a tall slice: a darker overlay over every block but the
      bottom one, and a ledge line at each block boundary. */
  function TallOps(hit: Raycaster.Hit, col: int, span: Span): (r: seq<Op>)
    ensures Blocks(hit) <= 1 <==> r == []
    ensures Blocks(hit) > 1 ==> |r| == Blocks(hit) && r[0].Fill? && r[0].paint == Black(UpperShade)
    ensures Blocks(hit) > 1 ==> var seg := (span.drawEnd - span.drawStart) as real / Blocks(hit) as real;
      && r[0].y == span.drawStart as real
      && r[0].y + r[0].h == span.drawEnd as real - seg
      && r[1..] == LedgesUpTo(col, span.drawStart, seg, Blocks(hit))
    ensures forall op :: op in r ==> op.Fill? && op.x == col as real
  {
    var blocks := Blocks(hit);
    if blocks > 1 then
      var seg := (span.drawEnd - span.drawStart) as real / blocks as real;
      [Fill(col as real, span.drawStart as real, 1.0, Upper(seg, blocks), Black(UpperShade))]
        + LedgesUpTo(col, span.drawStart, seg, blocks)
    else []
  }

  /** The height of every block but the bottom one. */
  function Upper(seg: real, blocks: int): real
  {
    seg * (blocks - 1) as real
  }

  /** What one screen column contributes: its drawing, the top row the side
      face pass reads, and the depth it records. */
  datatype Column = Column(ops: seq<Op>, top: int, depth: Ext)

  /** The top row the side-face pass reads for a column: the slice's top,
      or the bottom of the screen for a miss. */
  function ColumnTop(hit: Option<Raycaster.Hit>, h: nat, horizon: int, z: real): int
    requires hit.Some? ==> hit.value.perpDist > 0.0
  {
    match hit
    case None => h
    case Some(x) => WallSpan(x, h, horizon, z).drawStart
  }

  /** The depth recorded for a column: the hit distance, or Infinity. */
  function ColumnDepth(hit: Option<Raycaster.Hit>): Ext
  {
    match hit
    case None => Inf
    case Some(x) => Fin(x.perpDist)
  }

  function ColumnOf(hit: Option<Raycaster.Hit>, col: int, h: nat, horizon: int, z: real, textured: set<int>, cfg: Config.Config): (c: Column)
    requires hit.Some? ==> hit.value.perpDist > 0.0
    requires 1 in cfg.wallColors
    ensures hit.None? ==> c.ops == [] && c.top == h && c.depth.Inf?
    ensures hit.Some? ==> c.ops != [] && c.depth == Fin(hit.value.perpDist) && c.top == WallSpan(hit.value, h, horizon, z).drawStart
    ensures forall op :: op in c.ops ==> op.Left() == col as real
    ensures c.top == ColumnTop(hit, h, horizon, z) && c.depth == ColumnDepth(hit)
  {
    match hit
    case None => Column([], h, Inf)
    case Some(x) =>
      var span := WallSpan(x, h, horizon, z);
      Column(SliceOps(x, col, span, textured, cfg) + TallOps(x, col, span), span.drawStart, Fin(x.perpDist))
  }

  method DrawSlice(hit: Raycaster.Hit, col: int, span: Span, textured: set<int>, cfg: Config.Config) returns (ops: seq<Op>)
    requires 1 in cfg.wallColors
    ensures ops == SliceOps(hit, col, span, textured, cfg)
  {
    var drawHeight := span.drawEnd - span.drawStart;
    var blocks := Blocks(hit);
    if hit.tile in textured && drawHeight > 0 {
      var src := WallTexture(hit.tile, hit.side == 1);
      if blocks <= 1 {
        ops := [Blit(src, TexX(hit.wallX), 0, 1, Textures.TexSize, col as real, span.drawStart as real, 1.0, drawHeight as real)];
      } else {
        ops := DrawSegments(src, TexX(hit.wallX), col, span.drawStart, drawHeight as real / blocks as real, blocks);
      }
    } else {
      ops := [Fill(col as real, span.drawStart as real, 1.0, drawHeight as real, Css(WallColor(cfg, hit.tile, hit.side)))];
    }
  }

  method DrawTall(hit: Raycaster.Hit, col: int, span: Span) returns (ops: seq<Op>)
    ensures ops == TallOps(hit, col, span)
  {
    ops := [];
    var blocks := Blocks(hit);
    if blocks > 1 {
      var seg := (span.drawEnd - span.drawStart) as real / blocks as real;
      var ledges := DrawLedges(col, span.drawStart, seg, blocks);
      ops := [Fill(col as real, span.drawStart as real, 1.0, Upper(seg, blocks), Black(UpperShade))] + ledges;
    }
  }

  method DrawColumn(hit: Option<Raycaster.Hit>, col: int, h: nat, horizon: int, z: real, textured: set<int>, cfg: Config.Config)
    returns (c: Column)
    requires hit.Some? ==> hit.value.perpDist > 0.0
    requires 1 in cfg.wallColors
    ensures c == ColumnOf(hit, col, h, horizon, z, textured, cfg)
  {
    if hit.None? {
      return Column([], h, Inf);
    }
    var x := hit.value;
    var span := WallSpan(x, h, horizon, z);
    var slice := DrawSlice(x, col, span, textured, cfg);
    var tall := DrawTall(x, col, span);
    c := Column(slice + tall, span.drawStart, Fin(x.perpDist));
  }

  // ---------------------------------------------------------------------------
  // All wall columns
  // ---------------------------------------------------------------------------

  /** Every hit lies strictly in front of the camera, since a hit at
      distance zero would divide by zero. The caster's model proves only a
      non-negative distance; a strictly positive one rests on the player's
      collision margin keeping the eye off the grid lines, which is not
      proved here. */
  predicate InFront(hits: seq<Option<Raycaster.Hit>>)
  {
    forall c :: 0 <= c < |hits| && hits[c].Some? ==> hits[c].value.perpDist > 0.0
  }

  /** `hits[col]`, which is missing (a miss) past the end of the list. */
  function HitAt(hits: seq<Option<Raycaster.Hit>>, c: int): (r: Option<Raycaster.Hit>)
    requires InFront(hits)
    ensures r.Some? ==> r.value.perpDist > 0.0
  {
    if 0 <= c < |hits| then hits[c] else None
  }

  /** The wall drawing of columns 0..k-1, left to right. */
  function WallsUpTo(hits: seq<Option<Raycaster.Hit>>, h: nat, horizon: int, z: real, textured: set<int>, cfg: Config.Config, k: nat): seq<Op>
    requires InFront(hits) && 1 in cfg.wallColors
  {
    if k == 0 then []
    else
      var m: nat := k - 1;
      WallsUpTo(hits, h, horizon, z, textured, cfg, m) + ColumnOf(HitAt(hits, m), m, h, horizon, z, textured, cfg).ops
  }

  /** The wall pass draws only on columns 0..k-1. */
  lemma {:induction false} WallsOnScreen(hits: seq<Option<Raycaster.Hit>>, h: nat, horizon: int, z: real, textured: set<int>, cfg: Config.Config, k: nat)
    requires InFront(hits) && 1 in cfg.wallColors
    ensures forall op :: op in WallsUpTo(hits, h, horizon, z, textured, cfg, k) ==> 0.0 <= op.Left() < k as real
  {
    if k > 0 {
      var m: nat := k - 1;
      WallsOnScreen(hits, h, horizon, z, textured, cfg, m);
      var c := ColumnOf(HitAt(hits, m), m, h, horizon, z, textured, cfg);
      assert forall op :: op in c.ops ==> op.Left() == m as real;
    }
  }

  /** The top rows of columns 0..k-1: the bottom of the screen where the
      ray missed, the slice's top where it hit. */
  function Tops(hits: seq<Option<Raycaster.Hit>>, h: nat, horizon: int, z: real, k: nat): (r: seq<int>)
    requires InFront(hits)
    ensures |r| == k
    ensures forall c :: 0 <= c < k && HitAt(hits, c).None? ==> r[c] == h
    ensures forall c :: 0 <= c < k && HitAt(hits, c).Some? ==> r[c] == WallSpan(HitAt(hits, c).value, h, horizon, z).drawStart
  {
    if k == 0 then []
    else
      var m: nat := k - 1;
      Tops(hits, h, horizon, z, m) + [ColumnTop(HitAt(hits, m), h, horizon, z)]
  }

  /** The depths of columns 0..k-1: Infinity exactly where the ray missed. */
  function Depths(hits: seq<Option<Raycaster.Hit>>, k: nat): (r: seq<Ext>)
    requires InFront(hits)
    ensures |r| == k
    ensures forall c :: 0 <= c < k ==> (r[c].Inf? <==> HitAt(hits, c).None?)
    ensures forall c :: 0 <= c < k && HitAt(hits, c).Some? ==> r[c] == Fin(HitAt(hits, c).value.perpDist)
  {
    if k == 0 then []
    else
      var m: nat := k - 1;
      Depths(hits, m) + [ColumnDepth(HitAt(hits, m))]
  }

  /** The wall pass: draws every column and records, per column, the top
      row and depth the side-face pass reads. */
  method DrawWalls(hits: seq<Option<Raycaster.Hit>>, w: nat, h: nat, horizon: int, z: real, textured: set<int>, cfg: Config.Config)
    returns (ops: seq<Op>, colTop: seq<int>, colDepth: seq<Ext>)
    requires InFront(hits) && 1 in cfg.wallColors
    ensures ops == WallsUpTo(hits, h, horizon, z, textured, cfg, w)
    ensures colTop == Tops(hits, h, horizon, z, w) && colDepth == Depths(hits, w)
  {
    colTop := [];
    colDepth := [];
    ops := [];
    for col := 0 to w
      invariant ops == WallsUpTo(hits, h, horizon, z, textured, cfg, col)
      invariant colTop == Tops(hits, h, horizon, z, col) && colDepth == Depths(hits, col)
    {
      var column := DrawColumn(HitAt(hits, col), col, h, horizon, z, textured, cfg);
      colTop := colTop + [column.top];
      colDepth := colDepth + [column.depth];
      ops := ops + column.ops;
    }
  }

  // ---------------------------------------------------------------------------
  // Side faces
  // ---------------------------------------------------------------------------

  /** `Math.abs(a - b) > 1.5` on depths that may be Infinity: one infinite
      depth is infinitely far from a finite one, and two infinite depths
      differ by NaN, which compares false. */
  predicate FarApart(a: Ext, b: Ext)
  {
    match (a, b)
    case (Fin(x), Fin(y)) => Abs(x - y) > SameWallGap
    case (Inf, Inf) => false
    case _ => true
  }

  /** The side face between column col-1 and column col, if any. */
  function FaceAt(tops: seq<int>, depths: seq<Ext>, col: int): (r: seq<Op>)
    requires 1 <= col < |tops| == |depths|
    ensures r != [] <==> !FarApart(depths[col], depths[col - 1]) && (tops[col] - tops[col - 1] > FaceStep || tops[col] - tops[col - 1] < -FaceStep)
    ensures r != [] ==> |r| == 1 && r[0].Fill? && r[0].paint == Css(SideFaceColor) && r[0].w == 1.0
    ensures r != [] ==> r[0].h > FaceStep as real
    ensures r != [] ==> r[0].y == MinI(tops[col], tops[col - 1]) as real && r[0].y + r[0].h == MaxI(tops[col], tops[col - 1]) as real
    ensures r != [] ==> (r[0].x == col as real <==> tops[col] > tops[col - 1]) && (r[0].x == (col - 1) as real <==> tops[col] < tops[col - 1])
  {
    if FarApart(depths[col], depths[col - 1]) then []
    else
      var diff := tops[col] - tops[col - 1];
      if diff > FaceStep then [Fill(col as real, tops[col - 1] as real, 1.0, diff as real, Css(SideFaceColor))]
      else if diff < -FaceStep then [Fill((col - 1) as real, tops[col] as real, 1.0, (-diff) as real, Css(SideFaceColor))]
      else []
  }

  /** The side faces between columns 0..k-1. */
  function FacesUpTo(tops: seq<int>, depths: seq<Ext>, k: nat): (r: seq<Op>)
    requires k <= |tops| == |depths|
    ensures forall op :: op in r ==> op.Fill? && 0.0 <= op.x < k as real
  {
    if k <= 1 then []
    else
      var m: nat := k - 1;
      FacesUpTo(tops, depths, m) + FaceAt(tops, depths, m)
  }

  method DrawSideFaces(colTop: seq<int>, colDepth: seq<Ext>) returns (ops: seq<Op>)
    requires |colTop| == |colDepth|
    ensures ops == FacesUpTo(colTop, colDepth, |colTop|)
  {
    ops := [];
    if |colTop| <= 1 {
      return;
    }
    for col := 1 to |colTop|
      invariant ops == FacesUpTo(colTop, colDepth, col)
    {
      var face: seq<Op> := [];
      var near := match (colDepth[col], colDepth[col - 1])
        case (Fin(a), Fin(b)) => Abs(a - b) <= SameWallGap
        case (Inf, Inf) => true
        case _ => false;
      if near {
        var diff := colTop[col] - colTop[col - 1];
        if diff > FaceStep {
          face := [Fill(col as real, colTop[col - 1] as real, 1.0, diff as real, Css(SideFaceColor))];
        } else if diff < -FaceStep {
          face := [Fill((col - 1) as real, colTop[col] as real, 1.0, (-diff) as real, Css(SideFaceColor))];
        }
      }
      ops := ops + face;
    }
  }

  // ---------------------------------------------------------------------------
  // Sprites
  // ---------------------------------------------------------------------------

  /** The sprite list: the entity sprites, then the projectile sprites. */
  function SpriteList(entities: seq<Entities.Entity>, pool: seq<Projectiles.Projectile>): (r: seq<Entities.Sprite>)
  {
    Entities.SpritesUpTo(entities, |entities|) + Projectiles.SpritesUpTo(pool, |pool|)
  }

  /** Every entity sprite comes before every projectile sprite. */
  lemma SpriteListOrder(entities: seq<Entities.Entity>, pool: seq<Projectiles.Projectile>)
    ensures var r := SpriteList(entities, pool);
      var n := |Entities.SpritesUpTo(entities, |entities|)|;
      && (forall j :: 0 <= j < n ==> r[j].entity.Some?)
      && (forall j :: n <= j < |r| ==> r[j].entity.None?)
      && |r| - n == Projectiles.CountActive(pool)
  {
    var es := Entities.SpritesUpTo(entities, |entities|);
    var ps := Projectiles.SpritesUpTo(pool, |pool|);
    var r := SpriteList(entities, pool);
    forall j | |es| <= j < |r| ensures r[j].entity.None? {
      assert r[j] == ps[j - |es|];
    }
  }

  /** `horizon = floor(h / 2 + pitch * h)`, the camera the sprite stage sees. */
  function CameraOf(x: real, y: real, z: real, pitch: real, basis: Raycaster.Basis, w: nat, h: nat): Sprites.Camera
  {
    Sprites.Camera(x, y, z, pitch, basis, w, h)
  }

  /** Ceiling above the horizon, floor below it. */
  function Background(w: nat, h: nat, horizon: int, cfg: Config.Config): (r: seq<Op>)
    ensures |r| == 2 && r[0].Fill? && r[1].Fill?
    ensures r[0].y == 0.0 && r[0].y + r[0].h == r[1].y && r[1].y + r[1].h == h as real
    ensures r[0].w == w as real && r[1].w == w as real
    ensures r[0].paint == Css(cfg.ceilingColor) && r[1].paint == Css(cfg.floorColor)
  {
    [Fill(0.0, 0.0, w as real, horizon as real, Css(cfg.ceilingColor)),
     Fill(0.0, horizon as real, w as real, (h - horizon) as real, Css(cfg.floorColor))]
  }

  /** Everything `draw` emits before the HUD. */
  function Frame(cam: Sprites.Camera, hits: seq<Option<Raycaster.Hit>>, depthBuffer: seq<real>,
                 entities: seq<Entities.Entity>, pool: seq<Projectiles.Projectile>, textured: set<int>, cfg: Config.Config): seq<Op>
    requires InFront(hits) && 1 in cfg.wallColors && Sprites.Det(cam.basis) != 0.0
  {
    var horizon := Sprites.Horizon(cam.h, cam.pitch);
    var projected := Sprites.ProjectSprites(SpriteList(entities, pool), cam);
    Sprites.ProjectSpritesSpanned(SpriteList(entities, pool), cam);
    Background(cam.w, cam.h, horizon, cfg)
      + WallsUpTo(hits, cam.h, horizon, cam.z, textured, cfg, cam.w)
      + FacesUpTo(Tops(hits, cam.h, horizon, cam.z, cam.w), Depths(hits, cam.w), cam.w)
      + Sprites.SpritesOps(projected, depthBuffer, cam.h, None, |projected|)
  }

  /** `draw` up to the HUD: background, walls, side faces, then the sprites
      (entities then projectiles), drawn without fog against the caster's
      depth buffer. */
  method Draw(player: Player.Player, w: nat, h: nat, ray: Raycaster.RayResult, depthBuffer: array<real>,
              entities: array<Entities.Entity>, pool: array<Projectiles.Projectile>, textured: set<int>, cfg: Config.Config)
    returns (ops: seq<Op>)
    requires InFront(ray.hits) && 1 in cfg.wallColors && Sprites.Det(ray.basis) != 0.0
    ensures ops == Frame(CameraOf(player.x, player.y, player.z, player.pitch, ray.basis, w, h),
                         ray.hits, depthBuffer[..], entities[..], pool[..], textured, cfg)
  {
    var cam := CameraOf(player.x, player.y, player.z, player.pitch, ray.basis, w, h);
    var horizon := Sprites.Horizon(h, player.pitch);
    ops := Background(w, h, horizon, cfg);

    var walls, colTop, colDepth := DrawWalls(ray.hits, w, h, horizon, player.z, textured, cfg);
    ops := ops + walls;
    var faces := DrawSideFaces(colTop, colDepth);
    ops := ops + faces;

    var entitySprites := Entities.EntitySprites(entities[..]);
    var projectileSprites := Projectiles.ProjectileSprites(pool);
    var list := entitySprites + projectileSprites;
    var projected := Sprites.ProjectSprites(list, cam);
    Sprites.ProjectSpritesSpanned(list, cam);
    var spriteOps := Sprites.DrawSprites(projected, depthBuffer[..], h, None);
    ops := ops + spriteOps;
  }
}
