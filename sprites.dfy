/** Billboard sprites: projecting entity and projectile sprites into screen
    space, sorting them far to near, and drawing them column by column
    behind the wall depth buffer. */
module Sprites {
  import opened Js
  import opened Canvas
  import opened Entities
  import Raycaster

  // ---------------------------------------------------------------------------
  // Projection
  // ---------------------------------------------------------------------------

  /** What projection reads of the player, the ray caster and the canvas. */
  datatype Camera = Camera(x: real, y: real, z: real, pitch: real, basis: Raycaster.Basis, w: nat, h: nat)

  /** One sprite in screen space, tagged with its position in the input list. */
  datatype Projected = Projected(
    index: nat,
    transformY: real,
    screenX: int,
    size: real,
    drawStartX: int,
    drawEndX: int,
    drawStartY: int,
    drawEndY: int,
    color: string,
    sprite: Sprite)

  /** Sprites nearer than this along the view axis (or behind) are not drawn. */
  const NearPlane: real := 0.1

  /** The screen row of the horizon: half the height, moved by the pitch. */
  function Horizon(h: int, pitch: real): int
  {
    Floor(h as real / 2.0 + pitch * h as real)
  }

  /** The determinant of the camera matrix [plane dir]. */
  function Det(b: Raycaster.Basis): real
  {
    b.planeX * b.dirY - b.dirX * b.planeY
  }

  /** A basis built the way the caster builds it has determinant
      -planeLen * |dir|^2, so it is invertible unless fov is zero or the
      facing vector vanishes. */
  lemma CameraBasisInvertible(dirX: real, dirY: real, planeLen: real)
    ensures Det(Raycaster.CameraBasis(dirX, dirY, planeLen)) == -planeLen * (dirX * dirX + dirY * dirY)
    ensures planeLen != 0.0 && (dirX != 0.0 || dirY != 0.0) ==> Det(Raycaster.CameraBasis(dirX, dirY, planeLen)) != 0.0
  {
    var b := Raycaster.CameraBasis(dirX, dirY, planeLen);
    calc {
      Det(b);
      (-dirY * planeLen) * dirY - dirX * (dirX * planeLen);
      -planeLen * (dirX * dirX + dirY * dirY);
    }
    Square(dirX);
    Square(dirY);
  }

  lemma Square(a: real)
    ensures a * a >= 0.0 && (a != 0.0 ==> a * a > 0.0)
  {
    if a < 0.0 {
      assert a * a == (-a) * (-a);
    }
  }

  /** Camera-space coordinates of the offset (dx, dy): across the view and
      along it. */
  function Lateral(b: Raycaster.Basis, dx: real, dy: real): real
    requires Det(b) != 0.0
  {
    (1.0 / Det(b)) * (b.dirY * dx - b.dirX * dy)
  }

  function Depth(b: Raycaster.Basis, dx: real, dy: real): real
    requires Det(b) != 0.0
  {
    (1.0 / Det(b)) * (-b.planeY * dx + b.planeX * dy)
  }

  /** Inverting the camera matrix: a point at `along` times the facing
      vector plus `across` times the plane vector has depth `along` and
      lateral offset `across`. */
  lemma DepthInvertsBasis(b: Raycaster.Basis, along: real, across: real)
    requires Det(b) != 0.0
    ensures Depth(b, along * b.dirX + across * b.planeX, along * b.dirY + across * b.planeY) == along
    ensures Lateral(b, along * b.dirX + across * b.planeX, along * b.dirY + across * b.planeY) == across
  {
    var dx := along * b.dirX + across * b.planeX;
    var dy := along * b.dirY + across * b.planeY;
    assert -b.planeY * dx + b.planeX * dy == along * Det(b);
    assert b.dirY * dx - b.dirX * dy == across * Det(b);
  }

  /** The column of the sprite's centre: w/2 * (1 + x/y). */
  function ScreenX(w: nat, tx: real, ty: real): int
    requires ty != 0.0
  {
    Floor((w as real / 2.0) * (1.0 + tx / ty))
  }

  /** The on-screen size: the wall height at that depth, rounded down,
      times the sprite's scale (a zero scale counts as 1). */
  function SizeOf(h: nat, ty: real, scale: real): real
    requires ty > 0.0
  {
    Abs(Floor(h as real / ty) as real) * (if scale == 0.0 then 1.0 else scale)
  }

  /** The vertical shift of the sprite for the player's eye height. */
  function ZOffset(z: real, h: nat, ty: real): real
    requires ty > 0.0
  {
    z * (h as real / ty)
  }

  /** The screen record of sprite `s` at list position `i`, or nothing if
      it is too near or behind the camera. */
  function Project(s: Sprite, i: nat, cam: Camera): (r: Option<Projected>)
    requires Det(cam.basis) != 0.0
    ensures r.Some? <==> Depth(cam.basis, s.x - cam.x, s.y - cam.y) > NearPlane
    ensures r.Some? ==> r.value.index == i && r.value.sprite == s && r.value.color == s.color
    ensures r.Some? ==> r.value.transformY == Depth(cam.basis, s.x - cam.x, s.y - cam.y)
    ensures r.Some? ==> Spanned(r.value)
    ensures r.Some? && s.scale >= 0.0 ==> r.value.size >= 0.0 && r.value.drawStartY <= r.value.drawEndY
  {
    var dx := s.x - cam.x;
    var dy := s.y - cam.y;
    var tx := Lateral(cam.basis, dx, dy);
    var ty := Depth(cam.basis, dx, dy);
    if ty <= NearPlane then None
    else
      var screenX := ScreenX(cam.w, tx, ty);
      var size := SizeOf(cam.h, ty, s.scale);
      var zOffset := ZOffset(cam.z, cam.h, ty);
      var horizon := Horizon(cam.h, cam.pitch);
      assert s.scale >= 0.0 ==> size >= 0.0 by {
        if s.scale >= 0.0 { MulNonNeg(Abs(Floor(cam.h as real / ty) as real), if s.scale == 0.0 then 1.0 else s.scale); }
      }
      var top := horizon as real - size / 2.0 + zOffset;
      var bot := horizon as real + size / 2.0 + zOffset;
      assert s.scale >= 0.0 ==> Floor(top) <= Floor(bot) by {
        if s.scale >= 0.0 { FloorMono(top, bot); }
      }
      Some(Projected(i, ty, screenX, size,
        Floor(screenX as real - size / 2.0), Floor(screenX as real + size / 2.0),
        Floor(horizon as real - size / 2.0 + zOffset), Floor(horizon as real + size / 2.0 + zOffset),
        s.color, s))
  }

  /** The horizontal span is the centre column plus and minus half the size,
      each rounded down. */
  predicate Spanned(p: Projected)
  {
    && p.drawStartX == Floor(p.screenX as real - p.size / 2.0)
    && p.drawEndX == Floor(p.screenX as real + p.size / 2.0)
  }

  /** The span is `size` columns wide up to rounding. */
  lemma SpanWidth(p: Projected)
    requires Spanned(p)
    ensures p.size - 1.0 < (p.drawEndX - p.drawStartX) as real < p.size + 1.0
  {
  }

  /** A sprite with a non-empty clipped span has a positive size. */
  lemma ClippedSpanHasSize(p: Projected, w: int)
    requires Spanned(p)
    requires MaxI(0, p.drawStartX) < MinI(w - 1, p.drawEndX)
    ensures p.size > 0.0
  {
  }

  /** The records of the first `k` sprites that pass the near plane, in
      list order. */
  function ProjectUpTo(sprites: seq<Sprite>, cam: Camera, k: nat): (r: seq<Projected>)
    requires Det(cam.basis) != 0.0 && k <= |sprites|
    ensures forall j :: 0 <= j < |r| ==> r[j].index < k && Project(sprites[r[j].index], r[j].index, cam) == Some(r[j])
    ensures forall a, b :: 0 <= a < b < |r| ==> r[a].index < r[b].index
    ensures forall i :: 0 <= i < k && Project(sprites[i], i, cam).Some? ==> Project(sprites[i], i, cam).value in r
  {
    if k == 0 then []
    else
      var m: nat := k - 1;
      ProjectUpTo(sprites, cam, m) + (match Project(sprites[m], m, cam) case Some(p) => [p] case None => [])
  }

  // ---------------------------------------------------------------------------
  // Sorting far to near
  // ---------------------------------------------------------------------------

  /** `a` is drawn before `b`: it is farther, or as far and earlier in the
      list (the sort is stable). */
  predicate Before(a: Projected, b: Projected)
  {
    a.transformY > b.transformY || (a.transformY == b.transformY && a.index < b.index)
  }

  predicate FarFirst(s: seq<Projected>)
  {
    forall a, b :: 0 <= a < b < |s| ==> Before(s[a], s[b])
  }

  predicate DistinctIndices(s: seq<Projected>)
  {
    forall a, b :: 0 <= a < b < |s| ==> s[a].index != s[b].index
  }

  /** Insert `x` in front of the first record it is drawn before. */
  function Insert(x: Projected, s: seq<Projected>): (r: seq<Projected>)
    ensures multiset(r) == multiset(s) + multiset{x}
  {
    if |s| == 0 then [x]
    else if Before(s[0], x) then
      assert s == [s[0]] + s[1..];
      [s[0]] + Insert(x, s[1..])
    else [x] + s
  }

  /** Inserting a record whose index is new into a far-first list keeps it
      far-first. */
  lemma {:induction false} InsertFarFirst(x: Projected, s: seq<Projected>)
    requires FarFirst(s)
    requires forall y :: y in s ==> y.index != x.index
    ensures FarFirst(Insert(x, s))
  {
    if |s| == 0 {
    } else if Before(s[0], x) {
      var t := s[1..];
      assert FarFirst(t) by {
        forall a, b | 0 <= a < b < |t| ensures Before(t[a], t[b]) {
          assert t[a] == s[a + 1] && t[b] == s[b + 1];
        }
      }
      forall y | y in t ensures y.index != x.index {
        assert y in s;
      }
      InsertFarFirst(x, t);
      var u := Insert(x, t);
      var r := [s[0]] + u;
      forall a, b | 0 <= a < b < |r| ensures Before(r[a], r[b]) {
        if a == 0 {
          assert r[b] in multiset(u);
          assert r[b] == x || r[b] in t;
          if r[b] != x {
            var c :| 0 <= c < |t| && t[c] == r[b];
            assert Before(s[0], s[c + 1]);
          }
        } else {
          assert r[a] == u[a - 1] && r[b] == u[b - 1];
        }
      }
    } else {
      var r := [x] + s;
      forall a, b | 0 <= a < b < |r| ensures Before(r[a], r[b]) {
        if a == 0 {
          assert r[b] == s[b - 1];
          assert s[b - 1] in s;
          if b > 1 {
            assert Before(s[0], s[b - 1]);
          }
        } else {
          assert r[a] == s[a - 1] && r[b] == s[b - 1];
        }
      }
    }
  }

  /** `Array.prototype.sort` with comparator b.y - a.y: a stable insertion
      sort into far-to-near order. */
  function SortFarFirst(s: seq<Projected>): (r: seq<Projected>)
    ensures multiset(r) == multiset(s)
  {
    if |s| == 0 then []
    else
      assert s == [s[0]] + s[1..];
      Insert(s[0], SortFarFirst(s[1..]))
  }

  lemma {:induction false} SortIsFarFirst(s: seq<Projected>)
    requires DistinctIndices(s)
    ensures FarFirst(SortFarFirst(s))
  {
    if |s| > 0 {
      var t := s[1..];
      assert DistinctIndices(t) by {
        forall a, b | 0 <= a < b < |t| ensures t[a].index != t[b].index {
          assert t[a] == s[a + 1] && t[b] == s[b + 1];
        }
      }
      SortIsFarFirst(t);
      var sorted := SortFarFirst(t);
      forall y | y in sorted ensures y.index != s[0].index {
        assert y in multiset(t);
        var c :| 0 <= c < |t| && t[c] == y;
        assert s[c + 1] == y;
      }
      InsertFarFirst(s[0], sorted);
    }
  }

  /** `projectSprites`: project every sprite, drop those at or inside the
      near plane, and order the rest far to near. */
  function ProjectSprites(sprites: seq<Sprite>, cam: Camera): (r: seq<Projected>)
    requires Det(cam.basis) != 0.0
    ensures multiset(r) == multiset(ProjectUpTo(sprites, cam, |sprites|))
  {
    SortFarFirst(ProjectUpTo(sprites, cam, |sprites|))
  }

  /** The records come out farthest first, and in list order among equal
      depths. */
  lemma ProjectSpritesSorted(sprites: seq<Sprite>, cam: Camera)
    requires Det(cam.basis) != 0.0
    ensures FarFirst(ProjectSprites(sprites, cam))
    ensures forall a, b :: 0 <= a < b < |ProjectSprites(sprites, cam)| ==>
      ProjectSprites(sprites, cam)[a].transformY >= ProjectSprites(sprites, cam)[b].transformY
  {
    var raw := ProjectUpTo(sprites, cam, |sprites|);
    assert DistinctIndices(raw);
    SortIsFarFirst(raw);
  }

  /** Every record is the projection of the sprite at its own list
      position, and is beyond the near plane. */
  lemma ProjectSpritesSound(sprites: seq<Sprite>, cam: Camera, p: Projected)
    requires Det(cam.basis) != 0.0
    requires p in ProjectSprites(sprites, cam)
    ensures p.index < |sprites| && Project(sprites[p.index], p.index, cam) == Some(p) && p.transformY > NearPlane
  {
    var raw := ProjectUpTo(sprites, cam, |sprites|);
    assert p in multiset(ProjectSprites(sprites, cam));
    assert p in multiset(raw);
    var j :| 0 <= j < |raw| && raw[j] == p;
  }

  /** Every sprite beyond the near plane has its record in the output. */
  lemma ProjectSpritesComplete(sprites: seq<Sprite>, cam: Camera, i: nat)
    requires Det(cam.basis) != 0.0
    requires i < |sprites| && Depth(cam.basis, sprites[i].x - cam.x, sprites[i].y - cam.y) > NearPlane
    ensures Project(sprites[i], i, cam).Some? && Project(sprites[i], i, cam).value in ProjectSprites(sprites, cam)
  {
    var raw := ProjectUpTo(sprites, cam, |sprites|);
    assert Project(sprites[i], i, cam).value in raw;
    assert Project(sprites[i], i, cam).value in multiset(raw);
    assert Project(sprites[i], i, cam).value in multiset(ProjectSprites(sprites, cam));
  }

  /** Every record of the projection has the span geometry the drawing
      stage relies on. */
  lemma ProjectSpritesSpanned(sprites: seq<Sprite>, cam: Camera)
    requires Det(cam.basis) != 0.0
    ensures forall j :: 0 <= j < |ProjectSprites(sprites, cam)| ==> Spanned(ProjectSprites(sprites, cam)[j])
  {
    forall j | 0 <= j < |ProjectSprites(sprites, cam)|
      ensures Spanned(ProjectSprites(sprites, cam)[j])
    {
      ProjectSpritesSound(sprites, cam, ProjectSprites(sprites, cam)[j]);
    }
  }

  // ---------------------------------------------------------------------------
  // Colours
  // ---------------------------------------------------------------------------

  /** `parseInt(c, 16)` of a one-character string. */
  function HexValue(c: char): (d: Option<int>)
    ensures d.Some? ==> 0 <= d.value < 16
    ensures d.Some? <==> ('0' <= c <= '9' || 'a' <= c <= 'f' || 'A' <= c <= 'F')
  {
    if '0' <= c <= '9' then Some(c as int - '0' as int)
    else if 'a' <= c <= 'f' then Some(c as int - 'a' as int + 10)
    else if 'A' <= c <= 'F' then Some(c as int - 'A' as int + 10)
    else None
  }

  /** `parseInt(s.slice(i, i + 1), 16)`: past the end the slice is empty and
      parses to NaN. */
  function DigitAt(s: string, i: nat): Option<int>
  {
    if i < |s| then HexValue(s[i]) else None
  }

  /** One channel of `darken`: floor(digit * 17 * factor), NaN if the digit
      did not parse. */
  function DarkChannel(d: Option<int>, factor: real): Channel
  {
    match d
    case None => NaN
    case Some(v) => Num(Floor((v * 17) as real * factor))
  }

  /** `darken(hex, factor)`: reads the colour as '#rgb'. */
  function Darken(hex: string, factor: real): (p: Paint)
    ensures p.Rgb?
  {
    Rgb(DarkChannel(DigitAt(hex, 1), factor), DarkChannel(DigitAt(hex, 2), factor), DarkChannel(DigitAt(hex, 3), factor))
  }

  predicate IsShortHex(s: string)
  {
    |s| >= 4 && s[0] == '#' && HexValue(s[1]).Some? && HexValue(s[2]).Some? && HexValue(s[3]).Some?
  }

  lemma DarkChannelInRange(v: int, factor: real)
    requires 0 <= v < 16 && 0.0 <= factor <= 1.0
    ensures 0 <= DarkChannel(Some(v), factor).v <= 255
    ensures DarkChannel(Some(v), factor).v <= v * 17
  {
    var a := (v * 17) as real;
    MulNonNeg(a, factor);
    MulNonNeg(a, 1.0 - factor);
    assert a * factor <= a;
  }

  /** A '#rgb' colour darkened by a factor in [0, 1] gives three numeric
      channels in [0, 255], none brighter than the original channel. */
  lemma DarkenShortHex(hex: string, factor: real)
    requires IsShortHex(hex) && 0.0 <= factor <= 1.0
    ensures Darken(hex, factor).r.Num? && Darken(hex, factor).g.Num? && Darken(hex, factor).b.Num?
    ensures 0 <= Darken(hex, factor).r.v <= HexValue(hex[1]).value * 17 <= 255
    ensures 0 <= Darken(hex, factor).g.v <= HexValue(hex[2]).value * 17 <= 255
    ensures 0 <= Darken(hex, factor).b.v <= HexValue(hex[3]).value * 17 <= 255
  {
    DarkChannelInRange(HexValue(hex[1]).value, factor);
    DarkChannelInRange(HexValue(hex[2]).value, factor);
    DarkChannelInRange(HexValue(hex[3]).value, factor);
  }

  /** A dying entity's colour is 'rgb(...)' text, not '#rgb': darkening it
      reads 'g', 'b' and '(' as digits, so red and blue are NaN and green
      is 0xb scaled. */
  lemma DarkenDyingColor(t: real, factor: real)
    ensures Darken(DyingColor(t), factor) == Rgb(NaN, Num(Floor(187.0 * factor)), NaN)
  {
    var s := DyingColor(t);
    assert s[1] == 'g' && s[2] == 'b' && s[3] == '(';
  }

  const DarkFactor: real := 0.6
  const OutlineFactor: real := 0.4

  // ---------------------------------------------------------------------------
  // Column drawing
  // ---------------------------------------------------------------------------

  /** Every operation of `ops` fills (part of) column `c`. */
  predicate OnColumn(ops: seq<Op>, c: int)
  {
    forall op :: op in ops ==> op.Fill? && op.x == c as real
  }

  /** `op` is a fill on a column in [a, k) where the sprite is in front of
      the wall. */
  predicate DrawnAt(op: Op, ty: real, depth: seq<real>, a: int, k: int)
    requires 0 <= a && k <= |depth|
  {
    && op.Fill?
    && var c := op.x.Floor;
    && op.x == c as real && a <= c < k && ty < depth[c]
  }

  /** Some column in [a, b) has the sprite in front of the wall. */
  predicate SeenBetween(ty: real, depth: seq<real>, a: int, b: int)
    requires 0 <= a && b <= |depth|
  {
    exists col :: a <= col < b && ty < depth[col]
  }

  /** The fills `draw` gives for each column in [a, k) where the sprite is in
      front of the wall, left to right. */
  function Columns(depth: seq<real>, ty: real, a: int, k: int, draw: int -> seq<Op>): (r: seq<Op>)
    requires 0 <= a && k <= |depth|
    requires forall c :: a <= c < k ==> OnColumn(draw(c), c)
    ensures forall op :: op in r ==> DrawnAt(op, ty, depth, a, k)
    decreases k - a
  {
    if k <= a then []
    else
      var r := Columns(depth, ty, a, k - 1, draw);
      var last := if ty < depth[k - 1] then draw(k - 1) else [];
      assert OnColumn(draw(k - 1), k - 1);
      assert forall op :: op in last ==> DrawnAt(op, ty, depth, a, k) by {
        forall op | op in last ensures DrawnAt(op, ty, depth, a, k) {
          assert op.x == (k - 1) as real;
          assert op.x.Floor == k - 1;
        }
      }
      r + last
  }

  /** Where each column draws something, the columns draw something exactly
      when some column has the sprite in front. */
  lemma {:induction false} ColumnsNonEmpty(depth: seq<real>, ty: real, a: int, k: int, draw: int -> seq<Op>)
    requires 0 <= a && k <= |depth|
    requires forall c :: a <= c < k ==> OnColumn(draw(c), c) && draw(c) != []
    ensures Columns(depth, ty, a, k, draw) != [] <==> SeenBetween(ty, depth, a, k)
    decreases k - a
  {
    if k > a {
      ColumnsNonEmpty(depth, ty, a, k - 1, draw);
      if SeenBetween(ty, depth, a, k) && !SeenBetween(ty, depth, a, k - 1) {
        var col :| a <= col < k && ty < depth[col];
        assert col == k - 1;
      }
    }
  }

  /** No column in [a, k) has the sprite in front: nothing is drawn. */
  lemma {:induction false} ColumnsHidden(depth: seq<real>, ty: real, a: int, k: int, draw: int -> seq<Op>)
    requires 0 <= a && k <= |depth|
    requires forall c :: a <= c < k ==> OnColumn(draw(c), c)
    requires !SeenBetween(ty, depth, a, k)
    ensures Columns(depth, ty, a, k, draw) == []
    decreases k - a
  {
    if k > a {
      ColumnsHidden(depth, ty, a, k - 1, draw);
      assert !(ty < depth[k - 1]);
    }
  }

  /** The occlusion-gated column loop the drawing functions share. */
  method DrawColumns(depth: seq<real>, ty: real, a: int, b: int, draw: int -> seq<Op>) returns (ops: seq<Op>)
    requires 0 <= a && b <= |depth|
    requires forall c :: a <= c < b ==> OnColumn(draw(c), c)
    ensures ops == Columns(depth, ty, a, b, draw)
  {
    ops := [];
    if b <= a {
      return;
    }
    var col := a;
    while col < b
      invariant a <= col <= b
      invariant ops == Columns(depth, ty, a, col, draw)
      decreases b - col
    {
      if ty < depth[col] {
        ops := ops + draw(col);
      }
      col := col + 1;
    }
  }

  /** The visibility scan: stops at the first column where the sprite is in
      front of the wall. */
  method AnyInFront(depth: seq<real>, ty: real, a: int, b: int) returns (visible: bool)
    requires 0 <= a && b <= |depth|
    ensures visible <==> SeenBetween(ty, depth, a, b)
  {
    visible := false;
    var col := a;
    while col < b
      invariant a <= col
      invariant !visible
      invariant forall c :: a <= c < col && c < b ==> !(ty < depth[c])
      decreases b - col
    {
      if ty < depth[col] {
        visible := true;
        return;
      }
      col := col + 1;
    }
  }

  // ---------------------------------------------------------------------------
  // Entity silhouettes
  // ---------------------------------------------------------------------------

  const HeadWidth: real := 0.3
  const ChargerTopWidth: real := 0.15

  /** The fraction of the sprite's height where column `lx` (0..1 across
      the sprite) starts and ends, by entity type. */
  function Profile(kind: string, lx: real): (f: (real, real))
    ensures 0.0 <= f.0 && f.1 <= 1.0
    ensures f.0 < f.1 <==> !(kind == "health" && !(0.2 < lx < 0.8))
  {
    if kind == "grunt" then
      (if 0.5 - HeadWidth / 2.0 < lx < 0.5 + HeadWidth / 2.0 then 0.0 else 0.25, 1.0)
    else if kind == "charger" then
      var taper := ChargerTopWidth + (1.0 - ChargerTopWidth) * 1.0;
      (if Abs(lx - 0.5) < ChargerTopWidth then 0.0 else if Abs(lx - 0.5) < taper * 0.5 then 0.3 else 0.5, 1.0)
    else if kind == "turret" then
      (if 0.35 < lx < 0.65 then 0.0 else 0.15, 0.95)
    else if kind == "tank" then
      (0.1, 1.0)
    else if kind == "health" then
      var crossH := 0.2 < lx < 0.8;
      var crossV := 0.35 < lx < 0.65;
      (if crossV then 0.1 else if crossH then 0.35 else 1.0,
       if crossV then 0.9 else if crossH then 0.65 else 0.0)
    else (0.0, 1.0)
  }

  /** Every silhouette is symmetric about the sprite's centre line. */
  lemma ProfileMirrored(kind: string, lx: real)
    ensures Profile(kind, lx) == Profile(kind, 1.0 - lx)
  {
  }

  /** The screen row `frac` of the way down a sprite of height `size`. */
  function RowAt(top: int, size: real, frac: real): int
  {
    Floor(top as real + size * frac)
  }

  /** The fills of one unoccluded body column: the body, a darker band near
      the sides, and a 2-pixel outline at the top and bottom. */
  function BodyColumn(p: Projected, kind: string, col: int, canvasHeight: int): (r: seq<Op>)
    requires p.size > 0.0
    ensures OnColumn(r, col)
    ensures forall op :: op in r ==> 0.0 <= op.y && op.h > 0.0 && op.y + op.h <= canvasHeight as real
    ensures kind == "health" && r != [] ==> 0.2 < (col - p.drawStartX) as real / p.size < 0.8
  {
    var lx := (col - p.drawStartX) as real / p.size;
    var (top, bot) := Profile(kind, lx);
    if kind == "health" && top >= bot then []
    else
      var colTop := MaxI(0, RowAt(p.drawStartY, p.size, top));
      var colBot := MinI(canvasHeight, RowAt(p.drawStartY, p.size, bot));
      if colTop >= colBot then []
      else
        var x := col as real;
        var span := (colBot - colTop) as real;
        var edge := MinI(2, colBot - colTop) as real;
        [Fill(x, colTop as real, 1.0, span, Css(p.color))]
        + (if lx < 0.15 || lx > 0.85 then [Fill(x, colTop as real, 1.0, span, Darken(p.color, DarkFactor))] else [])
        + [Fill(x, colTop as real, 1.0, edge, Darken(p.color, OutlineFactor)),
           Fill(x, colBot as real - edge, 1.0, edge, Darken(p.color, OutlineFactor))]
  }

  /** The outline down the left and right edges, each only when that edge is
      on screen (not clipped) and in front of the wall. */
  function EdgeOps(p: Projected, depth: seq<real>, canvasHeight: int, startX: int, endX: int): (r: seq<Op>)
    requires 0 <= startX < endX < |depth|
    ensures forall op :: op in r ==> op.Fill? && (op.x == startX as real || op.x == (endX - 1) as real)
    ensures forall op :: op in r ==> p.transformY < depth[op.x.Floor]
    ensures |r| <= 2
  {
    var colTop := MaxI(0, p.drawStartY);
    var colBot := MinI(canvasHeight, p.drawEndY);
    var outline := Darken(p.color, OutlineFactor);
    var left :=
      if startX > p.drawStartX then []
      else if p.transformY < depth[startX] then [Fill(startX as real, colTop as real, 1.0, (colBot - colTop) as real, outline)]
      else [];
    var right :=
      if endX < p.drawEndX then []
      else if endX - 1 >= 0 && p.transformY < depth[endX - 1] then [Fill((endX - 1) as real, colTop as real, 1.0, (colBot - colTop) as real, outline)]
      else [];
    left + right
  }

  /** The filled width of a health bar: barW times the fraction of health left. */
  function BarFill(barW: int, hp: int, maxHp: int): (r: int)
    requires maxHp > 0
    ensures 0 <= hp <= maxHp && barW >= 0 ==> 0 <= r <= barW
  {
    var frac := hp as real / maxHp as real;
    assert 0 <= hp <= maxHp && barW >= 0 ==> 0.0 <= barW as real * frac <= barW as real by {
      if 0 <= hp <= maxHp && barW >= 0 {
        assert 0.0 <= frac <= 1.0;
        MulNonNeg(barW as real, frac);
        MulNonNeg(barW as real, 1.0 - frac);
      }
    }
    Floor(barW as real * frac)
  }

  /** More than 30% of the health is left. */
  predicate Healthy(hp: int, maxHp: int)
    requires maxHp > 0
  {
    hp as real / maxHp as real > 0.3
  }

  lemma HealthyMeans(hp: int, maxHp: int)
    requires maxHp > 0
    ensures Healthy(hp, maxHp) <==> 10 * hp > 3 * maxHp
  {
    var m := maxHp as real;
    var frac := hp as real / m;
    assert hp as real == frac * m;
    if frac > 0.3 {
      assert (frac - 0.3) * m > 0.0;
      assert hp as real > 0.3 * m;
      assert (10 * hp) as real > (3 * maxHp) as real;
    } else {
      MulNonNeg(0.3 - frac, m);
      assert hp as real <= 0.3 * m;
      assert (10 * hp) as real <= (3 * maxHp) as real;
    }
  }

  /** The column whose depth decides whether the health bar shows: the
      sprite's centre, clamped to the screen. */
  function CenterCol(screenX: int, w: int): (c: int)
    requires w >= 1
    ensures 0 <= c < w
  {
    MaxI(0, MinI(w - 1, screenX))
  }

  /** The health bar of a damaged, living entity: a translucent background
      and a green (or, at 30% or less, red) fill above the sprite. */
  function HealthBar(p: Projected, e: Entity, depth: seq<real>, startX: int, endX: int): (r: seq<Op>)
    requires |depth| >= 1
    ensures r != [] <==> e.maxHp > 0 && 0 < e.hp < e.maxHp && p.transformY < depth[CenterCol(p.screenX, |depth|)]
    ensures r != [] ==> |r| == 2 && r[0].Fill? && r[1].Fill? && 0.0 <= r[1].w <= r[0].w && r[0].paint == Black(0.5)
    ensures r != [] ==> r[1].paint == Css(if 10 * e.hp > 3 * e.maxHp then "#4e4" else "#e44")
  {
    if e.maxHp > 0 && e.hp < e.maxHp && e.hp > 0 then
      var barW := MaxI(10, endX - startX);
      var barH := MaxI(2, Floor(p.size / 20.0));
      var barX := Floor(p.screenX as real - barW as real / 2.0);
      var barY := MaxI(0, p.drawStartY - barH - 4);
      if p.transformY < depth[CenterCol(p.screenX, |depth|)] then
        HealthyMeans(e.hp, e.maxHp);
        [Fill(barX as real, barY as real, barW as real, barH as real, Black(0.5)),
         Fill(barX as real, barY as real, BarFill(barW, e.hp, e.maxHp) as real, barH as real,
           Css(if Healthy(e.hp, e.maxHp) then "#4e4" else "#e44"))]
      else []
    else []
  }

  function BodyDraw(p: Projected, kind: string, canvasHeight: int): (draw: int -> seq<Op>)
    requires p.size > 0.0
    ensures forall c :: OnColumn(draw(c), c)
  {
    col => BodyColumn(p, kind, col, canvasHeight)
  }

  /** `drawEntitySprite`: the body columns, the side outlines, then the
      health bar. */
  function EntityOps(p: Projected, e: Entity, depth: seq<real>, canvasHeight: int, startX: int, endX: int): seq<Op>
    requires 0 <= startX < endX < |depth| && p.size > 0.0
  {
    Columns(depth, p.transformY, startX, endX, BodyDraw(p, e.kind, canvasHeight))
    + EdgeOps(p, depth, canvasHeight, startX, endX)
    + HealthBar(p, e, depth, startX, endX)
  }

  method DrawEntitySprite(p: Projected, e: Entity, depth: seq<real>, canvasHeight: int, startX: int, endX: int)
    returns (ops: seq<Op>)
    requires 0 <= startX < endX < |depth| && p.size > 0.0
    ensures ops == EntityOps(p, e, depth, canvasHeight, startX, endX)
  {
    ops := DrawColumns(depth, p.transformY, startX, endX, BodyDraw(p, e.kind, canvasHeight));
    ops := ops + EdgeOps(p, depth, canvasHeight, startX, endX);
    ops := ops + HealthBar(p, e, depth, startX, endX);
  }

  // ---------------------------------------------------------------------------
  // Projectiles and fog
  // ---------------------------------------------------------------------------

  function ProjectileDraw(p: Projected): (draw: int -> seq<Op>)
    ensures forall c :: OnColumn(draw(c), c) && draw(c) != []
  {
    col => [Fill(col as real, MaxI(0, p.drawStartY) as real, 1.0, (p.drawEndY - p.drawStartY) as real, Css(p.color))]
  }

  /** The optional fog function a caller may pass: the fog alpha at a depth. */
  datatype Fog = Fog(alpha: real -> real)

  function FogDraw(drawTop: int, drawBot: int, alpha: real): (draw: int -> seq<Op>)
    ensures forall c :: OnColumn(draw(c), c)
  {
    col => [Fill(col as real, drawTop as real, 1.0, (drawBot - drawTop) as real, FogTint(alpha))]
  }

  /** The fog tint over the sprite's on-screen rows, if the fog at its depth
      is noticeable. */
  function FogOps(p: Projected, depth: seq<real>, canvasHeight: int, startX: int, endX: int, fog: Option<Fog>): (r: seq<Op>)
    requires 0 <= startX && endX <= |depth|
    ensures forall op :: op in r ==> DrawnAt(op, p.transformY, depth, startX, endX)
  {
    match fog
    case None => []
    case Some(f) =>
      var alpha := f.alpha(p.transformY);
      var drawTop := MaxI(0, p.drawStartY);
      var drawBot := MinI(canvasHeight, p.drawEndY);
      if alpha > 0.01 && drawBot > drawTop then
        Columns(depth, p.transformY, startX, endX, FogDraw(drawTop, drawBot, alpha))
      else []
  }

  method DrawFog(p: Projected, depth: seq<real>, canvasHeight: int, startX: int, endX: int, fog: Option<Fog>)
    returns (ops: seq<Op>)
    requires 0 <= startX && endX <= |depth|
    ensures ops == FogOps(p, depth, canvasHeight, startX, endX, fog)
  {
    ops := [];
    if fog.Some? {
      var alpha := fog.value.alpha(p.transformY);
      var drawTop := MaxI(0, p.drawStartY);
      var drawBot := MinI(canvasHeight, p.drawEndY);
      if alpha > 0.01 && drawBot > drawTop {
        ops := DrawColumns(depth, p.transformY, startX, endX, FogDraw(drawTop, drawBot, alpha));
      }
    }
  }

  // ---------------------------------------------------------------------------
  // drawSprites
  // ---------------------------------------------------------------------------

  /** The columns a sprite may touch: its span clipped to [0, w - 1). */
  function ClippedSpan(p: Projected, w: int): (int, int)
  {
    (MaxI(0, p.drawStartX), MinI(w - 1, p.drawEndX))
  }

  /** Everything one projected sprite draws. */
  function SpriteOps(p: Projected, depth: seq<real>, canvasHeight: int, fog: Option<Fog>): (r: seq<Op>)
    requires Spanned(p)
    ensures var (startX, endX) := ClippedSpan(p, |depth|);
      r != [] ==> startX < endX && SeenBetween(p.transformY, depth, startX, endX)
    ensures var (startX, endX) := ClippedSpan(p, |depth|);
      p.sprite.entity.None? ==> (r != [] <==> startX < endX && SeenBetween(p.transformY, depth, startX, endX))
    ensures p.sprite.entity.None? ==>
      forall op :: op in r ==> op.Fill? && 0.0 <= op.x < (|depth| - 1) as real && p.transformY < depth[op.x.Floor]
  {
    var (startX, endX) := ClippedSpan(p, |depth|);
    if startX >= endX || !SeenBetween(p.transformY, depth, startX, endX) then []
    else
      match p.sprite.entity
      case Some(e) =>
        ClippedSpanHasSize(p, |depth|);
        EntityOps(p, e, depth, canvasHeight, startX, endX) + FogOps(p, depth, canvasHeight, startX, endX, fog)
      case None =>
        ColumnsNonEmpty(depth, p.transformY, startX, endX, ProjectileDraw(p));
        Columns(depth, p.transformY, startX, endX, ProjectileDraw(p)) + FogOps(p, depth, canvasHeight, startX, endX, fog)
  }

  method DrawSprite(p: Projected, depth: seq<real>, canvasHeight: int, fog: Option<Fog>) returns (ops: seq<Op>)
    requires Spanned(p)
    ensures ops == SpriteOps(p, depth, canvasHeight, fog)
  {
    ops := [];
    var startX := MaxI(0, p.drawStartX);
    var endX := MinI(|depth| - 1, p.drawEndX);
    if startX >= endX {
      return;
    }
    var visible := AnyInFront(depth, p.transformY, startX, endX);
    if !visible {
      return;
    }
    match p.sprite.entity {
      case Some(e) =>
        ClippedSpanHasSize(p, |depth|);
        ops := DrawEntitySprite(p, e, depth, canvasHeight, startX, endX);
      case None =>
        ops := DrawColumns(depth, p.transformY, startX, endX, ProjectileDraw(p));
    }
    var tint := DrawFog(p, depth, canvasHeight, startX, endX, fog);
    ops := ops + tint;
  }

  /** The drawing of the first `k` records, in order. */
  function SpritesOps(ps: seq<Projected>, depth: seq<real>, canvasHeight: int, fog: Option<Fog>, k: nat): seq<Op>
    requires k <= |ps| && forall j :: 0 <= j < |ps| ==> Spanned(ps[j])
  {
    if k == 0 then []
    else
      var m: nat := k - 1;
      SpritesOps(ps, depth, canvasHeight, fog, m) + SpriteOps(ps[m], depth, canvasHeight, fog)
  }

  /** `drawSprites`: every record in list order, so farther sprites are
      painted first and nearer ones over them. */
  method DrawSprites(ps: seq<Projected>, depth: seq<real>, canvasHeight: int, fog: Option<Fog>) returns (ops: seq<Op>)
    requires forall j :: 0 <= j < |ps| ==> Spanned(ps[j])
    ensures ops == SpritesOps(ps, depth, canvasHeight, fog, |ps|)
  {
    ops := [];
    for i := 0 to |ps|
      invariant ops == SpritesOps(ps, depth, canvasHeight, fog, i)
    {
      var one := DrawSprite(ps[i], depth, canvasHeight, fog);
      ops := ops + one;
    }
  }
}
