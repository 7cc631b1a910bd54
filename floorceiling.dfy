/** The floor, ceiling and sky pass: a cached 32-bit pixel buffer filled
    row by row from packed texture tables, followed by two fog gradients.
    Pixel values are the unsigned 32-bit words the buffer holds. */
module FloorCeiling {
  import opened Js
  import opened Canvas
  import Raycaster
  import Textures
  import Config

  // ---------------------------------------------------------------------
  // Packed texels
  // ---------------------------------------------------------------------

  /** The alpha byte every packed texel carries, in place. */
  const OpaqueAlpha: int := 0xFF00_0000

  /** The place value of byte k of a 32-bit word. */
  const Shifts: seq<int> := [1, 0x100, 0x1_0000, 0x100_0000]

  /** Byte k (0 is the lowest) of an unsigned 32-bit word. */
  function ByteOf(p: int, k: int): (b: int)
    requires 0 <= k < 4
    ensures 0 <= b < 256
  {
    (p / Shifts[k]) % 256
  }

  /** Reading a typed byte array: past the end the read is `undefined`,
      which a bitwise operator takes as 0. */
  function ByteAt(data: seq<int>, j: int): int
  {
    if 0 <= j < |data| then data[j] else 0
  }

  /** One packed texel. The source ORs the shifted bytes with 0xFF000000,
      which gives a negative 32-bit value; storing it in a `Uint32Array`
      reads it back unsigned. For bytes the OR of the disjoint fields is
      their sum. */
  function Pack(r: int, g: int, b: int): int
  {
    r + 0x100 * g + 0x1_0000 * b + OpaqueAlpha
  }

  /** Texel i of a bitmap packed from its four bytes at 4i. */
  function PackAt(data: seq<int>, i: int): int
  {
    Pack(ByteAt(data, 4 * i), ByteAt(data, 4 * i + 1), ByteAt(data, 4 * i + 2))
  }

  /** The first k packed texels of a bitmap. */
  function PackedUpTo(data: seq<int>, k: nat): (r: seq<int>)
    ensures |r| == k
    ensures forall i :: 0 <= i < k ==> r[i] == PackAt(data, i)
  {
    if k == 0 then [] else
      var m: nat := k - 1;
      PackedUpTo(data, m) + [PackAt(data, m)]
  }

  /** Red lands in byte 0, green in byte 1, blue in byte 2 and 0xFF in
      byte 3, and the word fits 32 bits unsigned. */
  lemma PackLayout(r: int, g: int, b: int)
    requires 0 <= r < 256 && 0 <= g < 256 && 0 <= b < 256
    ensures 0 <= Pack(r, g, b) < 0x1_0000_0000
    ensures ByteOf(Pack(r, g, b), 0) == r
    ensures ByteOf(Pack(r, g, b), 1) == g
    ensures ByteOf(Pack(r, g, b), 2) == b
    ensures ByteOf(Pack(r, g, b), 3) == 255
  {
    var p := Pack(r, g, b);
    var q2 := b + 0x100 * 255;
    var q1 := g + 0x100 * q2;
    assert p == q1 * 0x100 + r;
    ModUnique(p, 0x100, q1, r);
    ModUnique(q1, 0x100, q2, g);
    ModUnique(p, 0x1_0000, q2, r + 0x100 * g);
    ModUnique(q2, 0x100, 255, b);
    ModUnique(p, 0x100_0000, 255, r + 0x100 * g + 0x1_0000 * b);
    ModUnique(255, 0x100, 0, 255);
  }

  /** Every texel of a packed byte bitmap holds the bitmap's red, green
      and blue bytes of that pixel, and is opaque whatever the bitmap's own
      alpha byte says. */
  lemma PackedTexelLayout(data: seq<int>, len: nat, i: int)
    requires Textures.Bytes(data) && 0 <= i < len
    ensures ByteOf(PackedUpTo(data, len)[i], 0) == ByteAt(data, 4 * i)
    ensures ByteOf(PackedUpTo(data, len)[i], 1) == ByteAt(data, 4 * i + 1)
    ensures ByteOf(PackedUpTo(data, len)[i], 2) == ByteAt(data, 4 * i + 2)
    ensures ByteOf(PackedUpTo(data, len)[i], 3) == 255
  {
    PackLayout(ByteAt(data, 4 * i), ByteAt(data, 4 * i + 1), ByteAt(data, 4 * i + 2));
  }

  /** `packTexture`: a fresh table of `len` texels, four bytes each. */
  method PackTexture(data: seq<int>, len: nat) returns (packed: seq<int>)
    ensures packed == PackedUpTo(data, len)
  {
    var table := new int[len];
    for i := 0 to len
      invariant forall j :: 0 <= j < i ==> table[j] == PackAt(data, j)
    {
      table[i] := Pack(ByteAt(data, 4 * i), ByteAt(data, 4 * i + 1), ByteAt(data, 4 * i + 2));
    }
    packed := table[..];
  }

  /** Indexing a packed table: outside it the read is `undefined`, which
      the `Uint32Array` store turns into 0. */
  function TexelOr0(table: seq<int>, i: int): int
  {
    if 0 <= i < |table| then table[i] else 0
  }

  // ---------------------------------------------------------------------
  // Row geometry
  // ---------------------------------------------------------------------

  /** Where the camera stands and looks. */
  datatype Eye = Eye(x: real, y: real, z: real, angle: real)

  /** Everything one pass reads: the buffer size, the horizon row, the
      camera, the packed tables with their sizes, and the sky switch. */
  datatype Pass = Pass(
    w: nat, h: nat, horizon: int, eye: Eye, basis: Raycaster.Basis,
    floorTable: seq<int>, fSize: int,
    ceilingTable: seq<int>, cSize: int,
    skyTable: seq<int>, skyW: int, skyH: int,
    useSky: bool, fov: real)

  /** What the pass needs of its textures: power-of-two flat textures,
      whose coordinates wrap by masking, and a sky at least one texel
      wide, whose columns wrap by remainder. */
  predicate Wrappable(s: Pass)
  {
    IsPowerOfTwo(s.fSize) && IsPowerOfTwo(s.cSize) && s.skyW > 0
  }

  /** The horizon row clamped into the buffer. */
  function Clamped(h: nat, horizon: int): (hc: int)
    ensures 0 <= hc <= h
    ensures 0 < hc < h ==> hc == horizon
  {
    MaxI(0, MinI(h, horizon))
  }

  /** `start + i * step`: the value an accumulator holds after i steps. */
  function Along(start: real, i: int, step: real): real
  {
    start + i as real * step
  }

  lemma AlongNext(start: real, i: int, step: real)
    ensures Along(start, 0, step) == start
    ensures Along(start, i, step) + step == Along(start, i + 1, step)
  {
  }

  /** The per-column change of a ray direction component across a row:
      `2 * plane / w`. No column reads it when w is 0. */
  function ColumnStep(plane: real, w: nat): real
  {
    if w == 0 then 0.0 else plane * 2.0 / w as real
  }

  /** `a * b / p` for the row distances. */
  function RowDistance(h: nat, half: real, p: int): real
    requires p > 0
  {
    h as real * half / p as real
  }

  /** The distance of floor row y: `h * (0.5 + z) / (y - horizon)`. */
  function FloorDistance(s: Pass, y: int): real
    requires y > s.horizon
  {
    RowDistance(s.h, 0.5 + s.eye.z, y - s.horizon)
  }

  /** The distance of ceiling row y: `h * (0.5 - z) / (horizon - y)`. */
  function CeilingDistance(s: Pass, y: int): real
    requires y < s.horizon
  {
    RowDistance(s.h, 0.5 - s.eye.z, s.horizon - y)
  }

  /** The world point seen at column 0 of a flat row at distance d: the
      leftmost ray `dir - plane` scaled by d. */
  function RowStartX(s: Pass, d: real): real
  {
    s.eye.x + d * (s.basis.dirX - s.basis.planeX)
  }

  function RowStartY(s: Pass, d: real): real
  {
    s.eye.y + d * (s.basis.dirY - s.basis.planeY)
  }

  /** How far the world point moves per column on a row at distance d. */
  function RowStepX(s: Pass, d: real): real
  {
    d * ColumnStep(s.basis.planeX, s.w)
  }

  function RowStepY(s: Pass, d: real): real
  {
    d * ColumnStep(s.basis.planeY, s.w)
  }

  /** `v * size`, a world coordinate in texels. */
  function Scaled(v: real, size: int): real
  {
    v * size as real
  }

  /** The texel of a flat texture at world point (fx, fy): both
      coordinates scaled by the texture size and masked. */
  function TexelAt(table: seq<int>, size: int, fx: real, fy: real): int
    requires IsPowerOfTwo(size)
  {
    TexelOr0(table, TexelIndex(Mask(Scaled(fx, size), size), Mask(Scaled(fy, size), size), size))
  }

  /** The texel of a flat texture seen at column x of a row at distance d. */
  function FlatTexel(table: seq<int>, size: int, s: Pass, d: real, x: int): int
    requires IsPowerOfTwo(size)
  {
    TexelAt(table, size, Along(RowStartX(s, d), x, RowStepX(s, d)), Along(RowStartY(s, d), x, RowStepY(s, d)))
  }

  /** `ty * width + tx`: the index of a texel in a row-major table. */
  function TexelIndex(tx: int, ty: int, width: int): int
  {
    ty * width + tx
  }

  /** A texel inside a `width` by `height` table has its index inside it. */
  lemma TexelIndexInside(tx: int, ty: int, width: int, height: int)
    requires 0 <= tx < width && 0 <= ty < height
    ensures 0 <= TexelIndex(tx, ty, width) < width * height
  {
    assert ty * width <= (height - 1) * width;
  }

  /** A masked texel of a full table is one of the table's own texels:
      the wrap never reads outside a square texture. */
  lemma TexelAtInTable(table: seq<int>, size: int, fx: real, fy: real)
    requires IsPowerOfTwo(size) && |table| == size * size
    ensures TexelAt(table, size, fx, fy) in table
  {
    TexelIndexInside(Mask(Scaled(fx, size), size), Mask(Scaled(fy, size), size), size, size);
  }

  // ---------------------------------------------------------------------
  // The sky
  // ---------------------------------------------------------------------

  /** The sky row shown on screen row y above the clamped horizon:
      proportional to the height above it, capped at the last row. */
  function SkyV(s: Pass, y: int): int
    requires 0 <= y < Clamped(s.h, s.horizon)
  {
    var hc := Clamped(s.h, s.horizon);
    MinI(s.skyH - 1, Trunc(SkyFraction(hc, y) * (s.skyH - 1) as real))
  }

  /** `(hc - y) / hc`, in (0, 1] for the rows above the horizon. */
  function SkyFraction(hc: int, y: int): (f: real)
    requires 0 <= y < hc
    ensures 0.0 < f <= 1.0
  {
    (hc - y) as real / hc as real
  }

  /** The absolute view angle of column x: the left edge of the field of
      view stepped by `fov / w` per column. */
  function ColumnAngle(s: Pass, x: int): real
  {
    Along(AngleBase(s), x, AngleStep(s))
  }

  /** The angle of the left edge of the view. */
  function AngleBase(s: Pass): real
  {
    s.eye.angle - s.fov * 0.5
  }

  /** `fov / w`; no column reads it when w is 0. */
  function AngleStep(s: Pass): real
  {
    if s.w == 0 then 0.0 else s.fov / s.w as real
  }

  /** The unwrapped sky column of an angle: `angle * skyW / (2 pi)`,
      truncated. */
  function SkyColumn(skyW: int, angle: real): int
  {
    Trunc(angle * (skyW as real / (Pi * 2.0)))
  }

  /** The sky column of an angle, wrapped with two JS remainders. */
  function WrappedSkyColumn(skyW: int, angle: real): (su: int)
    requires skyW > 0
    ensures 0 <= su < skyW
  {
    JsRem(JsRem(SkyColumn(skyW, angle), skyW) + skyW, skyW)
  }

  /** The sky column of screen column x. */
  function SkyU(s: Pass, x: int): int
    requires s.skyW > 0
  {
    WrappedSkyColumn(s.skyW, ColumnAngle(s, x))
  }

  /** The wrap is the mathematical remainder, so the sky repeats every
      full turn and is never indexed left of its first column. */
  lemma SkyUWraps(s: Pass, x: int)
    requires s.skyW > 0
    ensures 0 <= SkyU(s, x) < s.skyW
    ensures SkyU(s, x) == SkyColumn(s.skyW, ColumnAngle(s, x)) % s.skyW
  {
    WrapIsEuclidean(SkyColumn(s.skyW, ColumnAngle(s, x)), s.skyW);
  }

  function SkyTexel(s: Pass, y: int, x: int): int
    requires s.skyW > 0 && 0 <= y < Clamped(s.h, s.horizon)
  {
    TexelOr0(s.skyTable, TexelIndex(SkyU(s, x), SkyV(s, y), s.skyW))
  }

  /** For a sky at least one row high, the row lies in [0, skyH - 1]. */
  lemma SkyVInRange(s: Pass, y: int)
    requires s.skyH >= 1 && 0 <= y < Clamped(s.h, s.horizon)
    ensures 0 <= SkyV(s, y) <= s.skyH - 1
  {
    var f := SkyFraction(Clamped(s.h, s.horizon), y);
    MulNonNeg(f, (s.skyH - 1) as real);
  }

  /** Lower screen rows show lower-or-equal sky rows: the sky row does not
      increase as y approaches the horizon. */
  lemma SkyVNonIncreasing(s: Pass, y1: int, y2: int)
    requires s.skyH >= 1 && 0 <= y1 <= y2 < Clamped(s.h, s.horizon)
    ensures SkyV(s, y2) <= SkyV(s, y1)
  {
    var hc := Clamped(s.h, s.horizon);
    var f1 := SkyFraction(hc, y1);
    var f2 := SkyFraction(hc, y2);
    var k := (s.skyH - 1) as real;
    SkyFractionMono(hc, y1, y2);
    ScaleMono(f2, f1, k);
    TruncMono(f2 * k, f1 * k);
  }

  /** Scaling by a non-negative factor keeps the order of non-negative values. */
  lemma ScaleMono(a: real, b: real, k: real)
    requires 0.0 <= a <= b && 0.0 <= k
    ensures 0.0 <= a * k <= b * k
  {
    MulNonNeg(a, k);
    MulNonNeg(b - a, k);
  }

  /** Truncation is monotone on non-negative values. */
  lemma TruncMono(a: real, b: real)
    requires 0.0 <= a <= b
    ensures Trunc(a) <= Trunc(b)
  {
  }

  /** Rows nearer the horizon have smaller sky fractions. */
  lemma SkyFractionMono(hc: int, y1: int, y2: int)
    requires 0 <= y1 <= y2 < hc
    ensures SkyFraction(hc, y2) <= SkyFraction(hc, y1)
  {
    var c := hc as real;
    assert SkyFraction(hc, y1) - SkyFraction(hc, y2) == (y2 - y1) as real / c;
  }

  /** The top screen row shows the sky's last row: the sky row grows with
      the height above the horizon. */
  lemma SkyTopRow(s: Pass)
    requires s.skyH >= 1 && 0 < Clamped(s.h, s.horizon)
    ensures SkyV(s, 0) == s.skyH - 1
  {
    var hc := Clamped(s.h, s.horizon);
    var k := (s.skyH - 1) as real;
    assert SkyFraction(hc, 0) == 1.0;
    assert SkyFraction(hc, 0) * k == k;
    assert Trunc(k) == s.skyH - 1;
  }

  /** A sky texel of a full table is one of the table's own texels. */
  lemma SkyTexelInTable(s: Pass, y: int, x: int)
    requires s.skyW > 0 && s.skyH >= 1 && |s.skyTable| == s.skyW * s.skyH
    requires 0 <= y < Clamped(s.h, s.horizon)
    ensures SkyTexel(s, y, x) in s.skyTable
  {
    SkyVInRange(s, y);
    TexelIndexInside(SkyU(s, x), SkyV(s, y), s.skyW, s.skyH);
  }

  // ---------------------------------------------------------------------
  // What each pixel holds
  // ---------------------------------------------------------------------

  /** A pixel at or below the clamped horizon: the floor texel when the
      row lies strictly below the horizon, else left cleared. */
  function FloorPixel(s: Pass, y: int, x: int): int
    requires Wrappable(s)
  {
    if y > s.horizon then FlatTexel(s.floorTable, s.fSize, s, FloorDistance(s, y), x) else 0
  }

  /** Ceiling rows are written only while their distance is not negative. */
  predicate CeilingDrawn(s: Pass, y: int)
    requires y < s.horizon
  {
    CeilingDistance(s, y) >= 0.0
  }

  /** A pixel above the clamped horizon: the sky texel in sky mode, else
      the ceiling texel of the mirrored floor cast, or cleared. */
  function UpperPixel(s: Pass, y: int, x: int): int
    requires Wrappable(s) && 0 <= y < Clamped(s.h, s.horizon)
  {
    if s.useSky then SkyTexel(s, y, x)
    else if CeilingDrawn(s, y) then FlatTexel(s.ceilingTable, s.cSize, s, CeilingDistance(s, y), x)
    else 0
  }

  /** The word the pass leaves at row y, column x of the buffer. */
  function Pixel(s: Pass, y: int, x: int): int
    requires Wrappable(s) && 0 <= y
  {
    if y < Clamped(s.h, s.horizon) then UpperPixel(s, y, x) else FloorPixel(s, y, x)
  }

  /** Above the clamped horizon every row lies strictly above the horizon,
      so the ceiling loop's `p <= 0` test never skips a row; the ceiling is
      skipped exactly when the eye is higher than half a block. */
  lemma CeilingSkipped(s: Pass, y: int)
    requires 0 <= y < Clamped(s.h, s.horizon)
    ensures y < s.horizon
    ensures !CeilingDrawn(s, y) <==> s.eye.z > 0.5
  {
    var p := s.horizon - y;
    var a := s.h as real * (0.5 - s.eye.z);
    assert s.h > 0;
    if s.eye.z > 0.5 {
      assert a < 0.0 by { MulNonNeg(s.h as real, s.eye.z - 0.5); }
      assert a / p as real < 0.0;
    } else {
      MulNonNeg(s.h as real, 0.5 - s.eye.z);
      assert a / p as real >= 0.0;
    }
  }

  /** The row exactly at the horizon is cleared in every column, and with
      full tables every floor pixel is a floor texel. */
  lemma FloorPixelSource(s: Pass, y: int, x: int)
    requires Wrappable(s) && Clamped(s.h, s.horizon) <= y
    requires |s.floorTable| == s.fSize * s.fSize
    ensures y <= s.horizon ==> Pixel(s, y, x) == 0
    ensures y > s.horizon ==> Pixel(s, y, x) in s.floorTable
  {
    if y > s.horizon {
      var d := FloorDistance(s, y);
      TexelAtInTable(s.floorTable, s.fSize, Along(RowStartX(s, d), x, RowStepX(s, d)), Along(RowStartY(s, d), x, RowStepY(s, d)));
    }
  }

  // ---------------------------------------------------------------------
  // Fog
  // ---------------------------------------------------------------------

  /** The floor fog: a vertical ramp from `fogMax` at the clamped horizon
      to transparent at the bottom, over the rows below it. */
  function FloorFog(w: nat, h: nat, hc: int, cfg: Config.Config): Op
  {
    Fill(0.0, hc as real, w as real, (h - hc) as real, FogRamp(cfg.fogColor, hc as real, h as real, cfg.fogMaxAlpha))
  }

  /** The ceiling fog: the same ramp mirrored up to the top row. */
  function CeilingFog(w: nat, hc: int, cfg: Config.Config): Op
  {
    Fill(0.0, 0.0, w as real, hc as real, FogRamp(cfg.fogColor, hc as real, 0.0, cfg.fogMaxAlpha))
  }

  /** The two gradients drawn after the pixels. The floor one needs fog and
      a row below the horizon; the ceiling one needs fog, an indoor
      ceiling and a row above the horizon: the sky is never fogged. */
  function FogOps(w: nat, h: nat, hc: int, useSky: bool, cfg: Config.Config): (ops: seq<Op>)
    requires 0 <= hc <= h
    ensures FloorFog(w, h, hc, cfg) in ops <==> cfg.fogMaxAlpha > 0.0 && hc < h
    ensures CeilingFog(w, hc, cfg) in ops <==> !useSky && cfg.fogMaxAlpha > 0.0 && hc > 0
    ensures forall op :: op in ops ==> op == FloorFog(w, h, hc, cfg) || op == CeilingFog(w, hc, cfg)
    ensures forall op :: op in ops ==> op.paint.FogRamp? && op.paint.y0 == hc as real
  {
    (if cfg.fogMaxAlpha > 0.0 && hc < h then [FloorFog(w, h, hc, cfg)] else [])
    + (if !useSky && cfg.fogMaxAlpha > 0.0 && hc > 0 then [CeilingFog(w, hc, cfg)] else [])
  }

  // ---------------------------------------------------------------------
  // Filling the buffer
  // ---------------------------------------------------------------------

  /** `buf.fill(0)`. */
  method Clear(buf: array2<int>)
    modifies buf
    ensures forall y, x :: 0 <= y < buf.Length0 && 0 <= x < buf.Length1 ==> buf[y, x] == 0
  {
    for y := 0 to buf.Length0
      invariant forall r, c :: 0 <= r < y && 0 <= c < buf.Length1 ==> buf[r, c] == 0
    {
      for x := 0 to buf.Length1
        invariant forall r, c :: 0 <= r < y && 0 <= c < buf.Length1 ==> buf[r, c] == 0
        invariant forall c :: 0 <= c < x ==> buf[y, c] == 0
      {
        buf[y, x] := 0;
      }
    }
  }

  /** One floor or ceiling row: two accumulators walk the world point
      across the row from (x0, y0) by (sx, sy) per column while each column
      stores its masked texel. */
  method FlatRow(buf: array2<int>, y: int, table: seq<int>, size: int, x0: real, sx: real, y0: real, sy: real)
    requires IsPowerOfTwo(size) && 0 <= y < buf.Length0
    modifies buf
    ensures forall x :: 0 <= x < buf.Length1 ==> buf[y, x] == TexelAt(table, size, Along(x0, x, sx), Along(y0, x, sy))
    ensures forall r, c :: 0 <= r < buf.Length0 && 0 <= c < buf.Length1 && r != y ==> buf[r, c] == old(buf[r, c])
  {
    var fx := x0;
    var fy := y0;
    AlongNext(x0, 0, sx);
    AlongNext(y0, 0, sy);
    for x := 0 to buf.Length1
      invariant fx == Along(x0, x, sx)
      invariant fy == Along(y0, x, sy)
      invariant forall c :: 0 <= c < x ==> buf[y, c] == TexelAt(table, size, Along(x0, c, sx), Along(y0, c, sy))
      invariant forall r, c :: 0 <= r < buf.Length0 && 0 <= c < buf.Length1 && r != y ==> buf[r, c] == old(buf[r, c])
    {
      var tx := Mask(Scaled(fx, size), size);
      var ty := Mask(Scaled(fy, size), size);
      buf[y, x] := TexelOr0(table, TexelIndex(tx, ty, size));
      AlongNext(x0, x, sx);
      AlongNext(y0, x, sy);
      fx := fx + sx;
      fy := fy + sy;
    }
  }

  /** One sky row showing sky row v: the view angle is accumulated across
      the row from a0 by `step` per column and each column stores the texel
      of its wrapped sky column. */
  method SkyRow(buf: array2<int>, y: int, table: seq<int>, skyW: int, v: int, a0: real, step: real)
    requires skyW > 0 && 0 <= y < buf.Length0
    modifies buf
    ensures forall x :: 0 <= x < buf.Length1 ==>
      buf[y, x] == TexelOr0(table, TexelIndex(WrappedSkyColumn(skyW, Along(a0, x, step)), v, skyW))
    ensures forall r, c :: 0 <= r < buf.Length0 && 0 <= c < buf.Length1 && r != y ==> buf[r, c] == old(buf[r, c])
  {
    var angle := a0;
    AlongNext(a0, 0, step);
    for x := 0 to buf.Length1
      invariant angle == Along(a0, x, step)
      invariant forall c :: 0 <= c < x ==>
        buf[y, c] == TexelOr0(table, TexelIndex(WrappedSkyColumn(skyW, Along(a0, c, step)), v, skyW))
      invariant forall r, c :: 0 <= r < buf.Length0 && 0 <= c < buf.Length1 && r != y ==> buf[r, c] == old(buf[r, c])
    {
      var su := SkyColumn(skyW, angle);
      su := JsRem(JsRem(su, skyW) + skyW, skyW);
      buf[y, x] := TexelOr0(table, TexelIndex(su, v, skyW));
      AlongNext(a0, x, step);
      angle := angle + step;
    }
  }

  /** The floor rows, from the clamped horizon down; rows at or above the
      horizon are skipped. Rows above the clamped horizon stay cleared. */
  method FloorRows(buf: array2<int>, s: Pass)
    requires Wrappable(s) && buf.Length0 == s.h && buf.Length1 == s.w
    requires forall y, x :: 0 <= y < s.h && 0 <= x < s.w ==> buf[y, x] == 0
    modifies buf
    ensures forall y, x :: 0 <= y < s.h && 0 <= x < s.w ==>
      buf[y, x] == if y < Clamped(s.h, s.horizon) then 0 else FloorPixel(s, y, x)
  {
    var hc := Clamped(s.h, s.horizon);
    var y := hc;
    while y < s.h
      invariant hc <= y <= s.h
      invariant forall r, c :: 0 <= r < s.h && 0 <= c < s.w ==>
        buf[r, c] == if hc <= r < y then FloorPixel(s, r, c) else 0
    {
      var p := y - s.horizon;
      if p > 0 {
        var d := RowDistance(s.h, 0.5 + s.eye.z, p);
        FlatRow(buf, y, s.floorTable, s.fSize, RowStartX(s, d), RowStepX(s, d), RowStartY(s, d), RowStepY(s, d));
      }
      y := y + 1;
    }
  }

  /** The rows above the clamped horizon: sky rows or ceiling rows. */
  method UpperRows(buf: array2<int>, s: Pass)
    requires Wrappable(s) && buf.Length0 == s.h && buf.Length1 == s.w
    requires forall y, x :: 0 <= y < Clamped(s.h, s.horizon) && 0 <= x < s.w ==> buf[y, x] == 0
    modifies buf
    ensures forall y, x :: 0 <= y < Clamped(s.h, s.horizon) && 0 <= x < s.w ==> buf[y, x] == UpperPixel(s, y, x)
    ensures forall y, x :: Clamped(s.h, s.horizon) <= y < s.h && 0 <= x < s.w ==> buf[y, x] == old(buf[y, x])
  {
    var hc := Clamped(s.h, s.horizon);
    for y := 0 to hc
      invariant forall r, c :: 0 <= r < hc && 0 <= c < s.w ==>
        buf[r, c] == if r < y then UpperPixel(s, r, c) else 0
      invariant forall r, c :: hc <= r < s.h && 0 <= c < s.w ==> buf[r, c] == old(buf[r, c])
    {
      if s.useSky {
        SkyRow(buf, y, s.skyTable, s.skyW, SkyV(s, y), AngleBase(s), AngleStep(s));
      } else {
        var d := RowDistance(s.h, 0.5 - s.eye.z, s.horizon - y);
        if d >= 0.0 {
          FlatRow(buf, y, s.ceilingTable, s.cSize, RowStartX(s, d), RowStepX(s, d), RowStartY(s, d), RowStepY(s, d));
        }
      }
    }
  }

  // ---------------------------------------------------------------------
  // The cached state
  // ---------------------------------------------------------------------

  /** The module's caches: the pixel buffer with the size it was made for,
      and the three packed tables, built on the first pass. */
  class FloorCaster {
    var bufferW: int
    var bufferH: int
    var pixels: array2<int>
    var packed: bool
    var floorTable: seq<int>
    var ceilingTable: seq<int>
    var skyTable: seq<int>

    /** The buffer has the cached size. */
    ghost predicate Valid()
      reads this
    {
      pixels.Length0 == bufferH && pixels.Length1 == bufferW
    }

    /** The pass as it reads this state and its arguments. */
    function PassOf(w: nat, h: nat, horizon: int, eye: Eye, basis: Raycaster.Basis,
                    t: Textures.Bundle, useSky: bool, cfg: Config.Config): Pass
      reads this
    {
      Pass(w, h, horizon, eye, basis,
           floorTable, t.floor.size, ceilingTable, t.ceiling.size,
           skyTable, t.sky.width, t.sky.height, useSky, cfg.fov)
    }

    constructor ()
      ensures Valid() && bufferW == 0 && bufferH == 0 && !packed
    {
      bufferW := 0;
      bufferH := 0;
      pixels := new int[0, 0];
      packed := false;
      floorTable := [];
      ceilingTable := [];
      skyTable := [];
    }

    /** `ensureBuffer`: a new, cleared buffer exactly when the size differs
      from the cached one; the cached size is then the requested one. */
    method EnsureBuffer(w: nat, h: nat)
      requires Valid()
      modifies this
      ensures Valid() && bufferW == w && bufferH == h
      ensures (old(bufferW) != w || old(bufferH) != h) ==>
        fresh(pixels) && forall y, x :: 0 <= y < h && 0 <= x < w ==> pixels[y, x] == 0
      ensures old(bufferW) == w && old(bufferH) == h ==> pixels == old(pixels)
      ensures packed == old(packed) && floorTable == old(floorTable)
      ensures ceilingTable == old(ceilingTable) && skyTable == old(skyTable)
    {
      if bufferW != w || bufferH != h {
        bufferW := w;
        bufferH := h;
        pixels := new int[h, w]((_, _) => 0);
      }
    }

    /** `ensurePacked`: the first call packs the bundle's three bitmaps;
      every later call keeps the tables, whatever bundle it is given. */
    method EnsurePacked(t: Textures.Bundle)
      requires t.sky.width >= 0 && t.sky.height >= 0
      modifies this
      ensures packed
      ensures old(packed) ==> floorTable == old(floorTable) && ceilingTable == old(ceilingTable) && skyTable == old(skyTable)
      ensures !old(packed) ==>
        && floorTable == PackedUpTo(t.floor.data, Square(t.floor.size))
        && ceilingTable == PackedUpTo(t.ceiling.data, Square(t.ceiling.size))
        && skyTable == PackedUpTo(t.sky.data, Area(t.sky.width, t.sky.height))
      ensures bufferW == old(bufferW) && bufferH == old(bufferH) && pixels == old(pixels)
    {
      if packed {
        return;
      }
      floorTable := PackTexture(t.floor.data, Square(t.floor.size));
      ceilingTable := PackTexture(t.ceiling.data, Square(t.ceiling.size));
      skyTable := PackTexture(t.sky.data, Area(t.sky.width, t.sky.height));
      packed := true;
    }

    /** `drawFloorAndSky`: size the buffer, pack the textures on the first
      call, clear the buffer, fill the floor rows and then the sky or
      ceiling rows, and return the fog gradients drawn over them. */
    method DrawFloorAndSky(w: nat, h: nat, horizon: int, eye: Eye, basis: Raycaster.Basis,
                           t: Textures.Bundle, useSky: bool, cfg: Config.Config)
      returns (ops: seq<Op>)
      requires Valid()
      requires IsPowerOfTwo(t.floor.size) && IsPowerOfTwo(t.ceiling.size)
      requires t.sky.width > 0 && t.sky.height >= 0
      modifies this, pixels
      ensures Valid() && bufferW == w && bufferH == h && packed
      ensures old(packed) ==> floorTable == old(floorTable) && ceilingTable == old(ceilingTable) && skyTable == old(skyTable)
      ensures !old(packed) ==> floorTable == PackedUpTo(t.floor.data, Square(t.floor.size))
      ensures !old(packed) ==> ceilingTable == PackedUpTo(t.ceiling.data, Square(t.ceiling.size))
      ensures !old(packed) ==> skyTable == PackedUpTo(t.sky.data, Area(t.sky.width, t.sky.height))
      ensures forall y, x :: 0 <= y < h && 0 <= x < w ==>
        pixels[y, x] == Pixel(PassOf(w, h, horizon, eye, basis, t, useSky, cfg), y, x)
      ensures ops == FogOps(w, h, Clamped(h, horizon), useSky, cfg)
    {
      EnsureBuffer(w, h);
      EnsurePacked(t);
      var s := PassOf(w, h, horizon, eye, basis, t, useSky, cfg);
      var buf := pixels;
      Clear(buf);
      FloorRows(buf, s);
      UpperRows(buf, s);
      ops := FogOps(w, h, Clamped(h, horizon), useSky, cfg);
    }
  }

  /** `size * size`, the texel count of a square texture. */
  function Square(n: int): (r: nat)
  {
    var m: nat := if n < 0 then -n else n;
    m * m
  }

  /** `width * height` of a sky band with non-negative sides. */
  function Area(a: int, b: int): (r: nat)
    requires a >= 0 && b >= 0
  {
    a * b
  }
}
