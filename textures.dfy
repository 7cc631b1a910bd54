/** Texture dimensions, the sky gradient, and the two byte loops that
    rewrite a generated RGBA image in place: the darkened variant used for
    y-side walls and the per-pixel noise. */
module Textures {
  import opened Js

  /** Wall, floor and ceiling textures are TexSize × TexSize. */
  const TexSize: int := 64
  const SkyWidth: int := 512
  const SkyHeight: int := 200

  /** A floor or ceiling texture: RGBA bytes of a `size` × `size` image. */
  datatype FlatTexture = FlatTexture(data: seq<int>, size: int)

  /** The sky image: RGBA bytes of a `width` × `height` image. */
  datatype SkyImage = SkyImage(data: seq<int>, width: int, height: int)

  /** The three tables the floor and sky filler reads. */
  datatype Bundle = Bundle(floor: FlatTexture, ceiling: FlatTexture, sky: SkyImage)

  /** The colour of sky row `y`: a gradient from dark blue at the top to a
      lighter blue-grey at the bottom. */
  function SkyRow(y: int): (c: (int, int, int))
    requires 0 <= y < SkyHeight
    ensures 20 <= c.0 < 80 && 20 <= c.1 < 70 && 60 <= c.2 < 160
  {
    var t := y as real / SkyHeight as real;
    (Floor(20.0 + t * 60.0), Floor(20.0 + t * 50.0), Floor(60.0 + t * 100.0))
  }

  /** Every channel of the sky gradient brightens (weakly) downward. */
  lemma SkyRowMonotone(y1: int, y2: int)
    requires 0 <= y1 <= y2 < SkyHeight
    ensures SkyRow(y1).0 <= SkyRow(y2).0
    ensures SkyRow(y1).1 <= SkyRow(y2).1
    ensures SkyRow(y1).2 <= SkyRow(y2).2
  {
    var t1 := y1 as real / SkyHeight as real;
    var t2 := y2 as real / SkyHeight as real;
    assert t1 <= t2;
    FloorMono(20.0 + t1 * 60.0, 20.0 + t2 * 60.0);
    FloorMono(20.0 + t1 * 50.0, 20.0 + t2 * 50.0);
    FloorMono(60.0 + t1 * 100.0, 60.0 + t2 * 100.0);
  }

  /** Every entry is a byte. */
  predicate Bytes(s: seq<int>)
  {
    forall i :: 0 <= i < |s| ==> 0 <= s[i] <= 255
  }

  /** Storing a number into a `Uint8ClampedArray`: clamp to [0, 255], then
      round to the nearest integer, ties to even. */
  function ClampByte(v: real): (b: int)
    ensures 0 <= b <= 255
    ensures v <= 0.0 ==> b == 0
    ensures v >= 255.0 ==> b == 255
    ensures 0.0 <= v <= 255.0 ==> Abs(b as real - v) <= 0.5
  {
    if v <= 0.0 then 0
    else if v >= 255.0 then 255
    else
      var f := Floor(v);
      var frac := v - f as real;
      if frac < 0.5 then f
      else if frac > 0.5 then f + 1
      else if f % 2 == 0 then f else f + 1
  }

  /** The darkened copy of one byte (35% darker). */
  function DarkByte(v: int): (r: int)
    requires 0 <= v <= 255
    ensures 0 <= r <= v
    ensures r as real <= 0.65 * v as real < r as real + 1.0
  {
    Floor(v as real * 0.65)
  }

  /** The image bytes after `generateDarkVariant`'s loop: every colour byte
      darkened, every alpha byte (offset 3 of a pixel) kept. */
  function Darkened(d: seq<int>): (r: seq<int>)
    requires Bytes(d)
    ensures |r| == |d| && Bytes(r)
    ensures forall i :: 0 <= i < |d| && i % 4 == 3 ==> r[i] == d[i]
    ensures forall i :: 0 <= i < |d| && i % 4 != 3 ==> r[i] <= d[i] && r[i] == DarkByte(d[i])
  {
    seq(|d|, i requires 0 <= i < |d| => if i % 4 == 3 then d[i] else DarkByte(d[i]))
  }

  /** `generateDarkVariant`: darkens the R, G and B bytes of each pixel in
      place, stepping four bytes at a time. */
  method DarkVariant(data: array<int>)
    requires data.Length % 4 == 0 && Bytes(data[..])
    modifies data
    ensures data[..] == Darkened(old(data[..]))
  {
    ghost var d := data[..];
    ghost var target := Darkened(d);
    var i := 0;
    ghost var k := 0;
    while i < data.Length
      invariant 0 <= i <= data.Length && i == 4 * k
      invariant forall j :: 0 <= j < i ==> data[j] == target[j]
      invariant forall j :: i <= j < data.Length ==> data[j] == d[j]
    {
      DarkenedPixel(d, k);
      DarkPixel(data, i);
      i := i + 4;
      k := k + 1;
    }
  }

  /** The body of `generateDarkVariant`'s loop: the colour bytes of the
      pixel at offset `i` darkened. */
  method DarkPixel(data: array<int>, i: nat)
    requires i + 3 < data.Length
    requires 0 <= data[i] <= 255 && 0 <= data[i + 1] <= 255 && 0 <= data[i + 2] <= 255
    modifies data
    ensures data[i] == DarkByte(old(data[i]))
    ensures data[i + 1] == DarkByte(old(data[i + 1]))
    ensures data[i + 2] == DarkByte(old(data[i + 2]))
    ensures forall j :: 0 <= j < data.Length && j != i && j != i + 1 && j != i + 2 ==> data[j] == old(data[j])
  {
    data[i] := Floor(data[i] as real * 0.65);
    data[i + 1] := Floor(data[i + 1] as real * 0.65);
    data[i + 2] := Floor(data[i + 2] as real * 0.65);
  }

  /** The four bytes of pixel `k` after darkening. */
  lemma DarkenedPixel(d: seq<int>, k: nat)
    requires Bytes(d) && 4 * k + 3 < |d|
    ensures var r := Darkened(d);
      && r[4 * k] == DarkByte(d[4 * k])
      && r[4 * k + 1] == DarkByte(d[4 * k + 1])
      && r[4 * k + 2] == DarkByte(d[4 * k + 2])
      && r[4 * k + 3] == d[4 * k + 3]
  {
    PixelBytes(k);
  }

  /** The four bytes of pixel `k` sit at offsets 0..3 of their group of four. */
  lemma PixelBytes(k: nat)
    ensures (4 * k) % 4 == 0 && (4 * k + 1) % 4 == 1 && (4 * k + 2) % 4 == 2 && (4 * k + 3) % 4 == 3
    ensures (4 * k) / 4 == k && (4 * k + 1) / 4 == k && (4 * k + 2) / 4 == k
  {
    ModUnique(4 * k, 4, k, 0);
    ModUnique(4 * k + 1, 4, k, 1);
    ModUnique(4 * k + 2, 4, k, 2);
    ModUnique(4 * k + 3, 4, k, 3);
  }

  /** The offset `addNoise` draws for pixel `k`: the k-th random value,
      centred on zero and scaled by 255 times the intensity. */
  function NoiseOffset(rng: Rng, k: nat, intensity: real): real
  {
    (rng(k) - 0.5) * 255.0 * intensity
  }

  /** The byte stored for colour byte `v` shifted by `n`. */
  function NoisyByte(v: int, n: real): (b: int)
    ensures 0 <= b <= 255
    ensures v as real + n <= 0.0 ==> b == 0
    ensures v as real + n >= 255.0 ==> b == 255
    ensures 0.0 <= v as real + n <= 255.0 ==> Abs(b as real - (v as real + n)) <= 0.5
  {
    ClampByte(MaxR(0.0, MinR(255.0, v as real + n)))
  }

  /** The image bytes after `addNoise`: each pixel's R, G and B move by the
      same offset and are clamped to a byte; alpha is kept. */
  function Noised(d: seq<int>, intensity: real, rng: Rng): (r: seq<int>)
    ensures |r| == |d|
    ensures forall i :: 0 <= i < |d| && i % 4 == 3 ==> r[i] == d[i]
    ensures forall i :: 0 <= i < |d| && i % 4 != 3 ==> r[i] == NoisyByte(d[i], NoiseOffset(rng, i / 4, intensity))
  {
    seq(|d|, i requires 0 <= i < |d| => if i % 4 == 3 then d[i] else NoisyByte(d[i], NoiseOffset(rng, i / 4, intensity)))
  }

  /** `addNoise`: shifts the colour bytes of every pixel by that pixel's
      random offset, in place. */
  method AddNoise(data: array<int>, intensity: real, rng: Rng)
    requires data.Length % 4 == 0
    modifies data
    ensures data[..] == Noised(old(data[..]), intensity, rng)
  {
    ghost var d := data[..];
    ghost var target := Noised(d, intensity, rng);
    var i := 0;
    var k := 0;
    while i < data.Length
      invariant 0 <= i <= data.Length && i == 4 * k
      invariant forall j :: 0 <= j < i ==> data[j] == target[j]
      invariant forall j :: i <= j < data.Length ==> data[j] == d[j]
    {
      var n := NoiseOffset(rng, k, intensity);
      PixelBytes(k);
      NoisedPixel(d, intensity, rng, k);
      NoisePixel(data, i, n);
      i := i + 4;
      k := k + 1;
    }
  }

  /** The body of `addNoise`'s loop: the colour bytes of the pixel at
      offset `i` shifted by `n` and clamped. */
  method NoisePixel(data: array<int>, i: nat, n: real)
    requires i + 3 < data.Length
    modifies data
    ensures data[i] == NoisyByte(old(data[i]), n)
    ensures data[i + 1] == NoisyByte(old(data[i + 1]), n)
    ensures data[i + 2] == NoisyByte(old(data[i + 2]), n)
    ensures forall j :: 0 <= j < data.Length && j != i && j != i + 1 && j != i + 2 ==> data[j] == old(data[j])
  {
    data[i] := NoisyByte(data[i], n);
    data[i + 1] := NoisyByte(data[i + 1], n);
    data[i + 2] := NoisyByte(data[i + 2], n);
  }

  /** The four bytes of pixel `k` after `addNoise`. */
  lemma NoisedPixel(d: seq<int>, intensity: real, rng: Rng, k: nat)
    requires 4 * k + 3 < |d|
    ensures var r := Noised(d, intensity, rng);
      var n := NoiseOffset(rng, k, intensity);
      && r[4 * k] == NoisyByte(d[4 * k], n)
      && r[4 * k + 1] == NoisyByte(d[4 * k + 1], n)
      && r[4 * k + 2] == NoisyByte(d[4 * k + 2], n)
      && r[4 * k + 3] == d[4 * k + 3]
  {
    PixelBytes(k);
  }

  /** Noise leaves alpha alone and yields bytes everywhere when the input
      was bytes. */
  lemma NoisedIsBytes(d: seq<int>, intensity: real, rng: Rng)
    requires Bytes(d)
    ensures Bytes(Noised(d, intensity, rng))
  {
    var r := Noised(d, intensity, rng);
    forall i | 0 <= i < |r|
      ensures 0 <= r[i] <= 255
    {
      if i % 4 == 3 {
        assert r[i] == d[i];
      }
    }
  }
}
