/** Numeric conventions of the JavaScript runtime the game runs on, stated over
    Dafny's unbounded `int` and exact `real`. */
module Js {

  datatype Option<+T> = None | Some(value: T)

  /** A non-negative JS number that may be `Infinity` (a reciprocal of zero,
      a miss depth). */
  datatype Ext = Fin(r: real) | Inf

  /** JS `<` on two such numbers: `Infinity < x` is always false. */
  predicate Less(a: Ext, b: Ext)
  {
    a.Fin? && (b.Inf? || a.r < b.r)
  }

  /** JS `+` on two such numbers. */
  function Add(a: Ext, b: Ext): (c: Ext)
    ensures c.Fin? <==> a.Fin? && b.Fin?
  {
    if a.Fin? && b.Fin? then Fin(a.r + b.r) else Inf
  }

  /** JS `f * e` for a factor that is positive whenever `e` is `Infinity`
      (so that `0 * Infinity`, which is NaN, never arises). */
  function Scale(f: real, e: Ext): (c: Ext)
    requires e.Inf? ==> f > 0.0
    ensures c.Fin? <==> e.Fin?
  {
    if e.Fin? then Fin(f * e.r) else Inf
  }

  function Abs(x: real): (r: real)
    ensures r >= 0.0 && (r == x || r == -x)
  {
    if x < 0.0 then -x else x
  }

  function MinR(a: real, b: real): (r: real)
    ensures r <= a && r <= b && (r == a || r == b)
  {
    if a < b then a else b
  }

  function MaxR(a: real, b: real): (r: real)
    ensures r >= a && r >= b && (r == a || r == b)
  {
    if a < b then b else a
  }

  /** The product of two non-negative reals is non-negative. */
  lemma MulNonNeg(a: real, b: real)
    requires a >= 0.0 && b >= 0.0
    ensures a * b >= 0.0
  {
  }

  /** A product kept as a term of its own, so that facts about it stay
      attached to it in nonlinear proofs. */
  function Mul(a: real, b: real): real
  {
    a * b
  }

  /** The product of two positive reals is positive. */
  lemma MulPos(a: real, b: real)
    requires a > 0.0 && b > 0.0
    ensures Mul(a, b) > 0.0
  {
  }

  function MinI(a: int, b: int): (r: int)
    ensures r <= a && r <= b && (r == a || r == b)
  {
    if a < b then a else b
  }

  function MaxI(a: int, b: int): (r: int)
    ensures r >= a && r >= b && (r == a || r == b)
  {
    if a < b then b else a
  }

  /** `Math.floor` */
  function Floor(x: real): (r: int)
    ensures r as real <= x < r as real + 1.0
  {
    x.Floor
  }

  /** `Math.floor` is monotone. */
  lemma FloorMono(x: real, y: real)
    requires x <= y
    ensures Floor(x) <= Floor(y)
  {
  }

  /** Truncation toward zero, which is what `v | 0` and the ToInt32 step of
      `v & mask` do to a number inside the 32-bit range. */
  function Trunc(x: real): (r: int)
    ensures x >= 0.0 ==> 0 <= r && r as real <= x < r as real + 1.0
    ensures x < 0.0 ==> r <= 0 && r as real - 1.0 < x <= r as real
  {
    if x >= 0.0 then Floor(x) else -Floor(-x)
  }

  /** The integer part of a fraction in [0, 1) scaled by a positive size lies in [0, size). */
  lemma TruncUnitScaled(f: real, size: nat)
    requires 0.0 <= f < 1.0 && size > 0
    ensures 0 <= Trunc(f * size as real) < size
  {
    var t := Trunc(f * size as real);
    assert f * size as real < size as real by {
      assert size as real * (1.0 - f) > 0.0;
    }
  }

  /** JS `%` on integers: the remainder takes the sign of the dividend. */
  function JsRem(a: int, b: int): (r: int)
    requires b > 0
    ensures a >= 0 ==> 0 <= r < b
    ensures a < 0 ==> -b < r <= 0
  {
    if a >= 0 then a % b else -((-a) % b)
  }

  /** Quotient and remainder are determined by any quotient-remainder
      decomposition. */
  lemma ModUnique(a: int, b: int, q: int, m: int)
    requires b > 0 && a == q * b + m && 0 <= m < b
    ensures a / b == q && a % b == m
  {
    var d := q - a / b;
    assert d * b == a % b - m;
  }

  /** `((a % b) + b) % b` with JS `%` is the mathematical (Euclidean) remainder. */
  lemma WrapIsEuclidean(a: int, b: int)
    requires b > 0
    ensures JsRem(JsRem(a, b) + b, b) == a % b
  {
    if a < 0 {
      var q := (-a) / b;
      var m := (-a) % b;
      assert -a == q * b + m;
      if m == 0 {
        ModUnique(a, b, -q, 0);
        ModUnique(b, b, 1, 0);
      } else {
        ModUnique(a, b, -q - 1, b - m);
        ModUnique(b - m, b, 0, b - m);
      }
    } else {
      ModUnique(a % b + b, b, 1, a % b);
    }
  }

  predicate IsPowerOfTwo(n: int)
    decreases if n < 0 then 0 else n
  {
    n == 1 || (n > 1 && n % 2 == 0 && IsPowerOfTwo(n / 2))
  }

  /** `v & (size - 1)` for a power-of-two `size`: ToInt32 truncates and keeps
      the low 32 bits, and masking keeps the low bits of those, so the result
      is the non-negative remainder of the truncated value. */
  function Mask(v: real, size: int): (r: int)
    requires IsPowerOfTwo(size)
    ensures 0 <= r < size
  {
    Trunc(v) % size
  }

  /** The two-dimensional texel index of a masked pair stays inside a
      `size * size` table. */
  lemma TexelIndexInRange(tx: int, ty: int, size: int)
    requires 0 <= tx < size && 0 <= ty < size
    ensures 0 <= ty * size + tx < size * size
  {
    assert ty * size <= (size - 1) * size;
  }

  /** The math library calls the source makes; the model takes their results
      as given functions rather than computing them. */
  datatype MathLib = MathLib(cos: real -> real, sin: real -> real, tan: real -> real, sqrt: real -> real)

  /** `Math.random()`: the model reads the n-th value drawn from a stream the
      caller supplies; each value is in [0, 1). */
  type Rng = nat -> real

  /** JS `Math.PI` as a double. */
  const Pi: real := 3.141592653589793

  /** Decimal text of an integer, as a template literal prints it. */
  function IntText(n: int): (s: string)
    ensures |s| > 0
    decreases if n < 0 then -n + 1 else n
  {
    if n < 0 then "-" + IntText(-n)
    else if n < 10 then [DigitChar(n)]
    else IntText(n / 10) + [DigitChar(n % 10)]
  }

  function DigitChar(d: int): char
    requires 0 <= d < 10
  {
    ('0' as int + d) as char
  }
}
