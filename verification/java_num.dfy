/** Java's fixed-width numeric conversions as the sound engine uses them, and the
    signed 16-bit little-endian PCM encoding of one sample.  A Java `double` is a
    `real` here; integers are unbounded and every narrowing is written out. */
module JavaNum {

  const INT_MIN: int := -0x8000_0000
  const INT_MAX: int := 0x7fff_ffff
  const LONG_MIN: int := -0x8000_0000_0000_0000
  const LONG_MAX: int := 0x7fff_ffff_ffff_ffff
  /** Short.MIN_VALUE and Short.MAX_VALUE */
  const SHORT_MIN: int := -0x8000
  const SHORT_MAX: int := 0x7fff

  /** A Java `byte`. */
  type Byte = b: int | -0x80 <= b < 0x80
  /** A Java `short`. */
  type Short = v: int | SHORT_MIN <= v <= SHORT_MAX

  predicate IsInt(x: int) { INT_MIN <= x <= INT_MAX }

  /** Narrowing to a 32-bit `int`: two's-complement wrap-around. */
  function Int32(x: int): (r: int)
    ensures IsInt(r)
    ensures (r - x) % 0x1_0000_0000 == 0
    ensures IsInt(x) ==> r == x
  {
    (x + 0x8000_0000) % 0x1_0000_0000 - 0x8000_0000
  }

  /** Narrowing to a 16-bit `short`: two's-complement wrap-around. */
  function Int16(x: int): (r: Short)
    ensures (r - x) % 0x1_0000 == 0
    ensures SHORT_MIN <= x <= SHORT_MAX ==> r == x
  {
    (x + 0x8000) % 0x1_0000 - 0x8000
  }

  /** Narrowing to an 8-bit `byte`: two's-complement wrap-around. */
  function Int8(x: int): (r: Byte)
    ensures (r - x) % 0x100 == 0
    ensures -0x80 <= x < 0x80 ==> r == x
  {
    (x + 0x80) % 0x100 - 0x80
  }

  /** Rounding toward zero. */
  function Trunc(x: real): (r: int)
    ensures 0.0 <= x ==> r as real <= x < r as real + 1.0
    ensures x < 0.0 ==> r as real - 1.0 < x <= r as real
  {
    if x >= 0.0 then x.Floor else -((-x).Floor)
  }

  /** The least integer not below `x`. */
  function Ceil(x: real): (r: int)
    ensures x <= r as real < x + 1.0
  {
    -((-x).Floor)
  }

  /** A loop `for (i = 0; i < x; i++)` over a `double` bound runs Ceil(x) times. */
  lemma BelowCeil(i: int, x: real)
    requires i as real < x
    ensures i < Ceil(x)
  {
  }

  /** The `(int)` cast of a `double`: truncation toward zero, saturating at the `int` range. */
  function DoubleToInt(x: real): (r: int)
    ensures IsInt(r)
    ensures IsInt(Trunc(x)) ==> r == Trunc(x)
    ensures Trunc(x) < INT_MIN ==> r == INT_MIN
    ensures INT_MAX < Trunc(x) ==> r == INT_MAX
  {
    var t := Trunc(x);
    if t < INT_MIN then INT_MIN else if INT_MAX < t then INT_MAX else t
  }

  /** `Math.round` of a `double`: the nearest `long`, halves rounded up, saturating. */
  function RoundToLong(x: real): (r: int)
    ensures LONG_MIN <= r <= LONG_MAX
    ensures LONG_MIN as real <= x < LONG_MAX as real ==> r as real - 0.5 <= x < r as real + 0.5
    ensures LONG_MAX as real <= x ==> r == LONG_MAX
    ensures x < LONG_MIN as real ==> r == LONG_MIN
  {
    var f := (x + 0.5).Floor;
    if f < LONG_MIN then LONG_MIN else if LONG_MAX < f then LONG_MAX else f
  }

  /** `Math.max` of two `double`s. */
  function MathMax(a: real, b: real): (r: real)
    ensures a <= r && b <= r
    ensures r == a || r == b
  {
    if a >= b then a else b
  }

  /** The clamp of a summed sample to the `short` range (AudioBuffer.java:174-178 and 199-203). */
  function Clamp(sum: real): (r: real)
    ensures SHORT_MIN as real <= r <= SHORT_MAX as real
    ensures SHORT_MIN as real <= sum <= SHORT_MAX as real ==> r == sum
    ensures SHORT_MAX as real < sum ==> r == SHORT_MAX as real
    ensures sum < SHORT_MIN as real ==> r == SHORT_MIN as real
  {
    if sum > SHORT_MAX as real then SHORT_MAX as real
    else if sum < SHORT_MIN as real then SHORT_MIN as real
    else sum
  }

  /** `(short) sum` of a `double`: Java narrows through `int`, then wraps to 16 bits. */
  function ShortCast(x: real): Short
  {
    Int16(DoubleToInt(x))
  }

  /** A summed sample as the engine stores it: clamped, then cast to `short`.
      Out-of-range sums saturate at the nearest bound; they never wrap around. */
  function Saturate(sum: real): (v: Short)
  {
    if SHORT_MAX as real <= sum then SHORT_MAX
    else if sum <= SHORT_MIN as real then SHORT_MIN
    else Trunc(sum)
  }

  /** Java's own path, clamp then `(short)` through `int`, gives the same sample. */
  lemma SaturateIsCast(sum: real)
    ensures Saturate(sum) == ShortCast(Clamp(sum))
  {
  }

  /** Saturation never wraps around: a larger sum never gives a smaller sample,
      and the sample keeps the sign of the sum. */
  lemma SaturateMono(a: real, b: real)
    requires a <= b
    ensures Saturate(a) <= Saturate(b)
    ensures 0.0 <= a ==> 0 <= Saturate(a)
    ensures a <= 0.0 ==> Saturate(a) <= 0
  {
  }

  /** Without the clamp the cast would wrap: a sum of 32768 becomes -32768. */
  lemma CastWithoutClampWraps()
    ensures ShortCast(32768.0) == SHORT_MIN
    ensures Saturate(32768.0) == SHORT_MAX
  {
  }

  /** `(byte) value`: the low byte of a sample. */
  function LowByte(v: Short): Byte
  {
    Int8(v)
  }

  /** `(byte) (value >> 8)`: the high byte; `>>` on an `int` is floor division by 256. */
  function HighByte(v: Short): Byte
  {
    Int8(v / 0x100)
  }

  /** A byte read as unsigned, `b & 0xff`. */
  function Unsigned(b: Byte): (u: int)
    ensures 0 <= u < 0x100
    ensures (u - b) % 0x100 == 0
  {
    b % 0x100
  }

  /** Reads back a little-endian signed 16-bit sample from its two bytes. */
  function Decode16(lo: Byte, hi: Byte): (v: Short)
  {
    Unsigned(lo) + 0x100 * hi
  }

  /** The two bytes written per sample give that sample back. */
  lemma EncodeDecode16(v: Short)
    ensures Decode16(LowByte(v), HighByte(v)) == v
  {
    var q, m := v / 0x100, v % 0x100;
    assert v == 0x100 * q + m;
    assert -0x80 <= q < 0x80;
    assert HighByte(v) == q;
    assert Unsigned(LowByte(v)) == m;
  }
}
