/**
 * The few JavaScript number operations the gradient generator relies on:
 * `Math.round`, `Math.max(0, Math.min(255, n))`, and the conversion that a
 * store into a `Uint8ClampedArray` applies to its value.
 */
module JsNumber {

  /** A value a `Uint8ClampedArray` element can hold. */
  type Byte = x: int | 0 <= x <= 255

  /** `Math.abs`: the distance of `x` from 0. */
  function Abs(x: real): (r: real)
    ensures r >= 0.0 && (r == x || r == -x)
  {
    if x < 0.0 then -x else x
  }

  /** `Math.round`: the nearest integer, halves rounded towards +infinity. */
  function Round(x: real): (r: int)
    ensures r as real <= x + 0.5 < r as real + 1.0
  {
    (x + 0.5).Floor
  }

  /** `Math.max(0, Math.min(255, n))`. */
  function ClampByte(n: int): (b: Byte)
    ensures 0 <= n <= 255 ==> b == n
    ensures n < 0 ==> b == 0
    ensures n > 255 ==> b == 255
  {
    if n < 0 then 0 else if n > 255 then 255 else n
  }

  /**
   * The byte Math.round followed by the clamp gives for a channel value: the
   * nearest byte, halves going up, with values off either end clamped.
   */
  function Level(x: real): (b: Byte)
    ensures x < -0.5 ==> b == 0
    ensures x >= 254.5 ==> b == 255
    ensures -0.5 <= x < 254.5 ==> b as real - 0.5 <= x < b as real + 0.5
  {
    ClampByte(Round(x))
  }

  /**
   * The value a `Uint8ClampedArray` element holds after `x` is stored into it
   * (ToUint8Clamp): clamped to 0..255, then rounded to the nearest integer with
   * ties going to the even one.
   */
  function ToUint8Clamp(x: real): (b: Byte)
    ensures x <= 0.0 ==> b == 0
    ensures x >= 255.0 ==> b == 255
    ensures 0.0 <= x <= 255.0 ==> x - 0.5 <= b as real <= x + 0.5
    ensures 0.0 < x < 255.0 && x == x.Floor as real + 0.5 ==> b % 2 == 0
  {
    if x <= 0.0 then 0
    else if x >= 255.0 then 255
    else
      var f := x.Floor;
      if f as real + 0.5 < x then f + 1
      else if x < f as real + 0.5 then f
      else if f % 2 == 0 then f
      else f + 1
  }

  /** Storing a value that already is a byte leaves it as it is. */
  lemma StoreByte(n: Byte)
    ensures ToUint8Clamp(n as real) == n
  {
    assert (n as real).Floor == n;
  }

  /** Rounding and clamping never reverse the order of two channel values. */
  lemma LevelMonotone(x: real, y: real)
    requires x <= y
    ensures Level(x) <= Level(y)
  {
  }

  /** A round-half-even tie: 2.5 is stored as 2, while Math.round gives 3. */
  lemma StoreRoundsHalfToEven()
    ensures ToUint8Clamp(2.5) == 2 && Round(2.5) == 3
    ensures ToUint8Clamp(3.5) == 4 && Round(3.5) == 4
  {
    assert (2.5).Floor == 2;
    assert (3.5).Floor == 3;
    assert (3.0).Floor == 3;
    assert (4.0).Floor == 4;
  }
}
