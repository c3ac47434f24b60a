/** Small helpers shared by every module: an optional value, integer
    max/min, and the JavaScript `Math` operations the game applies to numbers. */
module Common {

  datatype Option<T> = None | Some(value: T)

  /** An unsigned byte, the element type of `Uint8Array` and `Uint8ClampedArray`. */
  type Byte = x: int | 0 <= x < 256

  function Max(a: int, b: int): (r: int)
    ensures r >= a && r >= b && (r == a || r == b)
  {
    if a >= b then a else b
  }

  function Min(a: int, b: int): (r: int)
    ensures r <= a && r <= b && (r == a || r == b)
  {
    if a <= b then a else b
  }

  function RealMax(a: real, b: real): (r: real)
    ensures r >= a && r >= b && (r == a || r == b)
  {
    if a >= b then a else b
  }

  function RealMin(a: real, b: real): (r: real)
    ensures r <= a && r <= b && (r == a || r == b)
  {
    if a <= b then a else b
  }

  /** `Math.max(0, Math.floor(x))`: the normalisation every counter input goes through. */
  function NonNegFloor(x: real): (r: nat)
    ensures x >= 0.0 ==> r as real <= x < r as real + 1.0
    ensures x < 0.0 ==> r == 0
  {
    if x.Floor < 0 then 0 else x.Floor
  }

  /** `Math.round(x)` on finite numbers: the nearest integer, halves rounded up. */
  function Round(x: real): (r: int)
    ensures x - 0.5 < r as real <= x + 0.5
  {
    (x + 0.5).Floor
  }

  /** `Math.abs(a - b)` on integers. */
  function AbsDiff(a: int, b: int): (r: nat)
    ensures r == a - b || r == b - a
  {
    if a >= b then a - b else b - a
  }
}
