/**
  The integer casts and the saturating arithmetic of the bridge's host
  language, written out over unbounded integers and exact reals.
*/
module Casts {
  import opened Tao

  /** `f64::round`: to the nearest integer, halves away from zero. */
  function RoundHalfAway(r: real): int {
    if r >= 0.0 then (r + 0.5).Floor else -((0.5 - r).Floor)
  }

  /** The rounded value is a nearest integer; a tie goes away from zero. */
  lemma RoundHalfAwayNearest(r: real)
    ensures r >= 0.0 ==> r - 0.5 < RoundHalfAway(r) as real <= r + 0.5
    ensures r < 0.0 ==> r - 0.5 <= RoundHalfAway(r) as real < r + 0.5
  {
  }

  /** A saturating cast to `u32`. */
  function SaturateU32(n: int): (u: U32)
    ensures 0 <= n <= U32_MAX ==> u == n
    ensures n < 0 ==> u == 0
    ensures n > U32_MAX ==> u == U32_MAX
  {
    if n < 0 then 0 else if n > U32_MAX then U32_MAX else n
  }

  /** A saturating cast to `i32`. */
  function SaturateI32(n: int): (i: I32)
    ensures I32_MIN <= n <= I32_MAX ==> i == n
    ensures n < I32_MIN ==> i == I32_MIN
    ensures n > I32_MAX ==> i == I32_MAX
  {
    if n < I32_MIN then I32_MIN else if n > I32_MAX then I32_MAX else n
  }

  /** `x as u32` on a float: toward zero, saturating at both ends. */
  function TruncateU32(r: real): U32 {
    if r < 0.0 then 0 else SaturateU32(r.Floor)
  }

  /** The backend's float to `u32` pixel cast: rounded, then saturated. */
  function PixelU32(r: real): U32 {
    SaturateU32(RoundHalfAway(r))
  }

  /** The backend's float to `i32` pixel cast: rounded, then saturated. */
  function PixelI32(r: real): I32 {
    SaturateI32(RoundHalfAway(r))
  }

  /** `u32::saturating_sub`. */
  function SaturatingSub(a: U32, b: U32): (d: U32)
    ensures d >= a - b && (a >= b ==> d + b == a) && (a <= b ==> d == 0)
  {
    if a >= b then a - b else 0
  }
}
