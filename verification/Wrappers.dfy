/** Definitions shared by the components: an optional value, machine ranges, clocks and sliding windows. */
module Wrappers {
  datatype Option<+T> = None | Some(value: T)

  type u32 = n: int | 0 <= n < 0x1_0000_0000
  const TWO_TO_32: int := 0x1_0000_0000
  const TWO_TO_64: int := 0x1_0000_0000_0000_0000

  /** `Instant::duration_since`: never below zero. Clock readings are nanoseconds. */
  function Since(t: nat, now: nat): nat { if now < t then 0 else now - t }

  /** The last `n` elements, or all of them. */
  function LastOf<T>(s: seq<T>, n: nat): seq<T> { if |s| <= n then s else s[|s| - n..] }

  /** All elements but the one at `i`. */
  function Without<T>(s: seq<T>, i: nat): seq<T>
    requires i < |s|
  {
    s[..i] + s[i + 1..]
  }
}
