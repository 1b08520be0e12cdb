/** Reals and microseconds as the control code uses them; `None` is a value that is not finite. */
module Units {

  datatype Option<T> = None | Some(value: T)

  const CLOCK_WRAP: nat := 0x1_0000_0000_0000_0000

  function Abs(x: real): (r: real) { if x < 0.0 then -x else x }

  function Min(x: real, y: real): (r: real) { if y < x then y else x }

  function Max(x: real, y: real): (r: real) { if x < y then y else x }

  /** The lower bound applies first, then the upper bound. */
  function Clamp(x: real, low: real, high: real): (r: real) { Min(Max(x, low), high) }

  /** Unsigned 64-bit difference of two clock readings (both below CLOCK_WRAP) in microseconds. */
  function Elapsed(now: int, at: int): (r: int) { if at <= now then now - at else now - at + CLOCK_WRAP }

  function Seconds(micros: int): (r: real) { micros as real / 1000000.0 }

  lemma Distribute(x: real, a: real, b: real)
    ensures x * (a + b) == x * a + x * b
  {
  }

  lemma ProductOrder(x: real, a: real, b: real)
    requires 0.0 <= x && a <= b
    ensures x * a <= x * b
  {
  }
}
