/** .NET ticks (100 ns since 0001-01-01) against a file system's clock. A `SystemTime` is its
    signed number of nanoseconds since the Unix epoch. */
module Mtime {
  import opened Text

  const TICKS_PER_SEC: int := 10_000_000
  const NANOS_PER_TICK: int := 100
  const NANOS_PER_SEC: int := 1_000_000_000
  const EPOCH_DIFF_SECS: int := 62_135_596_800
  /** 1970-01-01 in ticks. */
  const EPOCH_TICKS: int := EPOCH_DIFF_SECS * TICKS_PER_SEC

  /** Rust's `/` and `%` on signed integers truncate toward zero. */
  function TruncDiv(a: int, b: nat): int
    requires b > 0
  {
    if a >= 0 then a / b else -((-a) / b)
  }

  function TruncMod(a: int, b: nat): int
    requires b > 0
  {
    a - TruncDiv(a, b) * b
  }

  /** The casts `as u32` and `as i64`. */
  function AsU32(a: int): int { a % 0x1_0000_0000 }

  function AsI64(a: int): int { (a - I64_MIN) % 0x1_0000_0000_0000_0000 + I64_MIN }

  function FromTicks(ticks: int): (nanos: int) {
    var secs := TruncDiv(ticks, TICKS_PER_SEC) - EPOCH_DIFF_SECS;
    var sub := AsU32(TruncMod(ticks, TICKS_PER_SEC) * NANOS_PER_TICK);
    // The two branches of the original add to and subtract from the epoch; with a signed
    // count of nanoseconds both are this sum.
    secs * NANOS_PER_SEC + sub
  }

  function ToTicks(t: int): (ticks: int) {
    if t >= 0 then (t / NANOS_PER_SEC + EPOCH_DIFF_SECS) * TICKS_PER_SEC + t % NANOS_PER_SEC / NANOS_PER_TICK
    else AsI64(-((-t) / NANOS_PER_TICK) - EPOCH_TICKS)
  }

  /** The clock both ends speak of: 100 ns units, 621355968000000000 of them up to 1970. */
  lemma TicksCount(t: int, ticks: int)
    requires t >= 0 && ticks >= 0
    ensures ToTicks(t) == 621_355_968_000_000_000 + t / 100
    ensures FromTicks(ticks) == (ticks - 621_355_968_000_000_000) * 100
  {
  }

  /** A tick count survives the trip through a file's modification time exactly from 1970 on. */
  lemma TicksRoundTripIff(ticks: int)
    requires I64_MIN <= ticks <= I64_MAX
    ensures ToTicks(FromTicks(ticks)) == ticks <==> ticks >= EPOCH_TICKS
  {
  }

  /** Before 1970 the trip is off by exactly twice the epoch offset. */
  lemma Pre1970Error(ticks: int)
    requires 0 <= ticks < EPOCH_TICKS
    ensures ToTicks(FromTicks(ticks)) == ticks - 2 * EPOCH_TICKS
  {
  }

  /** A modification time from 1970 on loses less than one tick, always downward, and a second
      trip loses nothing more. */
  lemma TimeTruncates(t: int)
    requires t >= 0
    ensures 0 <= t - FromTicks(ToTicks(t)) < NANOS_PER_TICK
    ensures ToTicks(FromTicks(ToTicks(t))) == ToTicks(t)
  {
  }
}
