/** The time arithmetic of the 16-bit clock: a millisecond-of-day count becomes a
    16-bit value, and the next redraw is scheduled for when that value changes.
    The source computes both with floating point; the quotients involved are exact
    in binary floating point (86400000/65536 = 1318.359375 = 84375/64), and a
    correctly rounded quotient below 2^16 is never rounded up across an integer,
    so `int(...)` of them is the exact floor division written here. */
module ClockTime {

  const MsPerDay: nat := 86_400_000
  const TotalUnits: nat := 0x1_0000
  /** The smallest delay the scheduler will ask for. */
  const MinDelay: int := 10

  /** `int((ms_now * total_units) / ms_per_day)`. */
  function V16(msNow: nat): nat {
    msNow * TotalUnits / MsPerDay
  }

  /** `int((v16 + 1) * ms_per_tick)`: the millisecond at which value v16 + 1 is due,
      rounded down as `int()` does. */
  function NextTickMs(v16: nat): nat {
    (v16 + 1) * MsPerDay / TotalUnits
  }

  /** `delay = next_tick_ms - ms_now`, raised to 10 when smaller. */
  function Delay(msNow: nat, v16: nat): (d: int)
    ensures d >= MinDelay
  {
    var raw := NextTickMs(v16) - msNow;
    if raw < MinDelay then MinDelay else raw
  }

  /** Every millisecond of the day gives a 16-bit value, and the value is the floor
      of the day fraction times 65536. */
  lemma V16InRange(msNow: nat)
    requires msNow < MsPerDay
    ensures 0 <= V16(msNow) < TotalUnits
    ensures V16(msNow) * MsPerDay <= msNow * TotalUnits < (V16(msNow) + 1) * MsPerDay
  {
    var v := V16(msNow);
    assert v * MsPerDay <= msNow * TotalUnits;
  }

  /** When the value was computed from ms_now, the unclamped wait is between 0 and
      1318 ms, and the wake-up lands at most one millisecond before the value
      actually changes: one millisecond later the clock shows v16 + 1. */
  lemma WakeUpTiming(msNow: nat)
    ensures var v := V16(msNow);
      && 0 <= NextTickMs(v) - msNow <= 1318
      && V16(NextTickMs(v) + 1) == v + 1
      && MinDelay <= Delay(msNow, v) <= 1318
  {
    var v := V16(msNow);
    var x := (v + 1) * MsPerDay;
    var n := NextTickMs(v);
    assert n * TotalUnits <= x < (n + 1) * TotalUnits;
    assert v * MsPerDay <= msNow * TotalUnits < x;
    assert msNow <= n;
    assert (n - msNow) * TotalUnits <= MsPerDay;
    var w := V16(n + 1);
    assert w * MsPerDay <= (n + 1) * TotalUnits < (w + 1) * MsPerDay;
    assert (n + 1) * TotalUnits <= x + TotalUnits < (v + 2) * MsPerDay;
  }

  /** At midnight the value is 0 and the first redraw is 1318 ms later (the
      float product 1318.359375 truncated by `int()`). */
  lemma MidnightTick()
    ensures V16(0) == 0 && NextTickMs(0) == 1318 && Delay(0, 0) == 1318
  {
  }
}
