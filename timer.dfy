/** The QMK framework's 16-bit millisecond timer, as keymap.c uses it.
    The framework's code is not part of this model: `timer_read` and
    `timer_elapsed` are stated here as assumptions about it.  The
    framework's millisecond clock is the parameter `now`, an unbounded
    count of milliseconds since power-up; `timer_read` keeps its low 16
    bits, and `timer_elapsed` subtracts in unsigned 16-bit arithmetic. */
module Timer {

  const TimerModulus: nat := 0x1_0000

  /** A `uint16_t` timestamp, as stored in `display_sleep_timer`. */
  type Timer16 = t: int | 0 <= t < 0x1_0000

  /** `timer_read()`: the clock truncated to 16 bits. */
  function TimerRead(now: nat): (t: Timer16)
    ensures (now - t) % TimerModulus == 0
  {
    now % TimerModulus
  }

  /** `timer_elapsed(last)`: milliseconds from `last` to the current 16-bit
      reading, wrapping around at 65536. */
  function Elapsed(last: Timer16, now: nat): (r: nat)
    ensures r < TimerModulus
    ensures (last + r - now) % TimerModulus == 0
  {
    (now - last) % TimerModulus
  }

  /** For a timestamp read at `earlier`, the elapsed time is the true
      distance to `now` as long as that distance is below 65536. */
  lemma ElapsedSinceRead(earlier: nat, now: nat)
    requires earlier <= now < earlier + TimerModulus
    ensures Elapsed(TimerRead(earlier), now) == now - earlier
  {
  }
}
