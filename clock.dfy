/**
 * Timestamps and elapsed time.  A timestamp is an integer count of
 * microseconds (the resolution of the stored ISO-8601 text), and an
 * elapsed time reported in whole seconds truncates toward zero, as
 * converting a duration to an integer does in the bot.
 */
module Clock {

  /** Microseconds since the epoch, UTC. */
  type Micros = int

  const MicrosPerSecond: int := 1000000

  /** The whole seconds in a duration of `d` microseconds, truncated toward zero. */
  function TruncSeconds(d: int): (r: int)
    ensures d >= 0 ==> 0 <= r && r * MicrosPerSecond <= d < (r + 1) * MicrosPerSecond
    ensures d < 0 ==> r <= 0 && (r - 1) * MicrosPerSecond < d <= r * MicrosPerSecond
  {
    if d >= 0 then d / MicrosPerSecond else -((-d) / MicrosPerSecond)
  }

  /** Whole seconds from `joined` to `now`. */
  function ElapsedSeconds(joined: Micros, now: Micros): (r: int)
    ensures joined <= now ==> 0 <= r && r * MicrosPerSecond <= now - joined < (r + 1) * MicrosPerSecond
    ensures now < joined ==> r <= 0 && (r - 1) * MicrosPerSecond < now - joined
  {
    TruncSeconds(now - joined)
  }

  /** Truncation is odd: a clock running backwards loses as much as it would gain. */
  lemma TruncSecondsOdd(d: int)
    ensures TruncSeconds(-d) == -TruncSeconds(d)
  {
  }

  /** A longer duration never reports fewer seconds. */
  lemma TruncSecondsMonotone(a: int, b: int)
    requires a <= b
    ensures TruncSeconds(a) <= TruncSeconds(b)
  {
    if a >= 0 {
      DivMonotone(a, b);
    } else if b < 0 {
      DivMonotone(-b, -a);
    }
  }

  lemma DivMonotone(a: int, b: int)
    requires 0 <= a <= b
    ensures a / MicrosPerSecond <= b / MicrosPerSecond
  {
  }
}
