/**
 * The hours/minutes/seconds breakdown of a total in the stats reply.
 * The bot uses floor division `//` and `%` by the positive constants
 * 3600 and 60; for a positive divisor these agree with Dafny's `/` and
 * `%` on every integer, negative totals included.
 */
module Duration {

  datatype Hms = Hms(hours: int, minutes: int, seconds: int)

  /** The number of seconds an `Hms` stands for. */
  function ToSeconds(d: Hms): int
  {
    d.hours * 3600 + d.minutes * 60 + d.seconds
  }

  /** Splits a total of seconds into hours, minutes (0..59) and seconds (0..59). */
  function Split(total: int): (d: Hms)
    ensures ToSeconds(d) == total
    ensures 0 <= d.minutes < 60 && 0 <= d.seconds < 60
    ensures total >= 0 ==> d.hours >= 0
    ensures total < 0 ==> d.hours < 0
  {
    var rest := total % 3600;
    ModOfMod(total);
    Hms(total / 3600, rest / 60, total % 60)
  }

  /** Remainders by 3600 keep the remainder by 60, since 60 divides 3600. */
  lemma ModOfMod(total: int)
    ensures (total % 3600) % 60 == total % 60
  {
    var q, r := total / 3600, total % 3600;
    assert total == q * 3600 + r;
    assert total == (q * 60) * 60 + r;
    var r60 := r % 60;
    assert r == (r / 60) * 60 + r60;
    assert total == (q * 60 + r / 60) * 60 + r60;
    DivModUnique(total, q * 60 + r / 60, r60, 60);
  }

  /** A quotient and remainder in range are the ones division produces. */
  lemma DivModUnique(x: int, q: int, r: int, n: int)
    requires n > 0 && 0 <= r < n && x == q * n + r
    ensures x / n == q && x % n == r
  {
    var q', r' := x / n, x % n;
    assert x == q' * n + r';
    assert (q - q') * n == r' - r by {
      assert (q - q') * n == q * n - q' * n;
    }
    if q' < q {
      MulAtLeast(q - q', n);
    } else if q' > q {
      MulAtLeast(q' - q, n);
    }
  }

  lemma MulAtLeast(k: int, n: int)
    requires k >= 1 && n > 0
    ensures k * n >= n
  {
  }

  /** The breakdown is the only one with minutes and seconds in range. */
  lemma SplitUnique(total: int, d: Hms)
    requires ToSeconds(d) == total
    requires 0 <= d.minutes < 60 && 0 <= d.seconds < 60
    ensures Split(total) == d
  {
    var within := d.minutes * 60 + d.seconds;
    assert 0 <= within < 3600;
    DivModUnique(total, d.hours, within, 3600);
    DivModUnique(within, d.minutes, d.seconds, 60);
    DivModUnique(total, d.hours * 60 + d.minutes, d.seconds, 60);
  }

  /** Joining the parts back gives the breakdown again. */
  lemma SplitToSeconds(d: Hms)
    requires 0 <= d.minutes < 60 && 0 <= d.seconds < 60
    ensures Split(ToSeconds(d)) == d
  {
    SplitUnique(ToSeconds(d), d);
  }

  /** A user who was never in voice sees "0h 0m 0s". */
  lemma SplitZero()
    ensures Split(0) == Hms(0, 0, 0)
  {
    DivModUnique(0, 0, 0, 3600);
    DivModUnique(0, 0, 0, 60);
  }
}
