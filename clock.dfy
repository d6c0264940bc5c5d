/**
 * Local time reduced to arithmetic on epoch milliseconds: a day is exactly
 * 86,400,000 ms and the weekday (1 = Sunday .. 7 = Saturday, as in
 * `Calendar.DAY_OF_WEEK`) is a function of the day number. Day 0,
 * 1 January 1970, was a Thursday.
 */
module Clock {

  const SecondMs: int := 1000
  const MinuteMs: int := 60 * SecondMs
  const HourMs: int := 60 * MinuteMs
  const DayMs: int := 24 * HourMs

  function DayNumber(t: int): int {
    t / DayMs
  }

  /** Midnight of the day holding `t`. */
  function StartOfDay(t: int): (s: int)
    ensures s <= t < s + DayMs
    ensures s == DayNumber(t) * DayMs
  {
    t - t % DayMs
  }

  /** `Calendar.DAY_OF_WEEK` of the instant `t`. */
  function Weekday(t: int): (w: int)
    ensures 1 <= w <= 7
  {
    (DayNumber(t) + 4) % 7 + 1
  }

  /** Division by a positive number is determined by quotient and remainder. */
  lemma DivisionUnique(x: int, d: int, q: int, r: int)
    requires d > 0 && 0 <= r < d && x == q * d + r
    ensures x / d == q && x % d == r
  {
    var q', r' := x / d, x % d;
    assert (q - q') * d == r' - r;
    if q > q' {
      MultiplyAtLeast(q - q', d);
    } else if q < q' {
      MultiplyAtLeast(q' - q, d);
    }
  }

  /** Whole days keep their order. */
  lemma DaysOrdered(j: int, k: int)
    requires j <= k
    ensures j * DayMs <= k * DayMs
  {
    if j < k {
      MultiplyAtLeast(k - j, DayMs);
      assert k * DayMs - j * DayMs == (k - j) * DayMs;
    }
  }

  lemma MultiplyAtLeast(a: int, d: int)
    requires a >= 1 && d > 0
    ensures a * d >= d
  {
  }

  /** Moving `k` whole days ahead moves the day number by `k` and keeps the time of day. */
  lemma DaysAhead(t: int, k: int)
    ensures DayNumber(t + k * DayMs) == DayNumber(t) + k
    ensures StartOfDay(t + k * DayMs) == StartOfDay(t) + k * DayMs
  {
    var q, r := t / DayMs, t % DayMs;
    assert t + k * DayMs == (q + k) * DayMs + r;
    DivisionUnique(t + k * DayMs, DayMs, q + k, r);
  }

  /** The weekday `k` days after `t`, counted 1..7 with wrap-around after Saturday. */
  lemma WeekdayAhead(t: int, k: nat)
    ensures Weekday(t + k * DayMs) == (Weekday(t) + k - 1) % 7 + 1
  {
    DaysAhead(t, k);
    var n := DayNumber(t) + 4;
    assert (n % 7 + k) % 7 == (n + k) % 7 by {
      var q := n / 7;
      assert n + k == q * 7 + (n % 7 + k);
      DivisionUnique(n % 7 + k, 7, (n % 7 + k) / 7, (n % 7 + k) % 7);
      DivisionUnique(n + k, 7, q + (n % 7 + k) / 7, (n % 7 + k) % 7);
    }
  }

  /** (t / 1000) / 60 is t / 60000, and the remainder is the seconds within the minute. */
  lemma MinutesOfMillis(t: int)
    requires t >= 0
    ensures (t / 1000) / 60 == t / MinuteMs
    ensures (t / 1000) % 60 == (t % MinuteMs) / 1000
  {
    var q1, r1 := t / 1000, t % 1000;
    var q2, r2 := q1 / 60, q1 % 60;
    assert t == MinuteMs * q2 + (1000 * r2 + r1);
    DivisionUnique(t, MinuteMs, q2, 1000 * r2 + r1);
    DivisionUnique(1000 * r2 + r1, 1000, r2, r1);
  }
}
