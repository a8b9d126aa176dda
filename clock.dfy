/** Time as the backend sees it. All datetimes are timezone-aware UTC
    (TIME_ZONE = "UTC", USE_TZ = True), so an instant is a whole number of
    microseconds since the epoch and a calendar date is a whole number of
    days since the epoch. `timezone.now()` is never read here: callers pass
    the current instant in. */
module Clock {

  /** A `datetime`: microseconds since 1970-01-01T00:00:00Z. */
  type Instant = int

  /** A `date`: days since 1970-01-01. */
  type Date = int

  const MicrosPerSecond: int := 1_000_000
  const SecondsPerDay: int := 86_400
  const SecondsPerHour: int := 3_600
  const MicrosPerDay: int := 86_400_000_000

  /** `timedelta(days=n)` as a span of microseconds. */
  function Days(n: int): int {
    n * MicrosPerDay
  }

  /** `t.date()` in UTC: the day that contains the instant. */
  function DateOf(t: Instant): (d: Date)
    ensures d * MicrosPerDay <= t < d * MicrosPerDay + MicrosPerDay
  {
    t / MicrosPerDay
  }

  /** Moving an instant by whole days moves its calendar date by as many. */
  lemma DateOfShift(t: Instant, n: int)
    ensures DateOf(t + Days(n)) == DateOf(t) + n
  {
    var d := DateOf(t);
    var e := DateOf(t + Days(n));
    assert Days(n) == n * MicrosPerDay;
    assert (d + n) * MicrosPerDay <= t + Days(n) < (d + n) * MicrosPerDay + MicrosPerDay;
  }

  /** A `timedelta` in Python's normal form: any span is held as whole days
      (possibly negative) plus a non-negative remainder of seconds and
      microseconds below one day. */
  datatype Delta = Delta(days: int, seconds: int, microseconds: int)

  function TotalMicros(d: Delta): int {
    (d.days * SecondsPerDay + d.seconds) * MicrosPerSecond + d.microseconds
  }

  /** The normal form of a span of `total` microseconds (`a - b` of two
      datetimes). */
  function Normalize(total: int): (d: Delta)
    ensures 0 <= d.seconds < SecondsPerDay && 0 <= d.microseconds < MicrosPerSecond
    ensures TotalMicros(d) == total
  {
    var days := total / MicrosPerDay;
    var rest := total % MicrosPerDay;
    assert total == days * MicrosPerDay + rest;
    Delta(days, rest / MicrosPerSecond, rest % MicrosPerSecond)
  }

  /** The normal form is the only one: any Delta with in-range seconds and
      microseconds that denotes `total` is `Normalize(total)`. */
  lemma NormalizeUnique(total: int, d: Delta)
    requires 0 <= d.seconds < SecondsPerDay && 0 <= d.microseconds < MicrosPerSecond
    requires TotalMicros(d) == total
    ensures d == Normalize(total)
  {
    var n := Normalize(total);
    var r1 := d.seconds * MicrosPerSecond + d.microseconds;
    var r2 := n.seconds * MicrosPerSecond + n.microseconds;
    assert 0 <= r1 < MicrosPerDay;
    assert 0 <= r2 < MicrosPerDay;
    assert d.days * MicrosPerDay + r1 == total;
    assert n.days * MicrosPerDay + r2 == total;
    assert r1 == r2;
  }
}
