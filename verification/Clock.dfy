/**
  Instants and 64-bit durations, with Go's overflow behaviour written out.

  An instant is a number of nanoseconds since Go's zero time; a duration is a
  64-bit count of nanoseconds. Subtracting instants saturates, multiplying and
  adding durations wraps around.
 */
module Clock {
  type Time = int

  const MIN64: int := -0x8000_0000_0000_0000
  const MAX64: int := 0x7FFF_FFFF_FFFF_FFFF
  const TWO64: int := 0x1_0000_0000_0000_0000

  type int64 = x: int | MIN64 <= x <= MAX64

  const SECOND: int64 := 1_000_000_000
  const HOUR: int64 := 3_600_000_000_000

  // The largest whole number of seconds and of days that fit in a duration.
  const MAX_SECONDS: int64 := 9_223_372_036
  const MAX_DAYS: int64 := 106_751

  // Two's complement wrap-around.
  function Wrap(x: int): int64 {
    (x - MIN64) % TWO64 + MIN64
  }

  // Saturation at either end.
  function Clamp(x: int): int64 {
    if x < MIN64 then MIN64 else if x > MAX64 then MAX64 else x
  }

  // a.Sub(b)
  function Sub(a: Time, b: Time): int64 {
    Clamp(a - b)
  }

  // time.Duration(n) * time.Second
  function Seconds(n: int64): int64 {
    Wrap(n * SECOND)
  }

  // d.Milliseconds(), which truncates toward zero.
  function Milliseconds(d: int64): int64 {
    var n: int := d;
    if n >= 0 then n / 1_000_000 else -(-n / 1_000_000)
  }

  lemma MillisecondsTruncates(d: int64)
    ensures d >= 0 ==> Milliseconds(d) * 1_000_000 <= d < (Milliseconds(d) + 1) * 1_000_000
    ensures d <= 0 ==> (Milliseconds(d) - 1) * 1_000_000 < d <= Milliseconds(d) * 1_000_000
  {
  }

  lemma WrapOf(x: int)
    ensures exists k: int :: Wrap(x) == x + k * TWO64
    ensures Wrap(x) == x <==> MIN64 <= x <= MAX64
  {
    var q := (x - MIN64) / TWO64;
    assert Wrap(x) == x + (-q) * TWO64;
  }

  // Every multiple of a second stays a multiple of 512 after wrapping, so it
  // never equals the odd number a saturated difference may take.
  lemma SecondsIsEven(n: int64)
    ensures Seconds(n) % 512 == 0
  {
    WrapOf(n * SECOND);
    var k: int :| Seconds(n) == n * SECOND + k * TWO64;
    assert Seconds(n) == 512 * (n * 1_953_125 + k * 0x80_0000_0000_0000);
  }

  ghost predicate TtlTestAgrees(ttl: int64) {
    forall a: Time, b: Time :: Sub(a, b) <= Seconds(ttl) <==> a - b <= ttl * 1_000_000_000
  }

  /**
    The sweeper's TTL comparison agrees with exact integers on every pair of
    instants precisely when the TTL fits in a duration.
   */
  lemma TtlTestExact(ttl: int64)
    ensures TtlTestAgrees(ttl) <==> -9_223_372_036 <= ttl <= 9_223_372_036
  {
    SecondsIsEven(ttl);
    WrapOf(ttl * SECOND);
    var limit := Seconds(ttl);
    if ttl > MAX_SECONDS {
      assert limit + 1 <= MAX64 < ttl * SECOND;
      assert Sub(limit + 1, 0) == limit + 1;
      assert !TtlTestAgrees(ttl);
    } else if ttl < -MAX_SECONDS {
      assert ttl * SECOND < MIN64 <= limit;
      assert Sub(limit, 0) == limit;
      assert !TtlTestAgrees(ttl);
    }
  }

  // time.Duration(interval)*time.Second + time.Duration(grace)*time.Second
  function Allowance(interval: int64, grace: int64): int64 {
    Wrap(Seconds(interval) + Seconds(grace))
  }

  /** The interval deadline is exact precisely when interval plus grace fits. */
  lemma AllowanceExact(interval: int64, grace: int64)
    requires 0 <= interval && 0 <= grace
    ensures Allowance(interval, grace) == (interval + grace) * 1_000_000_000 <==> interval + grace <= 9_223_372_036
  {
    WrapOf(Seconds(interval) + Seconds(grace));
    WrapOf(interval * SECOND);
    WrapOf(grace * SECOND);
  }

  // time.Duration(days) * 24 * time.Hour
  function Retention(days: int64): int64 {
    var hours: int := days * 24;
    Wrap(Wrap(hours) * HOUR)
  }

  // The offset in now.Add(-retain)
  function Back(retain: int64): int64 {
    var d: int := retain;
    Wrap(-d)
  }

  function Cutoff(now: Time, days: int64): Time {
    now + Back(Retention(days))
  }

  lemma RetentionInRange(days: int64)
    requires 0 <= days <= MAX_DAYS
    ensures Retention(days) == days * 24 * HOUR
  {
    WrapOf(days * 24);
    WrapOf(days * 24 * HOUR);
  }

  /** The retention cutoff is exact precisely up to 106751 days. */
  lemma CutoffExact(now: Time, days: int64)
    requires 0 <= days
    ensures Cutoff(now, days) == now - days * 86_400_000_000_000 <==> days <= 106_751
  {
    var retain := Retention(days);
    if days <= MAX_DAYS {
      RetentionInRange(days);
      WrapOf(-(retain as int));
    } else {
      var back: int := Back(retain);
      assert back >= MIN64 > -(days * 24 * HOUR);
    }
  }
}
