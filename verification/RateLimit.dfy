/** How many alerts the dispatcher's rate limiter lets through, and when. */
module RateLimit {
  import opened Clock

  // windowStart and windowCount.
  datatype Limiter = Limiter(start: Time, count: int)

  const UNUSED := Limiter(0, 0)

  // One call of allow(): the new limiter, and whether the alert may go out.
  function Allow(limit: int, window: int64, l: Limiter, now: Time): (Limiter, bool) {
    if limit <= 0 then (l, true) else
    var m := if Sub(now, l.start) >= window then Limiter(now, 0) else l;
    if m.count >= limit then (m, false) else (m.(count := m.count + 1), true)
  }

  // The limiter after calls at the given times.
  function After(limit: int, window: int64, times: seq<Time>): Limiter {
    if times == [] then UNUSED
    else Allow(limit, window, After(limit, window, times[..|times| - 1]), times[|times| - 1]).0
  }

  // What the last of the given calls answered.
  predicate LastAllowed(limit: int, window: int64, times: seq<Time>)
    requires times != []
  {
    Allow(limit, window, After(limit, window, times[..|times| - 1]), times[|times| - 1]).1
  }

  // How many of the calls from a inclusive to b exclusive were allowed.
  function Allowed(limit: int, window: int64, times: seq<Time>, a: Time, b: Time): nat {
    if times == [] then 0 else
    Allowed(limit, window, times[..|times| - 1], a, b) +
    if LastAllowed(limit, window, times) && a <= times[|times| - 1] < b then 1 else 0
  }

  // How many calls there were in that interval at all.
  function Asked(times: seq<Time>, a: Time, b: Time): nat {
    if times == [] then 0 else
    Asked(times[..|times| - 1], a, b) + if a <= times[|times| - 1] < b then 1 else 0
  }

  // Readings of a clock that does not go back and is centuries past Go's zero
  // time, which is where an unused limiter's window starts.
  ghost predicate Clocked(times: seq<Time>) {
    && (forall i :: 0 <= i < |times| ==> times[i] >= MAX64)
    && (forall i, j :: 0 <= i < j < |times| ==> times[i] <= times[j])
  }

  // ---------- the upper bound ----------

  // The limiter's window starts at one of the calls, which it counts.
  lemma {:induction false} WindowOf(limit: int, window: int64, times: seq<Time>)
    requires 0 < limit && 0 < window && Clocked(times) && times != []
    ensures var l := After(limit, window, times);
            MAX64 <= l.start <= times[|times| - 1] < l.start + window && 1 <= l.count <= limit
  {
    var before := times[..|times| - 1];
    if before != [] {
      WindowOf(limit, window, before);
    }
  }

  // c allowed calls so far from a on, with the window start s having count n:
  // before a, the window's first call is not among them; from a on, at least
  // m whole windows lie between a and s.
  ghost predicate Budget(limit: int, window: int64, l: Limiter, a: Time, c: int, m: nat) {
    if l.start < a then c < l.count
    else l.start >= a + m * window && c <= limit - 1 + m * limit + l.count
  }

  // One more call at t, no earlier than the window's start.
  lemma BudgetStep(limit: int, window: int64, l: Limiter, t: Time, a: Time, c: int, m: nat) returns (m': nat)
    requires 0 < limit && 0 < window && 1 <= l.count <= limit && l.start <= t && Budget(limit, window, l, a, c, m)
    requires t < a ==> c == 0
    ensures var (l', ok) := Allow(limit, window, l, t);
            Budget(limit, window, l', a, c + if ok && a <= t then 1 else 0, m') && Budget(limit, window, l', a, c, m')
  {
    var (l', ok) := Allow(limit, window, l, t);
    m' := m;
    if l.start < a {
      m' := 0;
    } else if l' == Limiter(t, 1) && t >= l.start + window {
      m' := m + 1;
      assert m' * window == m * window + window && m' * limit == m * limit + limit;
    }
  }

  lemma MultiplesOrder(m: nat, k: nat, n: int)
    requires 0 < n && m * n < k * n
    ensures m < k
  {
  }

  // A window that starts before the interval ends has room left in it.
  lemma BudgetBound(limit: int, window: int64, l: Limiter, a: Time, k: nat, c: int, m: nat)
    requires 0 < limit && 0 < window && l.count <= limit && Budget(limit, window, l, a, c, m)
    requires l.start < a + k * window
    ensures c <= k * limit + limit - 1
  {
    if l.start < a {
      assert 0 <= k * limit;
    } else {
      assert m * window < k * window;
      MultiplesOrder(m, k, window);
      assert (m + 1) * limit <= k * limit && (m + 1) * limit == m * limit + limit;
    }
  }

  lemma {:induction false} Spent(limit: int, window: int64, times: seq<Time>, a: Time, k: nat) returns (m: nat)
    requires 0 < limit && 0 < window && Clocked(times) && times != []
    ensures var c := Allowed(limit, window, times, a, a + k * window);
            && (times[|times| - 1] < a ==> c == 0)
            && Budget(limit, window, After(limit, window, times), a, c, m)
            && c <= k * limit + limit - 1
  {
    var before, t := times[..|times| - 1], times[|times| - 1];
    var b := a + k * window;
    WindowOf(limit, window, times);
    assert 0 <= k * limit;
    if before == [] {
      m := 0;
    } else {
      WindowOf(limit, window, before);
      m := Spent(limit, window, before, a, k);
      assert before[|before| - 1] <= t;
      m := BudgetStep(limit, window, After(limit, window, before), t, a, Allowed(limit, window, before, a, b), m);
    }
    if t < b {
      BudgetBound(limit, window, After(limit, window, times), a, k, Allowed(limit, window, times, a, b), m);
    }
  }

  /**
    Any half-open interval of k windows holds at most (k + 1) * limit - 1
    allowed alerts: one less than k + 1 full windows.
   */
  lemma RateBound(limit: int, window: int64, times: seq<Time>, a: Time, k: nat)
    requires 0 < limit && 0 < window && Clocked(times)
    ensures Allowed(limit, window, times, a, a + k * window) <= (k + 1) * limit - 1
  {
    assert (k + 1) * limit == k * limit + limit && 0 <= k * limit;
    if times != [] {
      var _ := Spent(limit, window, times, a, k);
    }
  }

  // ---------- no unjustified suppression ----------

  lemma {:induction false} CountsItsWindow(limit: int, window: int64, times: seq<Time>, b: Time)
    requires 0 < limit && 0 < window && Clocked(times) && times != [] && times[|times| - 1] < b
    ensures var l := After(limit, window, times);
            l.count <= Allowed(limit, window, times, l.start, b)
  {
    var before := times[..|times| - 1];
    WindowOf(limit, window, times);
    if before != [] {
      WindowOf(limit, window, before);
      CountsItsWindow(limit, window, before, b);
    }
  }

  lemma {:induction false} WiderCountsMore(limit: int, window: int64, times: seq<Time>, a: Time, a': Time, b: Time)
    requires a <= a'
    ensures Allowed(limit, window, times, a', b) <= Allowed(limit, window, times, a, b) <= Asked(times, a, b)
  {
    if times != [] {
      WiderCountsMore(limit, window, times[..|times| - 1], a, a', b);
    }
  }

  /**
    Whenever an alert is refused, limit alerts were already allowed within the
    window length up to and including that moment.
   */
  lemma RefusedOnlyWhenFull(limit: int, window: int64, times: seq<Time>)
    requires 0 < window && Clocked(times) && times != [] && !LastAllowed(limit, window, times)
    ensures 0 < limit
    ensures var now := times[|times| - 1];
            limit <= Allowed(limit, window, times[..|times| - 1], now - window + 1, now + 1)
  {
    var before, now := times[..|times| - 1], times[|times| - 1];
    if before != [] {
      WindowOf(limit, window, before);
      CountsItsWindow(limit, window, before, now + 1);
      WiderCountsMore(limit, window, before, now - window + 1, After(limit, window, before).start, now + 1);
    }
  }

  /**
    A stream in which no window length holds more than limit alerts loses none,
    and with a limit of zero or less none is ever lost.
   */
  lemma SparseStreamsLoseNothing(limit: int, window: int64, times: seq<Time>, i: nat)
    requires 0 < window && Clocked(times) && i < |times|
    requires 0 < limit ==> Asked(times[..i + 1], times[i] - window + 1, times[i] + 1) <= limit
    ensures LastAllowed(limit, window, times[..i + 1])
  {
    var upTo := times[..i + 1];
    if !LastAllowed(limit, window, upTo) {
      RefusedOnlyWhenFull(limit, window, upTo);
      WiderCountsMore(limit, window, upTo[..i], times[i] - window + 1, times[i] - window + 1, times[i] + 1);
      assert false;
    }
  }

  // ---------- the bound is reached ----------

  lemma AllowWithin(limit: int, window: int64, l: Limiter, t: Time)
    requires 0 <= t - l.start < window && l.count < limit && 0 < limit
    ensures Allow(limit, window, l, t) == (Limiter(l.start, l.count + 1), true)
  {
  }

  lemma AllowAnew(limit: int, window: int64, l: Limiter, t: Time)
    requires t - l.start >= window && 0 < limit
    ensures Allow(limit, window, l, t) == (Limiter(t, 1), true)
  {
  }

  // Calls up to t that leave the limiter at l with c of them allowed in [a, b).
  ghost predicate Leaves(limit: int, window: int64, times: seq<Time>, t: Time, a: Time, b: Time, l: Limiter, c: int) {
    && Clocked(times) && (forall i :: 0 <= i < |times| ==> times[i] <= t)
    && After(limit, window, times) == l && Allowed(limit, window, times, a, b) == c
  }

  // One more call at the end.
  lemma CallSnoc(limit: int, window: int64, times: seq<Time>, s: Time, t: Time, a: Time, b: Time, l: Limiter, c: int)
    requires Leaves(limit, window, times, s, a, b, l, c) && MAX64 <= t && s <= t
    ensures var (l', ok) := Allow(limit, window, l, t);
            Leaves(limit, window, times + [t], t, a, b, l', c + if ok && a <= t < b then 1 else 0)
  {
    assert (times + [t])[..|times|] == times;
  }

  // n more calls at t within the current window, all of them allowed.
  lemma {:induction false} BurstFits(
    limit: int, window: int64, times: seq<Time>, s: Time, t: Time, n: nat, a: Time, b: Time, l: Limiter, c: int)
    returns (more: seq<Time>)
    requires 0 < limit && 0 < window && a <= t < b && Leaves(limit, window, times, s, a, b, l, c)
    requires MAX64 <= t && s <= t && 0 <= t - l.start < window && 0 <= l.count && l.count + n <= limit
    ensures Leaves(limit, window, more, t, a, b, Limiter(l.start, l.count + n), c + n)
  {
    if n == 0 {
      more := times;
    } else {
      var before := BurstFits(limit, window, times, s, t, n - 1, a, b, l, c);
      AllowWithin(limit, window, Limiter(l.start, l.count + n - 1), t);
      CallSnoc(limit, window, before, t, t, a, b, Limiter(l.start, l.count + n - 1), c + n - 1);
      more := before + [t];
    }
  }

  // A full quota of calls at t, opening a window.
  lemma BurstOpens(limit: int, window: int64, times: seq<Time>, s: Time, t: Time, a: Time, b: Time, l: Limiter, c: int)
    returns (more: seq<Time>)
    requires 0 < limit && 0 < window && a <= t < b && Leaves(limit, window, times, s, a, b, l, c)
    requires MAX64 <= t && s <= t && t - l.start >= window
    ensures Leaves(limit, window, more, t, a, b, Limiter(t, limit), c + limit)
  {
    AllowAnew(limit, window, l, t);
    CallSnoc(limit, window, times, s, t, a, b, l, c);
    more := BurstFits(limit, window, times + [t], t, t, limit - 1, a, b, Limiter(t, 1), c + 1);
  }

  // k times n, by addition.
  function Times(n: int, k: nat): int {
    if k == 0 then 0 else Times(n, k - 1) + n
  }

  lemma {:induction false} TimesIsProduct(n: int, k: nat)
    ensures Times(n, k) == k * n
  {
    if k > 0 {
      TimesIsProduct(n, k - 1);
      assert k * n == (k - 1) * n + n;
    }
  }

  // One alert at t, and the rest of its window's quota at the last moment.
  lemma WorstWindow(limit: int, window: int64, t: Time, b: Time) returns (times: seq<Time>)
    requires 0 < limit && 2 <= window && MAX64 <= t && t + window <= b
    ensures Leaves(limit, window, times, t + window - 1, t + 1, b, Limiter(t, limit), limit - 1)
  {
    assert Leaves(limit, window, [], t, t + 1, b, UNUSED, 0);
    AllowAnew(limit, window, UNUSED, t);
    CallSnoc(limit, window, [], t, t, t + 1, b, UNUSED, 0);
    times := BurstFits(limit, window, [] + [t], t, t + window - 1, limit - 1, t + 1, b, Limiter(t, 1), 0);
  }

  // Then full quotas at the starts of the k windows that follow; s is when the
  // stream ends, now when its last window starts, c what it gets through.
  lemma {:induction false} WorstStream(limit: int, window: int64, t: Time, k: nat, b: Time)
    returns (times: seq<Time>, s: Time, now: Time, c: int)
    requires 0 < limit && 2 <= window && MAX64 <= t && t + window <= b && t + Times(window, k) < b
    ensures t <= now == t + Times(window, k) && s < now + window && c == limit - 1 + Times(limit, k)
    ensures Leaves(limit, window, times, s, t + 1, b, Limiter(now, limit), c)
  {
    if k == 0 {
      times := WorstWindow(limit, window, t, b);
      s, now, c := t + window - 1, t, limit - 1;
    } else {
      var before, s0, last, c0 := WorstStream(limit, window, t, k - 1, b);
      now, c := last + window, c0 + limit;
      times := BurstOpens(limit, window, before, s0, now, t + 1, b, Limiter(last, limit), c0);
      s := now;
    }
  }

  lemma Scales(n: int, k: nat)
    requires 0 < n && 0 < k
    ensures n <= k * n && (k + 1) * n == k * n + n
  {
  }

  ghost predicate ReachesBound(limit: int, window: int64, k: nat, times: seq<Time>, a: Time) {
    Clocked(times) && Allowed(limit, window, times, a, a + k * window) == (k + 1) * limit - 1
  }

  /**
    The bound is sharp: for every limit, every k and every window of more than
    a nanosecond, some stream of calls reaches it.
   */
  lemma RateBoundIsReached(limit: int, window: int64, k: nat)
    requires 0 < limit && 2 <= window && 0 < k
    ensures exists times: seq<Time>, a: Time :: ReachesBound(limit, window, k, times, a)
  {
    Scales(window, k);
    Scales(limit, k);
    TimesIsProduct(window, k);
    TimesIsProduct(limit, k);
    var times, s, now, c := WorstStream(limit, window, MAX64, k, MAX64 + 1 + Times(window, k));
    assert ReachesBound(limit, window, k, times, MAX64 + 1);
  }

  // At most limit alerts go out from a on, for one window length.
  ghost predicate WithinLimit(limit: int, window: int64, times: seq<Time>, a: Time) {
    Allowed(limit, window, times, a, a + window) <= limit
  }

  ghost predicate KeepsToLimit(limit: int, window: int64) {
    forall times: seq<Time>, a: Time :: Clocked(times) ==> WithinLimit(limit, window, times, a)
  }

  /**
    The documentation promises at most limit alerts per window length. Windows
    start at alerts, not everywhere, so that holds exactly for a limit of one.
   */
  lemma DocumentedLimitHoldsForOne(limit: int, window: int64)
    requires 0 < limit && 2 <= window
    ensures KeepsToLimit(limit, window) <==> limit == 1
  {
    if limit == 1 {
      forall times: seq<Time>, a: Time | Clocked(times) ensures WithinLimit(limit, window, times, a) {
        RateBound(limit, window, times, a, 1);
      }
    } else {
      RateBoundIsReached(limit, window, 1);
      var times: seq<Time>, a: Time :| ReachesBound(limit, window, 1, times, a);
      assert !WithinLimit(limit, window, times, a);
    }
  }
}
