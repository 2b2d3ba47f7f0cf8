/** The alert dispatcher: which events it forwards, and how many. */
module Dispatch {
  import opened Clock
  import opened TaskRuns
  import opened Broker
  import opened RateLimit

  predicate AlertWorthy(e: Event) {
    e.kind == Failure || e.kind == TimedOutEvent || e.kind == ScheduleMissed
  }

  // What the first n events add to the times the limiter has been asked at.
  function AskedAfter(asked: seq<Time>, events: seq<Event>, clock: seq<Time>, n: nat): seq<Time>
    requires n <= |events| == |clock|
  {
    if n == 0 then asked else
    var before := AskedAfter(asked, events, clock, n - 1);
    if AlertWorthy(events[n - 1]) then before + [clock[n - 1]] else before
  }

  // The limiter, and all that was sent, after the first n events.
  datatype Progress = Progress(limiter: Limiter, sent: seq<TaskRun>)

  function Drained(limit: int, window: int64, p: Progress, events: seq<Event>, clock: seq<Time>, n: nat): Progress
    requires n <= |events| == |clock|
  {
    if n == 0 then p else Handled(limit, window, Drained(limit, window, p, events, clock, n - 1), events[n - 1], clock[n - 1])
  }

  function Handled(limit: int, window: int64, p: Progress, e: Event, now: Time): Progress {
    if !AlertWorthy(e) then p else
    var (l, ok) := Allow(limit, window, p.limiter, now);
    Progress(l, if ok then p.sent + [e.task] else p.sent)
  }

  // The places, in order, of the failures, timeouts and missed schedules among
  // the first n events.
  ghost predicate Alerts(events: seq<Event>, n: nat, picks: seq<nat>)
    requires n <= |events|
  {
    && (forall i, j :: 0 <= i < j < |picks| ==> picks[i] < picks[j])
    && (forall i :: 0 <= i < |picks| ==> picks[i] < n)
    && (forall m: nat :: m < n ==>
          (m in picks <==> events[m].kind == Failure || events[m].kind == TimedOutEvent || events[m].kind == ScheduleMissed))
  }

  lemma AlertsSkip(events: seq<Event>, n: nat, picks: seq<nat>)
    requires n < |events| && Alerts(events, n, picks) && !AlertWorthy(events[n])
    ensures Alerts(events, n + 1, picks)
  {
  }

  lemma AlertsTake(events: seq<Event>, n: nat, picks: seq<nat>)
    requires n < |events| && Alerts(events, n, picks) && AlertWorthy(events[n])
    ensures Alerts(events, n + 1, picks + [n])
  {
    assert (picks + [n])[|picks|] == n;
    assert forall m: nat :: m in picks + [n] <==> m in picks || m == n;
  }

  // The items at the given places.
  function At<T>(items: seq<T>, places: seq<nat>): (picked: seq<T>)
    requires forall i :: 0 <= i < |places| ==> places[i] < |items|
    ensures |picked| == |places| && forall i :: 0 <= i < |places| ==> picked[i] == items[places[i]]
  {
    seq(|places|, i requires 0 <= i < |places| => items[places[i]])
  }

  function Tasks(events: seq<Event>): (tasks: seq<TaskRun>)
    ensures |tasks| == |events| && forall i :: 0 <= i < |events| ==> tasks[i] == events[i].task
  {
    seq(|events|, i requires 0 <= i < |events| => events[i].task)
  }

  lemma AtMore<T>(items: seq<T>, places: seq<nat>, n: nat)
    requires n < |items| && forall i :: 0 <= i < |places| ==> places[i] < |items|
    ensures forall i :: 0 <= i < |places + [n]| ==> (places + [n])[i] < |items|
    ensures At(items, places + [n]) == At(items, places) + [items[n]]
  {
  }

  lemma TasksMore(events: seq<Event>, e: Event)
    ensures Tasks(events + [e]) == Tasks(events) + [e.task]
  {
  }

  function Picks(events: seq<Event>, n: nat): seq<nat>
    requires n <= |events|
  {
    if n == 0 then [] else
    var before := Picks(events, n - 1);
    if AlertWorthy(events[n - 1]) then before + [n - 1] else before
  }

  lemma {:induction false} PicksAreAlerts(events: seq<Event>, n: nat)
    requires n <= |events|
    ensures Alerts(events, n, Picks(events, n))
  {
    if n > 0 {
      PicksAreAlerts(events, n - 1);
      if AlertWorthy(events[n - 1]) {
        AlertsTake(events, n - 1, Picks(events, n - 1));
      } else {
        AlertsSkip(events, n - 1, Picks(events, n - 1));
      }
    }
  }

  // What draining asks and, without a limit, sends.
  lemma {:induction false} AskedAtPicks(asked: seq<Time>, events: seq<Event>, clock: seq<Time>, n: nat)
    requires n <= |events| == |clock| && Alerts(events, n, Picks(events, n))
    ensures AskedAfter(asked, events, clock, n) == asked + At(clock, Picks(events, n))
  {
    if n > 0 {
      var before := Picks(events, n - 1);
      PicksAreAlerts(events, n - 1);
      AskedAtPicks(asked, events, clock, n - 1);
      if AlertWorthy(events[n - 1]) {
        AtMore(clock, before, n - 1);
        assert asked + (At(clock, before) + [clock[n - 1]]) == asked + At(clock, before) + [clock[n - 1]];
      }
    }
  }

  lemma {:induction false} SentAtPicks(limit: int, window: int64, p: Progress, events: seq<Event>, clock: seq<Time>, n: nat)
    requires n <= |events| == |clock| && limit <= 0 && Alerts(events, n, Picks(events, n))
    ensures Drained(limit, window, p, events, clock, n).sent == p.sent + Tasks(At(events, Picks(events, n)))
  {
    if n > 0 {
      var before, e := Picks(events, n - 1), events[n - 1];
      PicksAreAlerts(events, n - 1);
      SentAtPicks(limit, window, p, events, clock, n - 1);
      if AlertWorthy(e) {
        AtMore(events, before, n - 1);
        TasksMore(At(events, before), e);
        assert p.sent + (Tasks(At(events, before)) + [e.task]) == p.sent + Tasks(At(events, before)) + [e.task];
      }
    }
  }

  class Dispatcher {
    const limit: int
    const window: int64
    var windowStart: Time
    var windowCount: int
    var sent: seq<TaskRun>       // what the notifier was given, in order
    ghost var sentAt: seq<Time>  // and when
    ghost var asked: seq<Time>   // when the limiter was asked

    function Here(): Limiter
      reads this
    {
      Limiter(windowStart, windowCount)
    }

    ghost predicate Valid()
      reads this
    {
      && Here() == After(limit, window, asked)
      && |sentAt| == |sent|
      && forall a: Time, b: Time :: Asked(sentAt, a, b) == Allowed(limit, window, asked, a, b)
    }

    constructor (limit: int, window: int64)
      ensures Valid() && this.limit == limit && this.window == window
      ensures sent == [] && asked == []
    {
      this.limit, this.window := limit, window;
      windowStart, windowCount := 0, 0;
      sent, sentAt, asked := [], [], [];
    }

    // The clock is only read when there is a limit; now stands for the reading.
    method AllowAlert(now: Time) returns (ok: bool)
      modifies this`windowStart, this`windowCount
      ensures (Here(), ok) == Allow(limit, window, old(Here()), now)
      ensures ok <==> limit <= 0 || Sub(now, old(windowStart)) >= window || old(windowCount) < limit
    {
      if limit <= 0 {
        return true;
      }
      if Sub(now, windowStart) >= window {
        windowStart := now;
        windowCount := 0;
      }
      if windowCount >= limit {
        return false;
      }
      windowCount := windowCount + 1;
      return true;
    }

    method Handle(e: Event, now: Time)
      requires Valid()
      modifies this
      ensures Valid()
      ensures asked == if AlertWorthy(e) then old(asked) + [now] else old(asked)
      ensures Progress(Here(), sent) == Handled(limit, window, old(Progress(Here(), sent)), e, now)
      ensures e.kind == Failure || e.kind == TimedOutEvent || e.kind == ScheduleMissed ==>
        sent == if limit <= 0 || Sub(now, old(windowStart)) >= window || old(windowCount) < limit
                then old(sent) + [e.task] else old(sent)
      ensures e.kind == Started || e.kind == Heartbeat || e.kind == Succeeded ==>
        sent == old(sent) && Here() == old(Here()) && asked == old(asked)
    {
      if !AlertWorthy(e) {
        return;
      }
      ghost var before := asked;
      asked := asked + [now];
      assert asked[..|before|] == before;
      var ok := AllowAlert(now);
      assert ok == LastAllowed(limit, window, asked);
      if ok {
        sent := sent + [e.task];
        ghost var earlier := sentAt;
        sentAt := sentAt + [now];
        assert sentAt[..|earlier|] == earlier;
      }
    }

    // The loop over the subscription, one clock reading an event. The limiter is
    // asked for failures, timeouts and missed schedules, which are at picks;
    // without a limit, these are what is sent.
    method Run(events: seq<Event>, clock: seq<Time>) returns (ghost picks: seq<nat>)
      requires Valid() && |events| == |clock|
      modifies this
      ensures Valid()
      ensures asked == AskedAfter(old(asked), events, clock, |events|)
      ensures Progress(Here(), sent) == Drained(limit, window, old(Progress(Here(), sent)), events, clock, |events|)
      ensures Alerts(events, |events|, picks)
      ensures asked == old(asked) + At(clock, picks)
      ensures limit <= 0 ==> sent == old(sent) + Tasks(At(events, picks))
    {
      for n := 0 to |events|
        invariant Valid()
        invariant asked == AskedAfter(old(asked), events, clock, n)
        invariant Progress(Here(), sent) == Drained(limit, window, old(Progress(Here(), sent)), events, clock, n)
      {
        Handle(events[n], clock[n]);
      }
      picks := Picks(events, |events|);
      PicksAreAlerts(events, |events|);
      AskedAtPicks(old(asked), events, clock, |events|);
      if limit <= 0 {
        SentAtPicks(limit, window, old(Progress(Here(), sent)), events, clock, |events|);
      }
    }
  }

  /**
    Whatever events a dispatcher has handled, at most (k + 1) * limit - 1
    alerts have gone out within any interval of k windows.
   */
  lemma AlertsAreBounded(d: Dispatcher, a: Time, k: nat)
    requires d.Valid() && Clocked(d.asked) && 0 < d.limit && 0 < d.window
    ensures Asked(d.sentAt, a, a + k * d.window) <= (k + 1) * d.limit - 1
  {
    RateBound(d.limit, d.window, d.asked, a, k);
  }

  // The readings of the limiter are some of the readings of the loop, in order.
  lemma {:induction false} AskedFollows(asked: seq<Time>, events: seq<Event>, clock: seq<Time>, n: nat)
    requires n <= |events| == |clock| && Clocked(asked + clock)
    ensures var after := AskedAfter(asked, events, clock, n);
            Clocked(after) && (after != [] && n < |clock| ==> after[|after| - 1] <= clock[n])
            && (n > 0 && after != [] ==> after[|after| - 1] <= clock[n - 1])
  {
    var all := asked + clock;
    assert forall i :: 0 <= i < |asked| ==> all[i] == asked[i];
    assert forall i :: 0 <= i < |clock| ==> all[|asked| + i] == clock[i];
    if n > 0 {
      AskedFollows(asked, events, clock, n - 1);
    }
  }

  /**
    The same of what a loop over a subscription leaves behind, as Run describes
    it, as long as the clock does not go back, within the loop or before it.
   */
  lemma LoopIsBounded(d: Dispatcher, asked: seq<Time>, events: seq<Event>, clock: seq<Time>, a: Time, k: nat)
    requires |events| == |clock| && Clocked(asked + clock) && 0 < d.limit && 0 < d.window
    requires d.Valid() && d.asked == AskedAfter(asked, events, clock, |events|)
    ensures Asked(d.sentAt, a, a + k * d.window) <= (k + 1) * d.limit - 1
  {
    AskedFollows(asked, events, clock, |events|);
    AlertsAreBounded(d, a, k);
  }
}
