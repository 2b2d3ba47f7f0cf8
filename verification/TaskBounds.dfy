/**
  What timeouts and reports guarantee once statements follow their clock
  readings within a bound, and exactly how long retention must be for it.
 */
module TaskBounds {
  import opened Options
  import opened Clock
  import opened TaskRuns
  import opened TaskProtocol
  import opened TaskSafety
  import opened TaskTiming
  import opened Sample
  import Ledger

  // Every timeout so far was of the incarnation that the sweep saw overdue.
  ghost predicate HitsSeen(s: State) {
    forall h :: 0 <= h < |s.hits| ==> OfSeen(s.scans, s.hits[h])
  }

  /**
    A sweep re-checks only the status of a row, yet no run is ever timed out
    that its sweep did not see overdue, if and only if retention keeps finished
    rows for at least twice the longest delay from a clock reading to the
    statement that uses it.
   */
  lemma OnlySeenRunsTimeOut(l: Limits)
    requires 0 <= l.delay
    ensures (forall t :: Reachable(t, l) ==> HitsSeen(t.s)) <==> 2 * l.delay <= Lifetime(l.days)
  {
    if 2 * l.delay <= Lifetime(l.days) {
      forall t | Reachable(t, l) ensures HitsSeen(t.s) {
        ReachableKeeps(t, l);
      }
    } else {
      var t := FreshIncarnationCanBeTimedOut(l);
    }
  }

  // The row read had not ended, or not long before the report.
  predicate EndedWithin(c: Call, age: int) {
    c.ended.Some? ==> c.at - age <= c.ended.value
  }

  ghost predicate DurationsRight(s: State, age: int) {
    forall i :: 0 <= i < |s.landings| && EndedWithin(s.landings[i].call, age) ==> DurationRight(s.landings[i])
  }

  /**
    Reports on runs that are running, or that ended at most a given age ago,
    all store the right duration if and only if retention keeps finished rows
    for at least twice the delay, and for at least the age and one delay.
   */
  lemma DurationsAreRightInTime(l: Limits, age: int)
    requires 0 <= l.delay
    ensures (forall t :: Reachable(t, l) ==> DurationsRight(t.s, age)) <==>
      2 * l.delay <= Lifetime(l.days) && l.delay + age <= Lifetime(l.days)
  {
    if Lifetime(l.days) < 2 * l.delay {
      var t := FinishAcrossRecreation(l, age);
    } else if Lifetime(l.days) < l.delay + age {
      var t := RepeatAcrossRecreation(l, age);
    } else {
      forall t | Reachable(t, l) ensures DurationsRight(t.s, age) {
        ReachableKeeps(t, l);
        forall i | 0 <= i < |t.s.landings| && EndedWithin(t.s.landings[i].call, age) ensures DurationRight(t.s.landings[i]) {
          assert LandingOk(t.s.landings[i]) && LandingTimed(t.s.landings[i], l);
        }
      }
    }
  }

  /**
    At any moment, a running row has gone without a sign of life for at most its
    TTL, or the delay if that is longer, plus the time since the clock reading
    of the last sweep that got through its candidates: with one at least every
    gap, TTL plus gap.
   */
  lemma TimeoutsAreNoticed(t: Timed, l: Limits, gap: int, id: string)
    requires 0 <= l.delay && Reachable(t, l)
    requires t.done.Some? && t.clock <= t.done.value + gap
    requires id in t.s.cells && t.s.cells[id].row.status == Running && t.s.cells[id].row.ttlSeconds.Some?
    requires -9_223_372_036 <= t.s.cells[id].row.ttlSeconds.value <= 9_223_372_036
    ensures var r := t.s.cells[id].row;
            var heard := if r.lastHeartbeatAt.Some? then r.lastHeartbeatAt.value else r.startedAt;
            t.clock - heard <= r.ttlSeconds.value * 1_000_000_000 + gap || t.clock - heard <= l.delay + gap
  {
    ReachableKeeps(t, l);
    assert Seen(t.s.cells[id].row, t.done.value, l);
  }

  // ---------- runs in which the guarantees fail ----------

  // The run is there from instant 0 on, with nothing else.
  lemma Opening(l: Limits) returns (t: Timed)
    requires 0 <= l.delay
    ensures Reachable(t, l) && t.clock == 0 && t.s == OnCreate(INIT, First())
  {
    assert TimedRun(0, [], l) == Timed(INIT, 0, None);
    Reach(Timed(INIT, 0, None), Do(Create(First())), l);
    t := Taken(Timed(INIT, 0, None), Do(Create(First())), l);
  }

  lemma Later(t: Timed, until: Time, l: Limits) returns (t': Timed)
    requires Reachable(t, l) && t.clock <= until
    ensures Reachable(t', l) && t' == t.(clock := until)
  {
    Reach(t, Wait(until), l);
    t' := Taken(t, Wait(until), l);
  }

  lemma Then(t: Timed, a: Action, l: Limits) returns (t': Timed)
    requires Reachable(t, l) && Timely(t.s, a, t.clock, l)
    ensures Reachable(t', l) && t'.s == Next(t.s, a) && t'.clock == t.clock
  {
    Reach(t, Do(a), l);
    t' := Taken(t, Do(a), l);
  }

  // A row that ended before the cutoff is deleted, and the run starts again.
  lemma Recreated(t: Timed, l: Limits) returns (t': Timed, again: TaskRun)
    requires Reachable(t, l) && 0 <= l.delay && t.s.cells.Keys == {ID}
    requires t.s.cells[ID].row.finishedAt.Some? && t.s.cells[ID].row.finishedAt.value < t.clock - Lifetime(l.days)
    ensures Reachable(t', l) && t'.clock == t.clock
    ensures again == First().(startedAt := t.clock)
    ensures t'.s == t.s.(cells := map[ID := Cell(Inserted(again), t.s.births)], births := t.s.births + 1)
  {
    again := First().(startedAt := t.clock);
    var cleaned := Then(t, Action.Clean(Cutoff(t.clock, l.days)), l);
    assert cleaned.s.cells == map[];
    t' := Then(cleaned, Create(again), l);
  }

  // A sweep through an empty table, and then a start from before it.
  lemma StartedBehindSweep(l: Limits, gap: int) returns (t: Timed)
    requires 0 <= l.delay && 0 <= gap
    ensures Reachable(t, l) && t.done == Some(l.delay) && t.clock == l.delay + gap
    ensures t.s.cells == map[ID := Cell(Inserted(First()), 0)]
  {
    assert TimedRun(0, [], l) == Timed(INIT, 0, None);
    var t1 := Later(Timed(INIT, 0, None), l.delay, l);
    assert Orders([], t1.s.cells);
    var t2 := Then(t1, SweepRead(l.delay, []), l);
    var t3 := Then(t2, Create(First()), l);
    Reach(t3, Do(SweepClose(0)), l);
    t := Later(Taken(t3, Do(SweepClose(0)), l), l.delay + gap, l);
  }

  // A sweep that finds the run at its TTL, not past it.
  lemma SweptAtTtl(l: Limits, gap: int) returns (t: Timed)
    requires 0 <= l.delay && 0 <= gap
    ensures Reachable(t, l) && t.done == Some(1_000_000_000) && t.clock == 1_000_000_000 + gap
    ensures t.s.cells == map[ID := Cell(Inserted(First()), 0)]
  {
    var t0 := Opening(l);
    var t1 := Later(t0, 1_000_000_000, l);
    assert Orders([ID], t1.s.cells);
    var t2 := Then(t1, SweepRead(1_000_000_000, [ID]), l);
    OverdueMeans(Inserted(First()), 1_000_000_000);
    var t3 := Then(t2, SweepNext(0), l);
    Reach(t3, Do(SweepClose(0)), l);
    t := Later(Taken(t3, Do(SweepClose(0)), l), 1_000_000_000 + gap, l);
  }

  /**
    That bound is sharp, for every delay and gap, whichever of the delay and a
    TTL of a second is the longer.
   */
  lemma TimeoutBoundIsReached(l: Limits, gap: int) returns (t: Timed)
    requires 0 <= l.delay && 0 <= gap
    ensures Reachable(t, l) && t.done.Some? && t.clock == t.done.value + gap && ID in t.s.cells
    ensures var r := t.s.cells[ID].row;
            && r.status == Running && r.ttlSeconds == Some(1) && r.startedAt == 0 && r.lastHeartbeatAt == Some(0)
            && t.clock == (if l.delay < 1_000_000_000 then 1_000_000_000 else l.delay) + gap
  {
    if l.delay < 1_000_000_000 {
      t := SweptAtTtl(l, gap);
    } else {
      t := StartedBehindSweep(l, gap);
    }
  }

  /**
    One sweep and one report are under way for as long as the delay allows: the
    sweep's snapshot has the run running and overdue, and so has read the
    report, when another report ends the run with an earlier clock reading; by
    the time retention may delete it, the two are not yet done.
   */
  lemma Straddled(l: Limits) returns (t: Timed, again: TaskRun)
    requires 0 <= l.delay && Lifetime(l.days) < 2 * l.delay
    ensures Reachable(t, l) && t.clock == TEN + 2 * l.delay && again == First().(startedAt := t.clock)
    ensures t.s.cells == map[ID := Cell(Inserted(again), 1)]
    ensures t.s.hits == [] && Ledger.Is(t.s.ledger, 0, Ledger.Scanning)
    ensures t.s.scans == [Scan(TEN + l.delay, map[ID := Cell(Inserted(First()), 0)], 1, [ID])]
    ensures 1 in t.s.calls && t.s.calls[1] == Call(ID, Success, "", TEN + l.delay, 0, None, 0)
  {
    var t1 := UnderWay(l);
    var t2 := Then(t1, FinishWrite(0), l);
    var t3 := Later(t2, TEN + 2 * l.delay, l);
    t, again := Recreated(t3, l);
  }

  lemma UnderWay(l: Limits) returns (t: Timed)
    requires 0 <= l.delay
    ensures Reachable(t, l) && t.clock == TEN + l.delay
    ensures t.s.cells == map[ID := Cell(Inserted(First()), 0)] && t.s.births == 1
    ensures t.s.hits == [] && Ledger.Is(t.s.ledger, 0, Ledger.Scanning)
    ensures t.s.scans == [Scan(TEN + l.delay, t.s.cells, 1, [ID])]
    ensures t.s.calls == map[0 := Call(ID, Success, "", TEN, 0, None, 0), 1 := Call(ID, Success, "", TEN + l.delay, 0, None, 0)]
  {
    var t0 := Opening(l);
    var t1 := Later(t0, TEN, l);
    var t2 := Then(t1, FinishRead(ID, Success, "", TEN), l);
    var t3 := Later(t2, TEN + l.delay, l);
    assert Orders([ID], t3.s.cells);
    var t4 := Then(t3, SweepRead(TEN + l.delay, [ID]), l);
    t := Then(t4, FinishRead(ID, Success, "", TEN + l.delay), l);
  }

  lemma FirstIsOverdue(now: Time)
    requires TEN <= now
    ensures Overdue(Inserted(First()), now)
  {
    WrapOf(SECOND);
  }

  // A sweep has timed out a run it never saw, and which was not overdue.
  ghost predicate HitUnseen(s: State) {
    && |s.hits| == 1 && |s.scans| == 1 && s.hits[0].id in s.scans[0].seen
    && s.hits[0].before.birth != s.scans[0].seen[s.hits[0].id].birth
    && !Overdue(s.hits[0].before.row, s.scans[0].now)
  }

  /**
    With retention shorter than twice the delay, a run can be timed out right
    after it has started, by a sweep that saw an earlier one of the same id.
   */
  lemma FreshIncarnationCanBeTimedOut(l: Limits) returns (t: Timed)
    requires 0 <= l.delay && Lifetime(l.days) < 2 * l.delay
    ensures Reachable(t, l) && HitUnseen(t.s) && !HitsSeen(t.s)
  {
    var s, again := Straddled(l);
    t := Then(s, SweepNext(0), l);
    FirstIsOverdue(TEN + l.delay);
    WrapOf(SECOND);
    assert !OfSeen(t.s.scans, t.s.hits[0]);
  }

  lemma DurationsDiffer(at: Time, again: Time)
    requires TEN <= at <= again
    ensures Milliseconds(Sub(at, 0)) != Milliseconds(Sub(at, again))
  {
  }

  /**
    With such retention, a report on a running run can store a duration counted
    from the start of an earlier run of the same id.
   */
  lemma FinishAcrossRecreation(l: Limits, age: int) returns (t: Timed)
    requires 0 <= l.delay && Lifetime(l.days) < 2 * l.delay
    ensures Reachable(t, l) && !DurationsRight(t.s, age)
  {
    var s, again := Straddled(l);
    t := Then(s, FinishWrite(1), l);
    DurationsDiffer(TEN + l.delay, again.startedAt);
    var i := |t.s.landings| - 1;
    assert EndedWithin(t.s.landings[i].call, age) && !DurationRight(t.s.landings[i]);
  }

  /**
    However long retention is, and however short the delay, a repeated report on
    a run that ended long enough ago can do the same.
   */
  lemma RepeatAcrossRecreation(l: Limits, age: int) returns (t: Timed)
    requires 0 <= l.delay && 2 * l.delay <= Lifetime(l.days) < l.delay + age
    ensures Reachable(t, l) && !DurationsRight(t.s, age)
  {
    var t0 := Opening(l);
    var t1 := Later(t0, TEN, l);
    var t2 := Then(t1, FinishRead(ID, Success, "", TEN), l);
    var t3 := Then(t2, FinishWrite(0), l);
    var t4 := Later(t3, TEN + age, l);
    var t5 := Then(t4, FinishRead(ID, Success, "", TEN + age), l);
    var t6 := Later(t5, TEN + age + l.delay, l);
    var t7, again := Recreated(t6, l);
    t := Then(t7, FinishWrite(1), l);
    DurationsDiffer(TEN + age, again.startedAt);
    var i := |t.s.landings| - 1;
    assert EndedWithin(t.s.landings[i].call, age) && !DurationRight(t.s.landings[i]);
  }

  /**
    However short the delay, a heartbeat that comes in between a sweep's
    snapshot and its update does not save the run.
   */
  lemma HeartbeatCanBeOverruled(l: Limits) returns (t: Timed)
    requires 0 <= l.delay
    ensures Reachable(t, l) && |t.s.hits| == 1 && HitsSeen(t.s)
    ensures !Overdue(t.s.hits[0].before.row, t.s.scans[t.s.hits[0].sweep].now)
  {
    var t0 := Opening(l);
    var t1 := Later(t0, TEN, l);
    assert Orders([ID], t1.s.cells);
    var t2 := Then(t1, SweepRead(TEN, [ID]), l);
    var t3 := Then(t2, Action.Heartbeat(ID, TEN), l);
    t := Then(t3, SweepNext(0), l);
    FirstIsOverdue(TEN);
    WrapOf(SECOND);
  }
}
