/**
  The schedule protocol beside a clock: how late a missed run can be noticed.

  Registrations, starts and snapshot queries run at most a given delay after
  the clock reading they carry. Statements are otherwise interleaved in any way.
 */
module ScheduleTiming {
  import opened Options
  import opened Clock
  import opened Schedules
  import opened ScheduleProtocol
  import Ledger

  // moved: for each check, the names registered anew since its snapshot over a
  // row that has started, and not started since. done and changed are the clock
  // reading and the moved names of the last check through its candidates.
  datatype Timed = Timed(s: State, clock: Time, moved: seq<set<string>>, done: Option<Time>, changed: set<string>)

  datatype Step =
    | Wait(until: Time)
    | Do(a: Action)

  predicate Within(reading: Time, clock: Time, delay: int) {
    reading <= clock <= reading + delay
  }

  predicate Timely(a: Action, clock: Time, delay: int) {
    match a
    case Upsert(_, _, _, _, at) => Within(at, clock, delay)
    case Touch(_, at) => Within(at, clock, delay)
    case CheckRead(now, _) => Within(now, clock, delay)
    case _ => true
  }

  // A start, or a registration that counts from its own time, settles a name.
  function Mark(names: set<string>, rows: Table, a: Action): set<string> {
    match a
    case Upsert(name, _, _, _, _) =>
      if name in rows && rows[name].lastSeenAt.Some? then names + {name} else names - {name}
    case Touch(name, _) => names - {name}
    case _ => names
  }

  function MarkAll(moved: seq<set<string>>, rows: Table, a: Action): seq<set<string>> {
    seq(|moved|, p requires 0 <= p < |moved| => Mark(moved[p], rows, a))
  }

  predicate Closes(t: Timed, a: Action) {
    && a.CheckClose? && Ledger.Is(t.s.ledger, a.check, Ledger.Scanning)
    && a.check < |t.s.checks| == |t.moved| && t.s.checks[a.check].todo == []
  }

  ghost function Done(cron: Cron, t: Timed, a: Action): Timed {
    var s', moved := Next(cron, t.s, a), MarkAll(t.moved, t.s.rows, a);
    if Closes(t, a) then
      Timed(s', t.clock, moved, Some(t.s.checks[a.check].now), t.moved[a.check])
    else
      Timed(s', t.clock, if |s'.checks| > |t.s.checks| then moved + [{}] else moved, t.done, Mark(t.changed, t.s.rows, a))
  }

  ghost function Taken(cron: Cron, t: Timed, step: Step, delay: int): Timed {
    match step
    case Wait(until) => if t.clock <= until then t.(clock := until) else t
    case Do(a) => if Timely(a, t.clock, delay) then Done(cron, t, a) else t
  }

  ghost function TimedRun(cron: Cron, start: Time, steps: seq<Step>, delay: int): Timed {
    if steps == [] then Timed(INIT, start, [], None, {})
    else Taken(cron, TimedRun(cron, start, steps[..|steps| - 1], delay), steps[|steps| - 1], delay)
  }

  // ---------- the invariant ----------

  // A cadence as Register accepts it, within the range of durations, and for
  // an expression, one that always has a next occurrence.
  ghost predicate Regular(cron: Cron, occurs: (string, Time) -> bool, s: Schedule) {
    && 0 <= s.grace <= MAX_SECONDS
    && match s.cron
       case Some(spec) => cron.parses(spec) && forall after: Time :: OccursAfter(occurs, spec, after)
       case None => s.interval.Some? && 0 < s.interval.value && s.interval.value + s.grace <= MAX_SECONDS
  }

  ghost predicate Ahead(cron: Cron, row: Schedule, now: Time, delay: int) {
    Deadline(cron, row).Some? && now - delay < Deadline(cron, row).value
  }

  ghost predicate InHand(c: Check, name: string, row: Schedule) {
    name in c.todo && name in c.seen && c.seen[name] == row
  }

  ghost predicate Settled(cron: Cron, occurs: (string, Time) -> bool, rows: Table, marks: set<string>, name: string) {
    name in rows && name !in marks && rows[name].health == Ok && Regular(cron, occurs, rows[name])
  }

  ghost predicate Covered(cron: Cron, occurs: (string, Time) -> bool, c: Check, marks: set<string>, rows: Table, delay: int) {
    forall name :: Settled(cron, occurs, rows, marks, name) ==> InHand(c, name, rows[name]) || Ahead(cron, rows[name], c.now, delay)
  }

  ghost predicate AllCovered(cron: Cron, occurs: (string, Time) -> bool, t: Timed, delay: int) {
    && |t.moved| == |t.s.checks|
    && forall p :: 0 <= p < |t.moved| ==>
         t.s.checks[p].now <= t.clock && Covered(cron, occurs, t.s.checks[p], t.moved[p], t.s.rows, delay)
  }

  ghost predicate DoneCovered(cron: Cron, occurs: (string, Time) -> bool, t: Timed, delay: int) {
    t.done.Some? ==>
      && t.done.value <= t.clock
      && forall name :: Settled(cron, occurs, t.s.rows, t.changed, name) ==> Ahead(cron, t.s.rows[name], t.done.value, delay)
  }

  ghost predicate TimedInv(cron: Cron, occurs: (string, Time) -> bool, t: Timed, delay: int) {
    AllCovered(cron, occurs, t, delay) && DoneCovered(cron, occurs, t, delay)
  }

  // ---------- every step keeps it ----------

  // A regular cadence sets its deadline strictly after the reference.
  lemma DeadlineAhead(cron: Cron, occurs: (string, Time) -> bool, s: Schedule)
    requires Lawful(cron, occurs) && Regular(cron, occurs, s)
    ensures Deadline(cron, s).Some? && Reference(s) < Deadline(cron, s).value
  {
    match s.cron
    case Some(spec) =>
      assert OccursAfter(occurs, spec, Reference(s));
      var o: Time :| Reference(s) < o && occurs(spec, o);
      WrapOf(s.grace * SECOND);
    case None =>
      AllowanceExact(s.interval.value, s.grace);
  }

  // A row still ok after a step is as it was, or marked, or counts from a
  // reading at most the delay ago.
  lemma StepMoves(cron: Cron, s: State, a: Action, marks: set<string>, clock: Time, delay: int, name: string)
    requires Timely(a, clock, delay)
    requires name in Next(cron, s, a).rows && Next(cron, s, a).rows[name].health == Ok
    requires name !in Mark(marks, s.rows, a)
    ensures var row := Next(cron, s, a).rows[name];
            (name in s.rows && s.rows[name] == row && name !in marks) || clock - delay <= Reference(row)
  {
  }

  // Unless it is the check's own step on that row, the row stays covered.
  lemma MovesCover(cron: Cron, occurs: (string, Time) -> bool, t: Timed, a: Action, marks: set<string>, now: Time, delay: int, name: string)
    requires Lawful(cron, occurs) && Timely(a, t.clock, delay) && now <= t.clock
    requires Settled(cron, occurs, Next(cron, t.s, a).rows, Mark(marks, t.s.rows, a), name)
    ensures var row := Next(cron, t.s, a).rows[name];
            || (name in t.s.rows && t.s.rows[name] == row && Settled(cron, occurs, t.s.rows, marks, name))
            || Ahead(cron, row, now, delay)
  {
    StepMoves(cron, t.s, a, marks, t.clock, delay, name);
    DeadlineAhead(cron, occurs, Next(cron, t.s, a).rows[name]);
  }

  lemma CheckCarriedOver(cron: Cron, occurs: (string, Time) -> bool, t: Timed, a: Action, p: nat, delay: int)
    requires Lawful(cron, occurs) && TimedInv(cron, occurs, t, delay) && Timely(a, t.clock, delay) && p < |t.moved|
    ensures Covered(cron, occurs, t.s.checks[p], Mark(t.moved[p], t.s.rows, a), Next(cron, t.s, a).rows, delay)
  {
    var rows', marks' := Next(cron, t.s, a).rows, Mark(t.moved[p], t.s.rows, a);
    assert Covered(cron, occurs, t.s.checks[p], t.moved[p], t.s.rows, delay);
    forall name | Settled(cron, occurs, rows', marks', name)
      ensures InHand(t.s.checks[p], name, rows'[name]) || Ahead(cron, rows'[name], t.s.checks[p].now, delay)
    {
      MovesCover(cron, occurs, t, a, t.moved[p], t.s.checks[p].now, delay, name);
    }
  }

  lemma DoneCarriedOver(cron: Cron, occurs: (string, Time) -> bool, t: Timed, a: Action, delay: int)
    requires Lawful(cron, occurs) && TimedInv(cron, occurs, t, delay) && Timely(a, t.clock, delay)
    ensures DoneCovered(cron, occurs, t.(s := Next(cron, t.s, a), changed := Mark(t.changed, t.s.rows, a)), delay)
  {
    var rows', marks' := Next(cron, t.s, a).rows, Mark(t.changed, t.s.rows, a);
    if t.done.Some? {
      forall name | Settled(cron, occurs, rows', marks', name) ensures Ahead(cron, rows'[name], t.done.value, delay) {
        MovesCover(cron, occurs, t, a, t.changed, t.done.value, delay, name);
      }
    }
  }

  // The candidate done with is flagged, or was not due in the snapshot.
  lemma AdvanceCovers(cron: Cron, occurs: (string, Time) -> bool, s: State, check: nat, marks: set<string>, delay: int)
    requires 0 <= delay
    requires Ledger.Is(s.ledger, check, Ledger.Scanning) && check < |s.checks| && s.checks[check].todo != []
    requires Lawful(cron, occurs) && Covered(cron, occurs, s.checks[check], marks, OnCheckNext(cron, s, check).rows, delay)
    ensures Covered(cron, occurs, OnCheckNext(cron, s, check).checks[check], marks, OnCheckNext(cron, s, check).rows, delay)
  {
    var c, s' := s.checks[check], OnCheckNext(cron, s, check);
    assert s'.checks[check] == c.(todo := c.todo[1..]);
    forall name | Settled(cron, occurs, s'.rows, marks, name)
      ensures InHand(s'.checks[check], name, s'.rows[name]) || Ahead(cron, s'.rows[name], c.now, delay)
    {
      if name == c.todo[0] && InHand(c, name, s'.rows[name]) {
        DeadlineAhead(cron, occurs, s'.rows[name]);
        assert !Due(cron, c.seen[name], c.now);
      }
    }
  }

  lemma OtherStepsKeepChecks(cron: Cron, s: State, a: Action)
    requires !a.CheckRead? && !a.CheckNext?
    ensures Next(cron, s, a).checks == s.checks
  {
  }

  lemma ChecksKept(cron: Cron, occurs: (string, Time) -> bool, t: Timed, a: Action, delay: int)
    requires Lawful(cron, occurs) && TimedInv(cron, occurs, t, delay) && Timely(a, t.clock, delay) && 0 <= delay
    ensures AllCovered(cron, occurs, Done(cron, t, a), delay)
  {
    var s', t' := Next(cron, t.s, a), Done(cron, t, a);
    forall p | 0 <= p < |t.moved|
      ensures p < |s'.checks| && s'.checks[p].now <= t.clock
      ensures Covered(cron, occurs, s'.checks[p], Mark(t.moved[p], t.s.rows, a), s'.rows, delay)
    {
      CheckCarriedOver(cron, occurs, t, a, p, delay);
      if a.CheckNext? {
        if s'.checks[p] != t.s.checks[p] {
          AdvanceCovers(cron, occurs, t.s, p, t.moved[p], delay);
        }
      } else if !a.CheckRead? {
        OtherStepsKeepChecks(cron, t.s, a);
      }
    }
    if a.CheckRead? {
      if Orders(a.order, t.s.rows) {
        assert Covered(cron, occurs, Check(a.now, t.s.rows, a.order), {}, t.s.rows, delay);
      }
    } else if !a.CheckNext? {
      OtherStepsKeepChecks(cron, t.s, a);
    }
  }

  lemma DoKeeps(cron: Cron, occurs: (string, Time) -> bool, t: Timed, a: Action, delay: int)
    requires Lawful(cron, occurs) && TimedInv(cron, occurs, t, delay) && Timely(a, t.clock, delay) && 0 <= delay
    ensures TimedInv(cron, occurs, Done(cron, t, a), delay)
  {
    ChecksKept(cron, occurs, t, a, delay);
    if Closes(t, a) {
      assert Covered(cron, occurs, t.s.checks[a.check], t.moved[a.check], t.s.rows, delay);
    } else {
      DoneCarriedOver(cron, occurs, t, a, delay);
    }
  }

  lemma {:induction false} TimedRunKeeps(cron: Cron, occurs: (string, Time) -> bool, start: Time, steps: seq<Step>, delay: int)
    requires Lawful(cron, occurs) && 0 <= delay
    ensures TimedInv(cron, occurs, TimedRun(cron, start, steps, delay), delay)
  {
    if steps != [] {
      var t, step := TimedRun(cron, start, steps[..|steps| - 1], delay), steps[|steps| - 1];
      TimedRunKeeps(cron, occurs, start, steps[..|steps| - 1], delay);
      if step.Do? && Timely(step.a, t.clock, delay) {
        DoKeeps(cron, occurs, t, step.a, delay);
      }
    }
  }

  /**
    A name is excepted below only from a registration over a row that has
    started, until its next start, a registration that counts from its own time,
    or the end of a check whose snapshot comes after.
   */
  lemma ChangedExactly(cron: Cron, t: Timed, a: Action, name: string)
    requires |t.moved| == |t.s.checks|
    ensures var t' := Done(cron, t, a);
            var onto := a.Upsert? && a.name == name && name in t.s.rows && t.s.rows[name].lastSeenAt.Some?;
            var settled := (a.Upsert? || a.Touch?) && a.name == name;
            && (Closes(t, a) ==> t'.changed == t.moved[a.check])
            && (!Closes(t, a) ==> (name in t'.changed <==> onto || (name in t.changed && !settled)))
            && (forall p :: 0 <= p < |t.moved| ==> (name in t'.moved[p] <==> onto || (name in t.moved[p] && !settled)))
            && (a.CheckRead? && Orders(a.order, t.s.rows) ==> |t'.moved| == |t.moved| + 1 && t'.moved[|t.moved|] == {})
  {
  }

  /**
    At any moment, a schedule that shows as ok has its deadline in the past by
    less than the delay and the time since the clock reading of the last check
    that got through its candidates, unless its cadence was changed since that
    check's snapshot under a start from before.
   */
  lemma MissedRunsAreNoticed(
    cron: Cron, occurs: (string, Time) -> bool, start: Time, steps: seq<Step>, delay: int, gap: int, name: string)
    requires Lawful(cron, occurs) && 0 <= delay
    requires var t := TimedRun(cron, start, steps, delay);
             && t.done.Some? && t.clock <= t.done.value + gap
             && Settled(cron, occurs, t.s.rows, t.changed, name)
    ensures var t := TimedRun(cron, start, steps, delay);
            Deadline(cron, t.s.rows[name]).Some? && t.clock < Deadline(cron, t.s.rows[name]).value + delay + gap
  {
    TimedRunKeeps(cron, occurs, start, steps, delay);
    assert Ahead(cron, TimedRun(cron, start, steps, delay).s.rows[name], TimedRun(cron, start, steps, delay).done.value, delay);
  }

  // ---------- the bound is reached ----------

  ghost predicate Reachable(cron: Cron, t: Timed, delay: int) {
    exists start: Time, steps: seq<Step> :: TimedRun(cron, start, steps, delay) == t
  }

  lemma Then(cron: Cron, t: Timed, step: Step, delay: int) returns (t': Timed)
    requires Reachable(cron, t, delay)
    ensures Reachable(cron, t', delay) && t' == Taken(cron, t, step, delay)
  {
    var start: Time, steps: seq<Step> :| TimedRun(cron, start, steps, delay) == t;
    assert (steps + [step])[..|steps|] == steps;
    assert TimedRun(cron, start, steps + [step], delay) == Taken(cron, t, step, delay);
    t' := Taken(cron, t, step, delay);
  }

  // A library, and expressions that occur at every instant.
  function EveryInstant(): Cron {
    Cron((spec: string) => true, (spec: string, after: Time) => after + 1)
  }

  function Always(): (string, Time) -> bool {
    (spec: string, at: Time) => true
  }

  lemma EveryInstantIsLawful(spec: string)
    ensures Lawful(EveryInstant(), Always())
    ensures forall after: Time :: OccursAfter(Always(), spec, after)
  {
    forall after: Time ensures OccursAfter(Always(), spec, after) {
      assert after < after + 1 && Always()(spec, after + 1);
    }
  }

  /**
    That bound is sharp, for every delay and gap: a name registered just behind
    a check's snapshot, with an earlier reading and the shortest cadence, is
    seen to by the next check only.
   */
  lemma MissedBoundIsReached(delay: int, gap: int) returns (t: Timed, name: string)
    requires 0 <= delay && 0 <= gap
    ensures var cron, occurs := EveryInstant(), Always();
            && Lawful(cron, occurs) && Reachable(cron, t, delay)
            && t.done.Some? && t.clock == t.done.value + gap && Settled(cron, occurs, t.s.rows, t.changed, name)
            && Deadline(cron, t.s.rows[name]).Some? && t.clock + 1 == Deadline(cron, t.s.rows[name]).value + delay + gap
  {
    EveryInstantIsLawful("* * * * *");
    t := RegisteredBehindCheck(delay);
    t := Then(EveryInstant(), t, Wait(gap), delay);
    name := NAME;
    WrapOf(0);
  }

  const NAME := "backup"

  // A check through an empty table, and then a registration from before it.
  lemma RegisteredBehindCheck(delay: int) returns (t: Timed)
    requires 0 <= delay
    ensures Reachable(EveryInstant(), t, delay) && t.done == Some(0) && t.clock == 0 && t.changed == {}
    ensures t.s.rows == map[NAME := Schedule(NAME, None, Some("* * * * *"), 0, None, Ok, -delay)]
  {
    var cron, t0 := EveryInstant(), Timed(INIT, 0, [], None, {});
    assert TimedRun(cron, 0, [], delay) == t0;
    assert Orders([], t0.s.rows);
    var t1 := Then(cron, t0, Do(CheckRead(0, [])), delay);
    var t2 := Then(cron, t1, Do(Upsert(NAME, None, Some("* * * * *"), 0, -delay)), delay);
    t := Then(cron, t2, Do(CheckClose(0)), delay);
  }
}
