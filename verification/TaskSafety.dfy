/** What every interleaved run of the task protocol guarantees. */
module TaskSafety {
  import opened Options
  import opened Clock
  import opened TaskRuns
  import opened TaskProtocol
  import Ledger

  lemma {:induction false} RunKeeps(actions: seq<Action>)
    ensures Inv(Run(INIT, actions))
  {
    if actions == [] {
      Ledger.EmptyValid();
    } else {
      RunKeeps(actions[..|actions| - 1]);
      StepKeeps(Run(INIT, actions[..|actions| - 1]), actions[|actions| - 1]);
    }
  }

  /**
    Between any two moments of any run, a row incarnation present at the later
    one was there at the earlier one unless inserted since, and its rank
    running < timeout < success or failed has not fallen, its start, TTL, name
    and source are the same, and a finished run has had no heartbeat.
   */
  lemma {:induction false} LifecycleNeverRegresses(actions: seq<Action>, i: nat)
    requires i <= |actions|
    ensures var s, s' := Run(INIT, actions[..i]), Run(INIT, actions);
            forall id :: id in s'.cells && s'.cells[id].birth < s.births ==>
              && id in s.cells && s.cells[id].birth == s'.cells[id].birth
              && Progress(s.cells[id].row, s'.cells[id].row)
    ensures var s, s' := Run(INIT, actions[..i]), Run(INIT, actions);
            forall id :: id in s'.cells && s'.cells[id].birth < s.births ==>
              && id in s.cells
              && var r, r' := s.cells[id].row, s'.cells[id].row;
              && (r'.status == Running ==> r.status == Running)
              && (r'.status == Timeout ==> r.status == Running || r.status == Timeout)
              && (r.status == Success || r.status == Failed ==> r'.status == Success || r'.status == Failed)
              && (r.status != Running ==> r'.lastHeartbeatAt == r.lastHeartbeatAt)
              && r'.startedAt == r.startedAt && r'.ttlSeconds == r.ttlSeconds
              && r'.runId == r.runId && r'.taskName == r.taskName && r'.source == r.source
    ensures Run(INIT, actions[..i]).births <= Run(INIT, actions).births
  {
    if i == |actions| {
      assert actions[..i] == actions;
      RunKeeps(actions);
    } else {
      var before := actions[..|actions| - 1];
      assert before[..i] == actions[..i];
      LifecycleNeverRegresses(before, i);
      RunKeeps(before);
      StepKeeps(Run(INIT, before), actions[|actions| - 1]);
      GrowTransitively(Run(INIT, actions[..i]).cells, Run(INIT, actions[..i]).births,
                       Run(INIT, before).cells, Run(INIT, before).births, Run(INIT, actions).cells);
    }
  }

  // ---------- the steps are the statements of the sequential store ----------

  ghost function Rows(s: State): Table {
    map id | id in s.cells :: s.cells[id].row
  }

  lemma CreatedRows(s: State, run: TaskRun)
    requires run.status == Running
    ensures Rows(OnCreate(s, run)) == if run.runId in Rows(s) then Rows(s) else Rows(s)[run.runId := Inserted(run)]
  {
  }

  lemma BeatenRows(s: State, id: string, at: Time)
    ensures Rows(OnHeartbeat(s, id, at)) == HeartbeatTable(Rows(s), id, at)
  {
  }

  lemma CleanedRows(s: State, cutoff: Time)
    ensures Rows(OnClean(s, cutoff)) == Retained(Rows(s), cutoff)
  {
  }

  lemma TriedRows(s: State, sweep: nat, scan: Scan, id: string)
    requires Ledger.Is(s.ledger, sweep, Ledger.Scanning)
    ensures Rows(Tried(s, sweep, scan, id)) ==
      if id in scan.seen && Overdue(scan.seen[id].row, scan.now)
      then TimeoutTable(Rows(s), id, Reference(scan.seen[id].row), scan.now) else Rows(s)
  {
    if id in scan.seen && Overdue(scan.seen[id].row, scan.now) && id in s.cells && s.cells[id].row.status == Running {
      var row := TimedOut(s.cells[id].row, Reference(scan.seen[id].row), scan.now);
      assert Rows(Struck(s, sweep, id, row)) == Rows(s)[id := row];
    }
  }

  /**
    Each step of the protocol does to the rows what the corresponding statement
    of the sequential store does (FinishLinearizes is about the one step left
    out here); a sweep's step is its guarded update with the
    reference and clock of its snapshot; the other steps leave the rows alone.
   */
  lemma StepsAreStatements(s: State, a: Action)
    requires !a.FinishWrite?
    ensures var t, t' := Rows(s), Rows(Next(s, a));
            match a
            case Create(run) => run.status == Running ==> t' == if run.runId in t then t else t[run.runId := Inserted(run)]
            case Heartbeat(id, at) => t' == HeartbeatTable(t, id, at)
            case Clean(cutoff) => t' == Retained(t, cutoff)
            case SweepNext(sweep) =>
              t' == if Ledger.Is(s.ledger, sweep, Ledger.Scanning) && sweep < |s.scans| && s.scans[sweep].todo != [] then
                      var scan, id := s.scans[sweep], s.scans[sweep].todo[0];
                      if id in scan.seen && Overdue(scan.seen[id].row, scan.now)
                      then TimeoutTable(t, id, Reference(scan.seen[id].row), scan.now) else t
                    else t
            case _ => t' == t
  {
    match a
    case Create(run) =>
      if run.status == Running {
        CreatedRows(s, run);
      }
    case Heartbeat(id, at) => BeatenRows(s, id, at);
    case Clean(cutoff) => CleanedRows(s, cutoff);
    case SweepNext(sweep) =>
      if Ledger.Is(s.ledger, sweep, Ledger.Scanning) && sweep < |s.scans| && s.scans[sweep].todo != [] {
        TriedRows(Advanced(s, sweep), sweep, s.scans[sweep], s.scans[sweep].todo[0]);
      }
    case _ => OtherStepsKeepCells(s, a);
  }

  ghost predicate TimesOut(s: State, s': State, id: string) {
    && id in s.cells && id in s'.cells && s.cells[id].birth == s'.cells[id].birth
    && s.cells[id].row.status == Running && s'.cells[id].row.status == Timeout
  }

  ghost predicate NoneTimesOut(s: State, s': State) {
    s'.hits == s.hits && forall id :: !TimesOut(s, s', id)
  }

  lemma HandlersTimeOutNothing(s: State, a: Action)
    requires Inv(s) && (a.Create? || a.Heartbeat? || a.FinishWrite? || a.Clean?)
    ensures NoneTimesOut(s, Next(s, a))
  {
    match a
    case Create(run) => assert NoneTimesOut(s, OnCreate(s, run));
    case Heartbeat(id, at) => assert NoneTimesOut(s, OnHeartbeat(s, id, at));
    case FinishWrite(call) => assert NoneTimesOut(s, OnFinishWrite(s, call));
    case Clean(cutoff) => assert NoneTimesOut(s, OnClean(s, cutoff));
  }

  lemma OtherStepsKeepCells(s: State, a: Action)
    requires !(a.Create? || a.Heartbeat? || a.FinishWrite? || a.Clean? || a.SweepNext?)
    ensures Next(s, a).cells == s.cells && Next(s, a).hits == s.hits
  {
  }

  // The step that makes hit h times out the row of h, and no other row.
  ghost predicate OnlyTimesOut(s: State, s': State, h: Hit) {
    && s'.hits == s.hits + [h] && h.id in s.cells && h.before == s.cells[h.id]
    && forall id :: TimesOut(s, s', id) <==> id == h.id
  }

  lemma StrikeTimesOut(s: State, sweep: nat, id: string, row: TaskRun)
    requires Ledger.Is(s.ledger, sweep, Ledger.Scanning) && id in s.cells
    requires s.cells[id].row.status == Running && row.status == Timeout
    ensures OnlyTimesOut(s, Struck(s, sweep, id, row), Hit(sweep, id, s.cells[id]))
  {
  }

  lemma SweepNextTimesOut(s: State, sweep: nat)
    ensures var s' := OnSweepNext(s, sweep);
            NoneTimesOut(s, s') || (s'.hits != [] && OnlyTimesOut(s, s', s'.hits[|s'.hits| - 1]))
  {
    if Ledger.Is(s.ledger, sweep, Ledger.Scanning) && sweep < |s.scans| && s.scans[sweep].todo != [] {
      var scan, id, mid := s.scans[sweep], s.scans[sweep].todo[0], Advanced(s, sweep);
      if id in scan.seen && Overdue(scan.seen[id].row, scan.now) && id in s.cells && s.cells[id].row.status == Running {
        StrikeTimesOut(mid, sweep, id, TimedOut(s.cells[id].row, Reference(scan.seen[id].row), scan.now));
      }
    }
  }

  /** The recorded hits are exactly the running-to-timeout steps of the table. */
  lemma HitsAreTimeouts(actions: seq<Action>, a: Action)
    ensures var s, s' := Run(INIT, actions), Next(Run(INIT, actions), a);
            NoneTimesOut(s, s') || (s'.hits != [] && OnlyTimesOut(s, s', s'.hits[|s'.hits| - 1]))
  {
    var s := Run(INIT, actions);
    if a.Create? || a.Heartbeat? || a.FinishWrite? || a.Clean? {
      RunKeeps(actions);
      HandlersTimeOutNothing(s, a);
    } else if a.SweepNext? {
      SweepNextTimesOut(s, a.sweep);
    } else {
      OtherStepsKeepCells(s, a);
    }
  }

  /**
    Under any interleaving, an incarnation is timed out by at most one update
    of at most one sweep; that sweep saw the row running and past its TTL, the
    row was still running at the update, and it is the incarnation the sweep
    saw or one inserted after. No timeout event goes out twice, and none goes
    out for a sweep that met an error. Once no sweep is under way, each
    timeout has been published exactly once, or its sweep met an error.
   */
  lemma TimeoutOncePerRun(actions: seq<Action>)
    ensures var s := Run(INIT, actions);
            && (forall g, h :: 0 <= g < h < |s.hits| ==> s.hits[g].before.birth != s.hits[h].before.birth)
            && (forall h :: 0 <= h < |s.hits| ==> Justified(s.scans, s.hits[h]))
            && (forall i, j :: 0 <= i < j < |s.ledger.published| ==> s.ledger.published[i] != s.ledger.published[j])
            && (forall h :: h in s.ledger.published ==> h < |s.hits| && s.hits[h].sweep !in s.ledger.failed)
            && (s.ledger.live == map[] ==> forall h: nat :: h < |s.hits| ==>
                  (h in s.ledger.published <==> s.hits[h].sweep !in s.ledger.failed))
  {
    RunKeeps(actions);
    Ledger.PublishedIffSound(Run(INIT, actions).ledger);
  }

  /**
    A hit is on the incarnation its sweep saw exactly if the row was born before
    the snapshot. Then it is still overdue at the update unless a heartbeat came
    in since the snapshot, and that heartbeat is within the TTL.
   */
  lemma HitIsOverdueUnlessBeaten(actions: seq<Action>, h: nat)
    requires h < |Run(INIT, actions).hits|
    ensures var s := Run(INIT, actions); var hit := s.hits[h];
            && hit.sweep < |s.scans| && hit.id in s.scans[hit.sweep].seen
            && var scan, seen := s.scans[hit.sweep], s.scans[hit.sweep].seen[hit.id];
            && Overdue(seen.row, scan.now)
            && (hit.before.birth == seen.birth <==> hit.before.birth < scan.births)
            && (hit.before.birth == seen.birth ==>
                  (!Overdue(hit.before.row, scan.now) <==>
                     && hit.before.row.lastHeartbeatAt != seen.row.lastHeartbeatAt
                     && !Expired(Reference(hit.before.row), seen.row.ttlSeconds.value, scan.now)))
  {
    RunKeeps(actions);
    var s := Run(INIT, actions);
    assert Justified(s.scans, s.hits[h]);
  }

  /**
    The row a timeout event carries is re-read after the update. It may by then
    show a reported outcome, but never the same incarnation running again.
   */
  lemma TimeoutEventNeverShowsRunning(actions: seq<Action>, h: nat)
    requires h in Run(INIT, actions).ledger.published
    ensures var s := Run(INIT, actions);
            && h in s.reread && h < |s.hits|
            && (s.reread[h].birth == s.hits[h].before.birth ==> s.reread[h].row.status != Running)
  {
    RunKeeps(actions);
  }

  lemma LandedIsAtomic(s: State, c: Call)
    requires c.id in s.cells && s.cells[c.id].row.startedAt == c.started
    ensures Rows(Landed(s, c)) == FinishTable(Rows(s), c.id, c.status, c.message, c.at)
  {
  }

  /**
    A Finish that finds its row gone at the update changes nothing. One that
    finds the incarnation it read has the effect of a single atomic statement
    at the moment of its update, whatever ran in between.
   */
  lemma FinishLinearizes(actions: seq<Action>, n: nat)
    requires n in Run(INIT, actions).calls
    ensures var s, s' := Run(INIT, actions), Next(Run(INIT, actions), FinishWrite(n));
            var c := s.calls[n];
            && (c.id !in s.cells ==> s'.cells == s.cells && s'.landings == s.landings + [Landing(c, None)])
            && (c.id in s.cells && s.cells[c.id].birth == c.birth ==>
                  && Rows(s') == FinishTable(Rows(s), c.id, c.status, c.message, c.at)
                  && s'.landings == s.landings + [Landing(c, Some(s'.cells[c.id]))])
  {
    RunKeeps(actions);
    var s := Run(INIT, actions);
    var c := s.calls[n];
    if c.id in s.cells && s.cells[c.id].birth == c.birth {
      LandedIsAtomic(s.(calls := s.calls - {n}), c);
    }
  }

  // What a Finish has stored is right: its time since the start of its own row.
  ghost predicate DurationRight(l: Landing) {
    l.after.Some? ==>
      l.after.value.row.durationMs == Some(Milliseconds(Sub(l.call.at, l.after.value.row.startedAt)))
  }

  /**
    Over whole runs: what a completed Finish has stored is right exactly if the
    start it read and the start of the row it updated give the same whole
    milliseconds, and always if it updated the incarnation it read.
   */
  lemma DurationsAreRight(actions: seq<Action>, i: nat)
    requires i < |Run(INIT, actions).landings|
    ensures var l := Run(INIT, actions).landings[i];
            l.after.Some? ==>
              && l.after.value.row.finishedAt == Some(l.call.at)
              && (DurationRight(l) <==>
                    Milliseconds(Sub(l.call.at, l.call.started)) == Milliseconds(Sub(l.call.at, l.after.value.row.startedAt)))
              && (l.after.value.birth == l.call.birth ==> DurationRight(l))
  {
    RunKeeps(actions);
    assert LandingOk(Run(INIT, actions).landings[i]);
  }

  /**
    In every reachable state a retention pass keeps every running row, although
    it only looks at finished_at, and deletes exactly the finished rows from
    before the cutoff.
   */
  lemma RetentionIsSafe(actions: seq<Action>, cutoff: Time)
    ensures var t, t' := Rows(Run(INIT, actions)), Rows(Next(Run(INIT, actions), Action.Clean(cutoff)));
            && (forall id :: id in t && t[id].status == Running ==> id in t' && t'[id] == t[id])
            && (forall id :: id in t && t[id].status != Running ==>
                  t[id].finishedAt.Some? && (id in t' <==> t[id].finishedAt.value >= cutoff))
            && |t'| + |set id | id in t && Stale(t[id], cutoff)| == |t|
  {
    RunKeeps(actions);
    CleanedRows(Run(INIT, actions), cutoff);
    RetainedExactly(Rows(Run(INIT, actions)), cutoff);
  }
}
