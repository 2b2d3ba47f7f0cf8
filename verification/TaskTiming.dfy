/**
  The task protocol beside a clock.

  Handlers, sweeps and retention read the clock before the statements that use
  the reading. Here every such statement runs at most a given delay after its
  reading, and retention deletes by a cutoff derived from a reading as the
  cleaner derives it. Statements are otherwise interleaved in any way.
 */
module TaskTiming {
  import opened Options
  import opened Clock
  import opened TaskRuns
  import opened TaskProtocol
  import opened TaskSafety
  import Ledger

  datatype Limits = Limits(delay: int, days: int64)

  // How long retention keeps a finished row: the clock minus its cutoff.
  function Lifetime(days: int64): int {
    -(Back(Retention(days)) as int)
  }

  /** The lifetime is the configured number of days, up to 106751 of them. */
  lemma LifetimeExact(days: int64)
    requires 0 <= days
    ensures Lifetime(days) == days * 86_400_000_000_000 <==> days <= 106_751
  {
    CutoffExact(0, days);
  }

  // done: the clock reading of the last sweep that got through its candidates.
  datatype Timed = Timed(s: State, clock: Time, done: Option<Time>)

  datatype Step =
    | Wait(until: Time)
    | Do(a: Action)

  predicate Within(reading: Time, clock: Time, l: Limits) {
    reading <= clock <= reading + l.delay
  }

  // A cutoff no later than the clock's comes from an earlier reading.
  predicate Timely(s: State, a: Action, clock: Time, l: Limits) {
    match a
    case Create(run) => Within(run.startedAt, clock, l)
    case Heartbeat(_, at) => Within(at, clock, l)
    case FinishRead(_, _, _, at) => Within(at, clock, l)
    case FinishWrite(n) => n in s.calls ==> Within(s.calls[n].at, clock, l)
    case SweepRead(now, _) => Within(now, clock, l)
    case SweepNext(sweep) => sweep < |s.scans| ==> Within(s.scans[sweep].now, clock, l)
    case Clean(cutoff) => cutoff <= Cutoff(clock, l.days)
    case _ => true
  }

  predicate Closes(s: State, a: Action) {
    a.SweepClose? && Ledger.Is(s.ledger, a.sweep, Ledger.Scanning) && a.sweep < |s.scans| && s.scans[a.sweep].todo == []
  }

  ghost function Taken(t: Timed, step: Step, l: Limits): Timed {
    match step
    case Wait(until) => if t.clock <= until then t.(clock := until) else t
    case Do(a) =>
      if Timely(t.s, a, t.clock, l) then
        Timed(Next(t.s, a), t.clock, if Closes(t.s, a) then Some(t.s.scans[a.sweep].now) else t.done)
      else t
  }

  ghost function TimedRun(start: Time, steps: seq<Step>, l: Limits): Timed {
    if steps == [] then Timed(INIT, start, None)
    else Taken(TimedRun(start, steps[..|steps| - 1], l), steps[|steps| - 1], l)
  }

  ghost predicate Reachable(t: Timed, l: Limits) {
    exists start: Time, steps: seq<Step> :: TimedRun(start, steps, l) == t
  }

  lemma Reach(t: Timed, step: Step, l: Limits)
    requires Reachable(t, l)
    ensures Reachable(Taken(t, step, l), l)
  {
    var start: Time, steps: seq<Step> :| TimedRun(start, steps, l) == t;
    assert (steps + [step])[..|steps|] == steps;
    assert TimedRun(start, steps + [step], l) == Taken(t, step, l);
  }

  // ---------- what a timely step does to a row ----------

  // Left alone, given a sign of life since, or ended since.
  ghost predicate Moves(r: TaskRun, r': TaskRun, since: Time) {
    || r' == r
    || (r.status == r'.status == Running && r'.ttlSeconds == r.ttlSeconds && since <= Reference(r'))
    || (r'.status != Running && r'.finishedAt.Some? && since <= r'.finishedAt.value)
  }

  // What is deleted ended before the cutoff; what is new has started since.
  ghost predicate Changes(cells: Cells, births: nat, cells': Cells, since: Time, cutoff: Time) {
    && (forall id :: id in cells' && id in cells && cells'[id].birth == cells[id].birth ==>
          Moves(cells[id].row, cells'[id].row, since))
    && (forall id :: id in cells' && !(id in cells && cells'[id].birth == cells[id].birth) ==>
          cells'[id].birth >= births && since <= Reference(cells'[id].row))
    && (forall id :: id in cells && !(id in cells' && cells'[id].birth == cells[id].birth) ==>
          cells[id].row.finishedAt.Some? && cells[id].row.finishedAt.value < cutoff)
  }

  lemma RewriteChanges(cells: Cells, births: nat, id: string, row: TaskRun, since: Time, cutoff: Time)
    requires id in cells && Moves(cells[id].row, row, since)
    ensures Changes(cells, births, cells[id := cells[id].(row := row)], since, cutoff)
  {
  }

  lemma SweepChanges(s: State, sweep: nat, clock: Time, l: Limits)
    requires Inv(s) && Timely(s, SweepNext(sweep), clock, l)
    ensures Changes(s.cells, s.births, OnSweepNext(s, sweep).cells, clock - l.delay, clock - Lifetime(l.days))
  {
    if Ledger.Is(s.ledger, sweep, Ledger.Scanning) && sweep < |s.scans| && s.scans[sweep].todo != [] {
      var scan, id := s.scans[sweep], s.scans[sweep].todo[0];
      if id in scan.seen && Overdue(scan.seen[id].row, scan.now) && id in s.cells && s.cells[id].row.status == Running {
        var row := TimedOut(s.cells[id].row, Reference(scan.seen[id].row), scan.now);
        RewriteChanges(s.cells, s.births, id, row, clock - l.delay, clock - Lifetime(l.days));
      }
    }
  }

  lemma ReportChanges(s: State, n: nat, clock: Time, l: Limits)
    requires Inv(s) && Timely(s, FinishWrite(n), clock, l)
    ensures Changes(s.cells, s.births, OnFinishWrite(s, n).cells, clock - l.delay, clock - Lifetime(l.days))
  {
    if n in s.calls && s.calls[n].id in s.cells {
      var c := s.calls[n];
      var row := Finished(s.cells[c.id].row, c.status, c.message, c.at, c.started);
      RewriteChanges(s.cells, s.births, c.id, row, clock - l.delay, clock - Lifetime(l.days));
    }
  }

  lemma BeatChanges(s: State, id: string, at: Time, clock: Time, l: Limits)
    requires Timely(s, Action.Heartbeat(id, at), clock, l)
    ensures Changes(s.cells, s.births, OnHeartbeat(s, id, at).cells, clock - l.delay, clock - Lifetime(l.days))
  {
    if id in s.cells && s.cells[id].row.status == Running {
      var row := s.cells[id].row.(lastHeartbeatAt := Some(at));
      RewriteChanges(s.cells, s.births, id, row, clock - l.delay, clock - Lifetime(l.days));
    }
  }

  lemma InsertChanges(s: State, run: TaskRun, since: Time, cutoff: Time)
    requires CellsOk(s.cells, s.births) && since <= run.startedAt
    ensures Changes(s.cells, s.births, OnCreate(s, run).cells, since, cutoff)
  {
  }

  lemma DeleteChanges(s: State, cutoff: Time, since: Time, latest: Time)
    requires cutoff <= latest
    ensures Changes(s.cells, s.births, OnClean(s, cutoff).cells, since, latest)
  {
  }

  lemma StepChanges(s: State, a: Action, clock: Time, l: Limits)
    requires Inv(s) && Timely(s, a, clock, l)
    ensures Changes(s.cells, s.births, Next(s, a).cells, clock - l.delay, clock - Lifetime(l.days))
  {
    match a
    case Create(run) => InsertChanges(s, run, clock - l.delay, clock - Lifetime(l.days));
    case Heartbeat(id, at) => BeatChanges(s, id, at, clock, l);
    case FinishWrite(call) => ReportChanges(s, call, clock, l);
    case SweepNext(sweep) => SweepChanges(s, sweep, clock, l);
    case Clean(cutoff) => DeleteChanges(s, cutoff, clock - l.delay, clock - Lifetime(l.days));
    case _ => OtherStepsKeepCells(s, a);
  }

  // ---------- an incarnation observed at some moment ----------

  // It is still there, and has not ended before the floor; or it is gone, which
  // takes a lifetime from its end.
  ghost predicate Lasts(cells: Cells, id: string, birth: nat, floor: Time, clock: Time, l: Limits) {
    if id in cells && cells[id].birth == birth then
      cells[id].row.status == Running || (cells[id].row.finishedAt.Some? && floor <= cells[id].row.finishedAt.value)
    else
      floor < clock - Lifetime(l.days)
  }

  lemma LastsOn(cells: Cells, births: nat, cells': Cells, id: string, birth: nat, floor: Time, clock: Time, l: Limits)
    requires Lasts(cells, id, birth, floor, clock, l) && birth < births && floor <= clock - l.delay
    requires Changes(cells, births, cells', clock - l.delay, clock - Lifetime(l.days))
    requires forall id :: id in cells && cells[id].row.status == Running ==> cells[id].row.finishedAt == None
    ensures Lasts(cells', id, birth, floor, clock, l)
  {
  }

  ghost predicate ScanTimed(scan: Scan, cells: Cells, clock: Time, l: Limits) {
    && scan.now <= clock
    && forall id :: id in scan.seen && scan.seen[id].row.status == Running ==>
         Lasts(cells, id, scan.seen[id].birth, scan.now - l.delay, clock, l)
  }

  ghost predicate ScansTimed(scans: seq<Scan>, cells: Cells, clock: Time, l: Limits) {
    forall p :: 0 <= p < |scans| ==> ScanTimed(scans[p], cells, clock, l)
  }

  // No end of the incarnation that a Finish read comes before this.
  function Floor(c: Call, l: Limits): Time {
    if c.ended.Some? && c.ended.value < c.at - l.delay then c.ended.value else c.at - l.delay
  }

  ghost predicate CallsTimed(calls: map<nat, Call>, cells: Cells, clock: Time, l: Limits) {
    forall n :: n in calls ==> calls[n].at <= clock && Lasts(cells, calls[n].id, calls[n].birth, Floor(calls[n], l), clock, l)
  }

  // A Finish or a sweep lands on another incarnation only if retention is
  // short against the delay, or the row read had ended long before.
  ghost predicate LandingTimed(d: Landing, l: Limits) {
    d.after.Some? && d.after.value.birth != d.call.birth ==> Floor(d.call, l) + Lifetime(l.days) < d.call.at + l.delay
  }

  ghost predicate LandingsTimed(landings: seq<Landing>, l: Limits) {
    forall i :: 0 <= i < |landings| ==> LandingTimed(landings[i], l)
  }

  ghost predicate OfSeen(scans: seq<Scan>, h: Hit) {
    h.sweep < |scans| && h.id in scans[h.sweep].seen && h.before.birth == scans[h.sweep].seen[h.id].birth
  }

  ghost predicate HitsTimed(hits: seq<Hit>, scans: seq<Scan>, l: Limits) {
    forall h :: 0 <= h < |hits| ==> OfSeen(scans, hits[h]) || Lifetime(l.days) < 2 * l.delay
  }

  // ---------- rows a sweep still has to see to ----------

  // A TTL the duration arithmetic represents exactly.
  predicate Watched(r: TaskRun) {
    Candidate(r) && -MAX_SECONDS <= r.ttlSeconds.value <= MAX_SECONDS
  }

  function Bound(r: TaskRun, l: Limits): int
    requires r.ttlSeconds.Some?
  {
    if r.ttlSeconds.value * SECOND < l.delay then l.delay else r.ttlSeconds.value * SECOND
  }

  ghost predicate Seen(r: TaskRun, now: Time, l: Limits)
    requires r.ttlSeconds.Some?
  {
    now - Reference(r) <= Bound(r, l)
  }

  ghost predicate InHand(scan: Scan, id: string, cell: Cell) {
    && id in scan.todo && id in scan.seen && scan.seen[id].birth == cell.birth
    && Reference(scan.seen[id].row) == Reference(cell.row) && scan.seen[id].row.ttlSeconds == cell.row.ttlSeconds
  }

  ghost predicate Covered(scan: Scan, cells: Cells, l: Limits) {
    forall id :: id in cells && Watched(cells[id].row) ==> InHand(scan, id, cells[id]) || Seen(cells[id].row, scan.now, l)
  }

  ghost predicate AllCovered(scans: seq<Scan>, cells: Cells, l: Limits) {
    forall p :: 0 <= p < |scans| ==> Covered(scans[p], cells, l)
  }

  ghost predicate DoneCovered(done: Option<Time>, cells: Cells, clock: Time, l: Limits) {
    done.Some? ==> done.value <= clock && forall id :: id in cells && Watched(cells[id].row) ==> Seen(cells[id].row, done.value, l)
  }

  ghost predicate TimedInv(t: Timed, l: Limits) {
    && Inv(t.s)
    && ScansTimed(t.s.scans, t.s.cells, t.clock, l)
    && CallsTimed(t.s.calls, t.s.cells, t.clock, l)
    && LandingsTimed(t.s.landings, l)
    && HitsTimed(t.s.hits, t.s.scans, l)
    && AllCovered(t.s.scans, t.s.cells, l)
    && DoneCovered(t.done, t.s.cells, t.clock, l)
  }

  // ---------- every step keeps it ----------

  lemma ScansCarriedOver(t: Timed, a: Action, l: Limits)
    requires TimedInv(t, l) && 0 <= l.delay && Timely(t.s, a, t.clock, l)
    ensures ScansTimed(t.s.scans, Next(t.s, a).cells, t.clock, l)
  {
    var s, cells := t.s, Next(t.s, a).cells;
    StepChanges(s, a, t.clock, l);
    forall p | 0 <= p < |s.scans| ensures ScanTimed(s.scans[p], cells, t.clock, l) {
      var scan := s.scans[p];
      assert ScanTimed(scan, s.cells, t.clock, l) && ScanOk(scan, s.cells, s.births);
      forall id | id in scan.seen && scan.seen[id].row.status == Running
        ensures Lasts(cells, id, scan.seen[id].birth, scan.now - l.delay, t.clock, l)
      {
        LastsOn(s.cells, s.births, cells, id, scan.seen[id].birth, scan.now - l.delay, t.clock, l);
      }
    }
  }

  lemma CallsCarriedOver(t: Timed, a: Action, l: Limits)
    requires TimedInv(t, l) && 0 <= l.delay && Timely(t.s, a, t.clock, l)
    ensures CallsTimed(t.s.calls, Next(t.s, a).cells, t.clock, l)
  {
    var s, cells := t.s, Next(t.s, a).cells;
    StepChanges(s, a, t.clock, l);
    forall n | n in s.calls ensures Lasts(cells, s.calls[n].id, s.calls[n].birth, Floor(s.calls[n], l), t.clock, l) {
      LastsOn(s.cells, s.births, cells, s.calls[n].id, s.calls[n].birth, Floor(s.calls[n], l), t.clock, l);
    }
  }

  lemma CoverCarriedOver(t: Timed, a: Action, l: Limits)
    requires TimedInv(t, l) && 0 <= l.delay && Timely(t.s, a, t.clock, l)
    ensures AllCovered(t.s.scans, Next(t.s, a).cells, l)
    ensures DoneCovered(t.done, Next(t.s, a).cells, t.clock, l)
  {
    var s, s' := t.s, Next(t.s, a);
    StepChanges(s, a, t.clock, l);
    forall p | 0 <= p < |s.scans| ensures Covered(s.scans[p], s'.cells, l) {
      assert ScanTimed(s.scans[p], s.cells, t.clock, l) && Covered(s.scans[p], s.cells, l);
    }
  }

  lemma StruckIsSeen(scan: Scan, cells: Cells, id: string, clock: Time, l: Limits)
    requires ScanTimed(scan, cells, clock, l) && Within(scan.now, clock, l)
    requires id in scan.seen && scan.seen[id].row.status == Running && id in cells
    ensures cells[id].birth == scan.seen[id].birth || Lifetime(l.days) < 2 * l.delay
  {
    assert Lasts(cells, id, scan.seen[id].birth, scan.now - l.delay, clock, l);
  }

  lemma SeenOn(hits: seq<Hit>, scans: seq<Scan>, scans': seq<Scan>, l: Limits)
    requires HitsTimed(hits, scans, l) && |scans| <= |scans'|
    requires forall p :: 0 <= p < |scans| ==> scans'[p].seen == scans[p].seen
    ensures HitsTimed(hits, scans', l)
  {
    forall h | 0 <= h < |hits| ensures OfSeen(scans', hits[h]) || Lifetime(l.days) < 2 * l.delay {
      assert OfSeen(scans, hits[h]) || Lifetime(l.days) < 2 * l.delay;
    }
  }

  lemma BeginKeeps(t: Timed, now: Time, order: seq<string>, l: Limits)
    requires TimedInv(t, l) && 0 <= l.delay && Within(now, t.clock, l)
    ensures var s' := OnSweepRead(t.s, now, order);
            && ScansTimed(s'.scans, s'.cells, t.clock, l) && HitsTimed(s'.hits, s'.scans, l) && AllCovered(s'.scans, s'.cells, l)
  {
    var s, s' := t.s, OnSweepRead(t.s, now, order);
    if Orders(order, s.cells) {
      var scan := Scan(now, s.cells, s.births, order);
      assert ScanTimed(scan, s.cells, t.clock, l) && Covered(scan, s.cells, l);
      SeenOn(s.hits, s.scans, s'.scans, l);
    }
  }

  lemma ReadKeeps(t: Timed, id: string, status: Status, message: string, at: Time, l: Limits)
    requires TimedInv(t, l) && 0 <= l.delay && Within(at, t.clock, l)
    ensures var s' := OnFinishRead(t.s, id, status, message, at); CallsTimed(s'.calls, s'.cells, t.clock, l)
  {
  }

  lemma LandKeeps(t: Timed, n: nat, l: Limits)
    requires TimedInv(t, l) && (n in t.s.calls ==> Within(t.s.calls[n].at, t.clock, l))
    ensures LandingsTimed(OnFinishWrite(t.s, n).landings, l)
  {
    if n in t.s.calls {
      assert Lasts(t.s.cells, t.s.calls[n].id, t.s.calls[n].birth, Floor(t.s.calls[n], l), t.clock, l);
    }
  }

  lemma StrikeKeeps(t: Timed, sweep: nat, l: Limits)
    requires TimedInv(t, l) && (sweep < |t.s.scans| ==> Within(t.s.scans[sweep].now, t.clock, l))
    ensures HitsTimed(OnSweepNext(t.s, sweep).hits, OnSweepNext(t.s, sweep).scans, l)
  {
    var s := t.s;
    if Ledger.Is(s.ledger, sweep, Ledger.Scanning) && sweep < |s.scans| && s.scans[sweep].todo != [] {
      var scan, id, mid := s.scans[sweep], s.scans[sweep].todo[0], Advanced(s, sweep);
      SeenOn(s.hits, s.scans, mid.scans, l);
      if id in scan.seen && Overdue(scan.seen[id].row, scan.now) && id in s.cells && s.cells[id].row.status == Running {
        StruckIsSeen(scan, s.cells, id, t.clock, l);
        assert OfSeen(mid.scans, Hit(sweep, id, s.cells[id])) || Lifetime(l.days) < 2 * l.delay;
      }
    }
  }

  lemma SurvivorIsFresh(r: TaskRun, now: Time)
    requires Watched(r) && !Overdue(r, now)
    ensures now - Reference(r) <= r.ttlSeconds.value * SECOND
  {
    OverdueMeans(r, now);
  }

  // The candidate done with is timed out, or was not overdue in the snapshot.
  lemma TriedIsNotOverdue(s: State, sweep: nat)
    requires Inv(s) && Ledger.Is(s.ledger, sweep, Ledger.Scanning) && sweep < |s.scans| && s.scans[sweep].todo != []
    ensures var s', scan, id := OnSweepNext(s, sweep), s.scans[sweep], s.scans[sweep].todo[0];
            id in s'.cells && s'.cells[id].row.status == Running && InHand(scan, id, s'.cells[id]) ==>
              Candidate(scan.seen[id].row) && !Overdue(scan.seen[id].row, scan.now)
  {
    assert ScanOk(s.scans[sweep], s.cells, s.births);
  }

  lemma PoppedCovers(scan: Scan, cells: Cells, l: Limits)
    requires scan.todo != [] && Covered(scan, cells, l)
    requires var id := scan.todo[0];
             id in cells && cells[id].row.status == Running && InHand(scan, id, cells[id]) ==>
               Candidate(scan.seen[id].row) && !Overdue(scan.seen[id].row, scan.now)
    ensures Covered(scan.(todo := scan.todo[1..]), cells, l)
  {
    var id := scan.todo[0];
    if id in cells && Watched(cells[id].row) && InHand(scan, id, cells[id]) {
      SurvivorIsFresh(scan.seen[id].row, scan.now);
    }
    assert forall other :: other in scan.todo ==> other == id || other in scan.todo[1..];
  }

  lemma ScanReplaced(scans: seq<Scan>, sweep: nat, scan: Scan, cells: Cells, clock: Time, l: Limits)
    requires sweep < |scans| && ScansTimed(scans, cells, clock, l) && AllCovered(scans, cells, l)
    requires ScanTimed(scan, cells, clock, l) && Covered(scan, cells, l)
    ensures ScansTimed(scans[sweep := scan], cells, clock, l) && AllCovered(scans[sweep := scan], cells, l)
  {
  }

  lemma AdvanceCovers(s: State, sweep: nat, clock: Time, l: Limits)
    requires Inv(s)
    requires ScansTimed(s.scans, OnSweepNext(s, sweep).cells, clock, l)
    requires AllCovered(s.scans, OnSweepNext(s, sweep).cells, l)
    ensures ScansTimed(OnSweepNext(s, sweep).scans, OnSweepNext(s, sweep).cells, clock, l)
    ensures AllCovered(OnSweepNext(s, sweep).scans, OnSweepNext(s, sweep).cells, l)
  {
    if Ledger.Is(s.ledger, sweep, Ledger.Scanning) && sweep < |s.scans| && s.scans[sweep].todo != [] {
      var scan, cells := s.scans[sweep], OnSweepNext(s, sweep).cells;
      TriedIsNotOverdue(s, sweep);
      assert ScanTimed(scan, cells, clock, l) && Covered(scan, cells, l);
      PoppedCovers(scan, cells, l);
      ScanReplaced(s.scans, sweep, scan.(todo := scan.todo[1..]), cells, clock, l);
    }
  }

  lemma CloseCovers(t: Timed, sweep: nat, l: Limits)
    requires TimedInv(t, l) && Closes(t.s, SweepClose(sweep))
    ensures DoneCovered(Some(t.s.scans[sweep].now), t.s.cells, t.clock, l)
  {
    assert Covered(t.s.scans[sweep], t.s.cells, l) && ScanTimed(t.s.scans[sweep], t.s.cells, t.clock, l);
  }

  lemma OtherStepsKeepTimes(s: State, a: Action)
    ensures !(a.FinishRead? || a.FinishWrite? || a.FinishFail?) ==> Next(s, a).calls == s.calls
    ensures !a.FinishWrite? ==> Next(s, a).landings == s.landings
    ensures !(a.SweepRead? || a.SweepNext?) ==> Next(s, a).scans == s.scans
    ensures !a.SweepNext? ==> Next(s, a).hits == s.hits
    ensures a.FinishWrite? || a.FinishFail? ==> forall n :: n in Next(s, a).calls ==> n in s.calls && Next(s, a).calls[n] == s.calls[n]
  {
  }

  lemma DoKeeps(t: Timed, a: Action, l: Limits)
    requires TimedInv(t, l) && 0 <= l.delay && Timely(t.s, a, t.clock, l)
    ensures TimedInv(Taken(t, Do(a), l), l)
  {
    StepKeeps(t.s, a);
    ScansCarriedOver(t, a, l);
    CallsCarriedOver(t, a, l);
    CoverCarriedOver(t, a, l);
    OtherStepsKeepTimes(t.s, a);
    if a.SweepRead? {
      BeginKeeps(t, a.now, a.order, l);
    } else if a.FinishRead? {
      ReadKeeps(t, a.id, a.status, a.message, a.at, l);
    } else if a.FinishWrite? {
      LandKeeps(t, a.call, l);
    } else if a.SweepNext? {
      StrikeKeeps(t, a.sweep, l);
      AdvanceCovers(t.s, a.sweep, t.clock, l);
    } else if Closes(t.s, a) {
      CloseCovers(t, a.sweep, l);
    }
  }

  lemma WaitKeeps(t: Timed, until: Time, l: Limits)
    requires TimedInv(t, l) && t.clock <= until
    ensures TimedInv(t.(clock := until), l)
  {
    forall p | 0 <= p < |t.s.scans| ensures ScanTimed(t.s.scans[p], t.s.cells, until, l) {
      assert ScanTimed(t.s.scans[p], t.s.cells, t.clock, l);
    }
  }

  lemma {:induction false} TimedRunKeeps(start: Time, steps: seq<Step>, l: Limits)
    requires 0 <= l.delay
    ensures TimedInv(TimedRun(start, steps, l), l)
  {
    if steps == [] {
      Ledger.EmptyValid();
    } else {
      var t, step := TimedRun(start, steps[..|steps| - 1], l), steps[|steps| - 1];
      TimedRunKeeps(start, steps[..|steps| - 1], l);
      match step
      case Wait(until) => if t.clock <= until { WaitKeeps(t, until, l); }
      case Do(a) => if Timely(t.s, a, t.clock, l) { DoKeeps(t, a, l); }
    }
  }

  lemma ReachableKeeps(t: Timed, l: Limits)
    requires 0 <= l.delay && Reachable(t, l)
    ensures TimedInv(t, l)
  {
    var start: Time, steps: seq<Step> :| TimedRun(start, steps, l) == t;
    TimedRunKeeps(start, steps, l);
  }
}
