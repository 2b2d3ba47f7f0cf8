/**
  Rows of the task_runs table and what each SQL statement on them means.

  A null text column reads back as the empty string, so the two are not told
  apart here.
 */
module TaskRuns {
  import opened Options
  import opened Clock

  // Missed never reaches the table: it only labels synthetic alert records.
  datatype Status = Running | Success | Failed | Timeout | Missed

  datatype TaskRun = TaskRun(
    runId: string,
    taskName: string,
    source: string,
    status: Status,
    startedAt: Time,
    finishedAt: Option<Time>,
    lastHeartbeatAt: Option<Time>,
    ttlSeconds: Option<int64>,
    durationMs: Option<int64>,
    errorMessage: string)

  // The table, by primary key.
  type Table = map<string, TaskRun>

  const TIMEOUT_MESSAGE := "task exceeded TTL without heartbeat or completion"

  predicate Keyed(t: Table) {
    forall id :: id in t ==> t[id].runId == id
  }

  // ---------- single rows ----------

  // The record that the start handler builds.
  function NewRun(runId: string, taskName: string, source: string, startedAt: Time, ttlSeconds: Option<int64>): TaskRun {
    TaskRun(runId, taskName, source, Running, startedAt, None, None, ttlSeconds, None, "")
  }

  // A record as the start handler builds it: running, with nothing of its end.
  predicate IsNew(run: TaskRun) {
    && run.status == Running && run.finishedAt == None && run.lastHeartbeatAt == None
    && run.durationMs == None && run.errorMessage == ""
  }

  // The row that INSERT writes for a run.
  function Inserted(run: TaskRun): TaskRun {
    run.(finishedAt := None, lastHeartbeatAt := Some(run.startedAt), durationMs := None, errorMessage := "")
  }

  function Finished(r: TaskRun, status: Status, message: string, at: Time, started: Time): TaskRun {
    r.(status := status, finishedAt := Some(at), durationMs := Some(Milliseconds(Sub(at, started))), errorMessage := message)
  }

  // The last sign of life: a heartbeat, or the start.
  function Reference(r: TaskRun): Time {
    match r.lastHeartbeatAt
    case Some(at) => at
    case None => r.startedAt
  }

  predicate Candidate(r: TaskRun) {
    r.status == Running && r.ttlSeconds.Some?
  }

  predicate Expired(reference: Time, ttl: int64, now: Time) {
    Sub(now, reference) > Seconds(ttl)
  }

  predicate Overdue(r: TaskRun, now: Time) {
    Candidate(r) && Expired(Reference(r), r.ttlSeconds.value, now)
  }

  function TimedOut(r: TaskRun, reference: Time, now: Time): TaskRun {
    r.(status := Timeout, finishedAt := Some(now), durationMs := Some(Milliseconds(Sub(now, reference))), errorMessage := TIMEOUT_MESSAGE)
  }

  // A row that handlers and sweeps can have produced.
  predicate Lawful(r: TaskRun) {
    && r.status != Missed
    && (r.status == Running <==> r.finishedAt == None)
    && (r.status == Running <==> r.durationMs == None)
  }

  // How far a run has got; an outcome reported by the worker ranks highest.
  function Rank(s: Status): nat {
    match s
    case Running => 0
    case Timeout => 1
    case _ => 2
  }

  // ---------- whole-table statements ----------

  function HeartbeatTable(t: Table, id: string, at: Time): Table {
    if id in t && t[id].status == Running then t[id := t[id].(lastHeartbeatAt := Some(at))] else t
  }

  function FinishTable(t: Table, id: string, status: Status, message: string, at: Time): Table {
    if id in t then t[id := Finished(t[id], status, message, at, t[id].startedAt)] else t
  }

  // The sweep's guarded update of one candidate.
  function TimeoutTable(t: Table, id: string, reference: Time, now: Time): Table {
    if id in t && t[id].status == Running then t[id := TimedOut(t[id], reference, now)] else t
  }

  ghost function OverdueIds(t: Table, now: Time): set<string> {
    set id | id in t && Overdue(t[id], now)
  }

  // One simultaneous pass that times out exactly the given rows.
  ghost function SweepOnly(t: Table, now: Time, ids: set<string>): Table {
    map id | id in t :: if id in ids then TimedOut(t[id], Reference(t[id]), now) else t[id]
  }

  ghost function SweepTable(t: Table, now: Time): Table {
    SweepOnly(t, now, OverdueIds(t, now))
  }

  predicate Stale(r: TaskRun, cutoff: Time) {
    r.finishedAt.Some? && r.finishedAt.value < cutoff
  }

  function Retained(t: Table, cutoff: Time): Table {
    map id | id in t && !Stale(t[id], cutoff) :: t[id]
  }

  // The sequence holds the current row of each of the given ids, once.
  ghost predicate Lists(rs: seq<TaskRun>, t: Table, ids: set<string>) {
    && (forall i :: 0 <= i < |rs| ==> rs[i].runId in ids && rs[i].runId in t && t[rs[i].runId] == rs[i])
    && (forall i, j :: 0 <= i < j < |rs| ==> rs[i].runId != rs[j].runId)
    && (forall id :: id in ids ==> exists i :: 0 <= i < |rs| && rs[i].runId == id)
  }

  // ---------- laws of the sweep ----------

  /** Overdue means running, and longer without a sign of life than the TTL. */
  lemma OverdueMeans(r: TaskRun, now: Time)
    requires r.ttlSeconds.Some? ==> -9_223_372_036 <= r.ttlSeconds.value <= 9_223_372_036
    ensures var heard := if r.lastHeartbeatAt.Some? then r.lastHeartbeatAt.value else r.startedAt;
            Overdue(r, now) <==>
              r.status == Running && r.ttlSeconds.Some? && now - heard > r.ttlSeconds.value * 1_000_000_000
  {
    if r.ttlSeconds.Some? {
      TtlTestExact(r.ttlSeconds.value);
      assert Sub(now, Reference(r)) <= Seconds(r.ttlSeconds.value) <==> now - Reference(r) <= r.ttlSeconds.value * SECOND;
    }
  }

  /**
    A timed-out row ended when the sweep ran, with the time since its last sign
    of life, in whole milliseconds, as its duration: at least its TTL. A
    finished row ended when it was reported, with the time since its start.
   */
  lemma DurationsMeasure(r: TaskRun, now: Time, status: Status, message: string)
    requires var heard := if r.lastHeartbeatAt.Some? then r.lastHeartbeatAt.value else r.startedAt;
             0 <= now - heard <= MAX64 && 0 <= now - r.startedAt <= MAX64
    ensures var heard := if r.lastHeartbeatAt.Some? then r.lastHeartbeatAt.value else r.startedAt;
            var row := TimedOut(r, Reference(r), now); var ms := row.durationMs.value;
            && row == r.(status := Timeout, finishedAt := Some(now), durationMs := Some(ms),
                         errorMessage := "task exceeded TTL without heartbeat or completion")
            && heard + ms * 1_000_000 <= now < heard + (ms + 1) * 1_000_000
            && (Overdue(r, now) && 0 <= r.ttlSeconds.value <= MAX_SECONDS ==> r.ttlSeconds.value * 1000 <= ms)
    ensures var row := Finished(r, status, message, now, r.startedAt); var ms := row.durationMs.value;
            && row == r.(status := status, finishedAt := Some(now), durationMs := Some(ms), errorMessage := message)
            && r.startedAt + ms * 1_000_000 <= now < r.startedAt + (ms + 1) * 1_000_000
  {
    MillisecondsTruncates(Sub(now, Reference(r)));
    MillisecondsTruncates(Sub(now, r.startedAt));
    if Overdue(r, now) && 0 <= r.ttlSeconds.value <= MAX_SECONDS {
      OverdueMeans(r, now);
    }
  }

  /** Once overdue, a row stays overdue until it is written again. */
  lemma OverdueMonotone(r: TaskRun, now: Time, later: Time)
    requires Overdue(r, now) && now <= later
    ensures Overdue(r, later)
  {
    assert Sub(now, Reference(r)) <= Sub(later, Reference(r));
  }

  /** A repeat at the same time, or any earlier one, finds nothing. */
  lemma SweepAgainIsEmpty(t: Table, now: Time, again: Time)
    requires again <= now
    ensures OverdueIds(SweepTable(t, now), again) == {}
    ensures SweepTable(SweepTable(t, now), again) == SweepTable(t, now)
  {
    var swept := SweepTable(t, now);
    forall id | id in swept ensures !Overdue(swept[id], again) {
      if Overdue(t[id], again) {
        OverdueMonotone(t[id], again, now);
      }
    }
  }

  ghost function SweepAll(t: Table, times: seq<Time>): Table {
    if times == [] then t else SweepTable(SweepAll(t, times[..|times| - 1]), times[|times| - 1])
  }

  ghost predicate Sorted(times: seq<Time>) {
    forall i, j :: 0 <= i < j < |times| ==> times[i] <= times[j]
  }

  /**
    Uninterrupted sweeps at increasing times time out the rows that a single
    sweep at the last time would, and touch no other row.
   */
  lemma {:induction false} SweepsCollapse(t: Table, times: seq<Time>)
    requires times != [] && Sorted(times)
    ensures var swept := SweepAll(t, times);
            var ids := OverdueIds(t, times[|times| - 1]);
            && swept.Keys == t.Keys
            && (forall id :: id in ids ==> t[id].status == Running && swept[id].status == Timeout)
            && (forall id :: id in t && id !in ids ==> swept[id] == t[id])
  {
    var last := times[|times| - 1];
    var before := times[..|times| - 1];
    if before == [] {
      assert SweepAll(t, before) == t;
    } else {
      SweepsCollapse(t, before);
      forall id | id in OverdueIds(t, before[|before| - 1]) ensures id in OverdueIds(t, last) {
        OverdueMonotone(t[id], before[|before| - 1], last);
      }
    }
  }

  // ---------- laws of retention ----------

  /** Retention keeps every running row, however old, and every recent one. */
  lemma RetainedExactly(t: Table, cutoff: Time)
    requires forall id :: id in t ==> Lawful(t[id])
    ensures forall id :: id in t && t[id].status == Running ==> id in Retained(t, cutoff)
    ensures forall id :: id in t ==>
      (id !in Retained(t, cutoff) <==>
         t[id].status != Running && t[id].finishedAt.Some? && t[id].finishedAt.value < cutoff)
    ensures |Retained(t, cutoff)| + |set id | id in t && Stale(t[id], cutoff)| == |t|
  {
    var kept := Retained(t, cutoff);
    var gone := set id | id in t && Stale(t[id], cutoff);
    assert kept.Keys + gone == t.Keys && kept.Keys !! gone;
    assert |kept.Keys + gone| == |kept.Keys| + |gone|;
  }

  // ---------- operations taken as atomic ----------

  datatype Operation =
    | Start(run: TaskRun)
    | Beat(id: string, at: Time)
    | Report(id: string, status: Status, message: string, at: Time)
    | Sweep(now: Time)
    | Clean(cutoff: Time)
  {
    // What the handlers pass: new runs are running, reports are outcomes.
    predicate FromHandlers() {
      && (Start? ==> IsNew(run))
      && (Report? ==> status == Success || status == Failed)
    }
  }

  ghost function Perform(t: Table, op: Operation): Table {
    match op
    case Start(run) => if run.runId in t then t else t[run.runId := Inserted(run)]
    case Beat(id, at) => HeartbeatTable(t, id, at)
    case Report(id, status, message, at) => FinishTable(t, id, status, message, at)
    case Sweep(now) => SweepTable(t, now)
    case Clean(cutoff) => Retained(t, cutoff)
  }

  ghost predicate AllLawful(t: Table) {
    Keyed(t) && forall id :: id in t ==> Lawful(t[id])
  }

  /** Every operation keeps finished_at null exactly on running rows. */
  lemma PerformLawful(t: Table, op: Operation)
    requires AllLawful(t) && op.FromHandlers()
    ensures AllLawful(Perform(t, op))
  {
  }
}
