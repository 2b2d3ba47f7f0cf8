/**
  One page of the dashboard beside the interleaved task protocol.

  A handler writes a row, re-reads it and publishes what it read, in three
  steps; only a start publishes the record it built. A sweep re-reads each row
  it changed and publishes them all after its last update. Any number of both
  are under way at once, and any step may fail. The page loads some of the rows,
  then subscribes, and from then on receives what fits in its buffer.
 */
module PageProtocol {
  import opened Options
  import opened Clock
  import opened TaskRuns
  import opened Broker
  import D = Dashboards
  import P = TaskProtocol
  import Ledger

  // A handler between its write and the end of its publication.
  datatype Job =
    | Wrote(id: string, kind: EventType)   // its re-read is to come
    | Holding(event: Event, write: int)    // it has the row as that write left it

  datatype State = State(
    server: P.State,
    log: seq<TaskRun>,         // the row that each write left, in order
    jobs: map<nat, Job>,
    accepted: nat,             // handlers' jobs so far
    carried: map<nat, int>,    // the write that a sweep's re-read of a hit saw
    connected: bool,
    buffer: seq<Event>,
    tasks: Table,
    opening: nat,              // writes before the page was loaded
    sent: map<string, int>,    // the write that the page was last sent, for each run
    lost: set<string>,         // runs with a change not sent, or dropped, since
    crossed: set<string>)      // runs whose last write was made while they were busy

  datatype Action =
    | Serve(a: P.Action)
    | Reread(job: nat)
    | RereadFail(job: nat)
    | Send(job: nat)
    | ScheduleAlert(task: TaskRun)
    | Load(ids: set<string>)
    | Connect
    | Deliver

  const INIT := State(P.INIT, [], map[], 0, map[], false, [], map[], 0, map[], {}, {})

  // The last write of a run, or -1.
  function LastWrite(log: seq<TaskRun>, id: string): (w: int)
    ensures -1 <= w < |log|
    ensures 0 <= w ==> log[w].runId == id
    ensures forall k :: w < k < |log| ==> log[k].runId != id
  {
    if log == [] then -1
    else if log[|log| - 1].runId == id then |log| - 1
    else LastWrite(log[..|log| - 1], id)
  }

  // ---------- a run is busy while a call or a sweep has yet to publish it ----------

  function JobId(j: Job): string {
    match j
    case Wrote(id, _) => id
    case Holding(event, _) => event.task.runId
  }

  ghost predicate JobOn(jobs: map<nat, Job>, id: string) {
    exists n :: n in jobs && JobId(jobs[n]) == id
  }

  ghost predicate HitOn(live: map<nat, Ledger.Sweep>, hits: seq<P.Hit>, id: string) {
    exists p, h: nat :: p in live && Ledger.Pending(live[p], h) && h < |hits| && hits[h].id == id
  }

  ghost predicate Busy(s: State, id: string) {
    JobOn(s.jobs, id) || HitOn(s.server.ledger.live, s.server.hits, id)
  }

  // ---------- steps; one that is not possible changes nothing ----------

  ghost function Written(s: State, server: P.State, id: string): State
    requires id in server.cells
  {
    s.(server := server, log := s.log + [server.cells[id].row],
       crossed := if Busy(s, id) then s.crossed + {id} else s.crossed - {id})
  }

  function WithJob(s: State, j: Job): State {
    s.(jobs := s.jobs[s.accepted := j], accepted := s.accepted + 1)
  }

  ghost function OnCreate(s: State, run: TaskRun): State {
    if IsNew(run) && run.runId !in s.server.cells then
      WithJob(Written(s, P.OnCreate(s.server, run), run.runId),
              Holding(Event(Started, run.(lastHeartbeatAt := Some(run.startedAt))), |s.log|))
    else s
  }

  ghost function OnHeartbeat(s: State, id: string, at: Time): State {
    if id in s.server.cells && s.server.cells[id].row.status == Running then
      WithJob(Written(s, P.OnHeartbeat(s.server, id, at), id), Wrote(id, Heartbeat))
    else s
  }

  ghost function OnFinishWrite(s: State, n: nat): State {
    var server := P.OnFinishWrite(s.server, n);
    if n in s.server.calls && s.server.calls[n].id in s.server.cells then
      var c := s.server.calls[n];
      WithJob(Written(s, server, c.id), Wrote(c.id, if c.status == Success then Succeeded else Failure))
    else s.(server := server)
  }

  ghost function OnSweepNext(s: State, sweep: nat): State {
    var server := P.OnSweepNext(s.server, sweep);
    if |server.hits| > |s.server.hits| && server.hits[|server.hits| - 1].id in server.cells then
      Written(s, server, server.hits[|server.hits| - 1].id)
    else s.(server := server)
  }

  ghost function OnSweepGet(s: State, sweep: nat): State {
    var server, l := P.OnSweepGet(s.server, sweep), s.server.ledger;
    if Ledger.Rereads(l, sweep) && l.live[sweep].phase.hit < |s.server.hits| then
      var hit := l.live[sweep].phase.hit;
      var id := s.server.hits[hit].id;
      if id in s.server.cells then s.(server := server, carried := s.carried[hit := LastWrite(s.log, id)])
      else Dropped(s, server, sweep)
    else s
  }

  ghost function OnSweepFail(s: State, sweep: nat): State {
    var l := s.server.ledger;
    if Ledger.Is(l, sweep, Ledger.Scanning) || Ledger.Rereads(l, sweep) then
      Dropped(s, P.OnSweepFail(s.server, sweep), sweep)
    else s
  }

  // The sweep ends without publishing what it has changed.
  ghost function Dropped(s: State, server: P.State, sweep: nat): State
    requires sweep in s.server.ledger.live
  {
    var hits, sweepState := s.server.hits, s.server.ledger.live[sweep];
    s.(server := server, lost := s.lost + set h: nat | h < |hits| && Ledger.Pending(sweepState, h) :: hits[h].id)
  }

  ghost function OnPublish(s: State, sweep: nat): State {
    var server, l := P.OnPublish(s.server, sweep), s.server.ledger;
    if Ledger.Is(l, sweep, Ledger.Publishing) && l.live[sweep].listed != [] then
      var hit := l.live[sweep].listed[0];
      if hit in s.server.reread && hit in s.carried then
        Sent(s.(server := server), Event(TimedOutEvent, s.server.reread[hit].row), s.carried[hit])
      else s
    else s.(server := server)
  }

  // Without a subscription, or with a full buffer, the page misses the event.
  function Sent(s: State, e: Event, write: int): State {
    if s.connected && |s.buffer| < CAPACITY then
      s.(buffer := Offer(s.buffer, e), sent := s.sent[e.task.runId := write], lost := s.lost - {e.task.runId})
    else
      s.(lost := s.lost + {e.task.runId})
  }

  ghost function OnServe(s: State, a: P.Action): State {
    match a
    case Create(run) => OnCreate(s, run)
    case Heartbeat(id, at) => OnHeartbeat(s, id, at)
    case FinishWrite(n) => OnFinishWrite(s, n)
    case SweepNext(sweep) => OnSweepNext(s, sweep)
    case SweepGet(sweep) => OnSweepGet(s, sweep)
    case SweepFail(sweep) => OnSweepFail(s, sweep)
    case Publish(sweep) => OnPublish(s, sweep)
    case _ => s.(server := P.Next(s.server, a))
  }

  // A row gone by the re-read is an error, as any other.
  function OnReread(s: State, n: nat): State {
    if n in s.jobs && s.jobs[n].Wrote? && s.jobs[n].id in s.server.cells then
      var row := s.server.cells[s.jobs[n].id].row;
      s.(jobs := s.jobs[n := Holding(Event(s.jobs[n].kind, row), LastWrite(s.log, s.jobs[n].id))])
    else OnRereadFail(s, n)
  }

  function OnRereadFail(s: State, n: nat): State {
    if n in s.jobs && s.jobs[n].Wrote? then s.(jobs := s.jobs - {n}, lost := s.lost + {s.jobs[n].id}) else s
  }

  function OnSend(s: State, n: nat): State {
    if n in s.jobs && s.jobs[n].Holding? then
      Sent(s.(jobs := s.jobs - {n}), s.jobs[n].event, s.jobs[n].write)
    else s
  }

  function OnScheduleAlert(s: State, task: TaskRun): State {
    if s.connected then s.(buffer := Offer(s.buffer, Event(ScheduleMissed, task))) else s
  }

  // A page is opened: it starts empty, and loads some of the rows.
  function OnLoad(s: State, ids: set<string>): State {
    s.(tasks := map id | id in ids && id in s.server.cells :: s.server.cells[id].row,
       sent := map id | id in ids && id in s.server.cells :: LastWrite(s.log, id),
       connected := false, buffer := [], lost := {}, opening := |s.log|)
  }

  function OnDeliver(s: State): State {
    if s.buffer == [] then s else s.(tasks := D.Absorb(s.tasks, s.buffer[0]), buffer := s.buffer[1..])
  }

  ghost function Next(s: State, a: Action): State {
    match a
    case Serve(b) => OnServe(s, b)
    case Reread(n) => OnReread(s, n)
    case RereadFail(n) => OnRereadFail(s, n)
    case Send(n) => OnSend(s, n)
    case ScheduleAlert(task) => OnScheduleAlert(s, task)
    case Load(ids) => OnLoad(s, ids)
    case Connect => s.(connected := true)
    case Deliver => OnDeliver(s)
  }

  ghost function Run(actions: seq<Action>): State {
    if actions == [] then INIT else Next(Run(actions[..|actions| - 1]), actions[|actions| - 1])
  }

  // ---------- the invariant: what is carried where ----------

  // The last write left the row that is there; what is deleted was not running.
  ghost predicate Logged(cells: P.Cells, log: seq<TaskRun>) {
    forall id :: var w := LastWrite(log, id);
      if id in cells then 0 <= w && log[w] == cells[id].row else w < 0 || log[w].status != Running
  }

  ghost predicate Shows(row: TaskRun, write: int, log: seq<TaskRun>) {
    0 <= write < |log| && log[write] == row
  }

  ghost predicate JobOk(j: Job, log: seq<TaskRun>) {
    match j
    case Wrote(_, kind) => kind != ScheduleMissed
    case Holding(event, write) => event.kind != ScheduleMissed && Shows(event.task, write, log)
  }

  ghost predicate JobsOk(jobs: map<nat, Job>, accepted: nat, log: seq<TaskRun>) {
    forall n :: n in jobs ==> n < accepted && JobOk(jobs[n], log)
  }

  ghost predicate CarriedOk(carried: map<nat, int>, reread: map<nat, P.Cell>, hits: seq<P.Hit>, log: seq<TaskRun>) {
    forall h :: h in reread ==>
      && h in carried && Shows(reread[h].row, carried[h], log)
      && h < |hits| && reread[h].row.runId == hits[h].id
  }

  // With its buffered events applied, the page has each run as last sent.
  ghost predicate PageOk(view: Table, sent: map<string, int>, log: seq<TaskRun>) {
    && view.Keys == sent.Keys
    && forall id :: id in sent ==> Shows(view[id], sent[id], log) && view[id].runId == id
  }

  function View(s: State): Table {
    D.AbsorbAll(s.tasks, s.buffer)
  }

  // ---------- the invariant: who is up to date ----------

  // Whatever is on its way for a run has been read after the given write.
  ghost predicate Flying(jobs: map<nat, Job>, live: map<nat, Ledger.Sweep>, hits: seq<P.Hit>, carried: map<nat, int>,
                         id: string, w: int)
  {
    && (forall n :: n in jobs && jobs[n].Holding? && JobId(jobs[n]) == id ==> jobs[n].write == w)
    && (forall p, h :: p in live && h in live[p].listed && h in carried && h < |hits| && hits[h].id == id ==> carried[h] == w)
  }

  // The page has it as the given write left it, or it is older than the page.
  ghost predicate UpToDate(sent: map<string, int>, opening: nat, id: string, w: int) {
    if id in sent then sent[id] == w else w < opening
  }

  ghost predicate FreshOn(s: State, id: string) {
    var w := LastWrite(s.log, id);
    || id in s.crossed
    || w < 0
    || (&& Flying(s.jobs, s.server.ledger.live, s.server.hits, s.carried, id, w)
        && (UpToDate(s.sent, s.opening, id, w) || id in s.lost || Busy(s, id)))
  }

  ghost predicate Sound(s: State) {
    && P.Inv(s.server)
    && Logged(s.server.cells, s.log)
    && JobsOk(s.jobs, s.accepted, s.log)
    && CarriedOk(s.carried, s.server.reread, s.server.hits, s.log)
    && PageOk(View(s), s.sent, s.log) && (!s.connected ==> s.buffer == []) && s.opening <= |s.log|
  }

  ghost predicate Inv(s: State) {
    Sound(s) && forall id :: FreshOn(s, id)
  }

  // ---------- every step keeps it: writes ----------

  lemma Appended(log: seq<TaskRun>, row: TaskRun)
    ensures forall id :: LastWrite(log + [row], id) == if id == row.runId then |log| else LastWrite(log, id)
  {
    assert (log + [row])[..|log|] == log;
  }

  // The rows after a write of one of them.
  ghost predicate Rewrites(cells: P.Cells, cells': P.Cells, id: string) {
    && id in cells' && cells'[id].row.runId == id
    && cells'.Keys == cells.Keys + {id}
    && forall other :: other in cells && other != id ==> cells'[other] == cells[other]
  }

  lemma LoggedGrows(cells: P.Cells, log: seq<TaskRun>, cells': P.Cells, id: string)
    requires Logged(cells, log) && Rewrites(cells, cells', id)
    ensures Logged(cells', log + [cells'[id].row])
  {
    Appended(log, cells'[id].row);
    forall other ensures var w := LastWrite(log + [cells'[id].row], other);
      if other in cells' then 0 <= w && (log + [cells'[id].row])[w] == cells'[other].row
      else w < 0 || (log + [cells'[id].row])[w].status != Running
    {
      assert other in cells ==> LastWrite(log, other) >= 0;
    }
  }

  lemma ShownOn(jobs: map<nat, Job>, accepted: nat, carried: map<nat, int>, reread: map<nat, P.Cell>,
                hits: seq<P.Hit>, view: Table, sent: map<string, int>, log: seq<TaskRun>, row: TaskRun)
    ensures JobsOk(jobs, accepted, log) ==> JobsOk(jobs, accepted, log + [row])
    ensures CarriedOk(carried, reread, hits, log) ==> CarriedOk(carried, reread, hits, log + [row])
    ensures PageOk(view, sent, log) ==> PageOk(view, sent, log + [row])
  {
    assert forall r: TaskRun, w :: Shows(r, w, log) ==> Shows(r, w, log + [row]);
  }

  lemma NotBusyFlying(s: State, id: string)
    requires !Busy(s, id)
    ensures forall w :: Flying(s.jobs, s.server.ledger.live, s.server.hits, s.carried, id, w)
  {
    var live, hits := s.server.ledger.live, s.server.hits;
    forall p, h | p in live && h in live[p].listed && h < |hits| && hits[h].id == id
      ensures false
    {
      assert Ledger.Pending(live[p], h);
      assert false;
    }
  }

  lemma FlyingElsewhere(s: State, server: P.State, id: string, j: Job, other: string, w: int)
    requires Flying(s.jobs, s.server.ledger.live, s.server.hits, s.carried, other, w)
    requires server.ledger == s.server.ledger && server.hits == s.server.hits && id in server.cells
    requires JobId(j) == other ==> (j.Holding? ==> j.write == w)
    ensures var s' := WithJob(Written(s, server, id), j);
            Flying(s'.jobs, s'.server.ledger.live, s'.server.hits, s'.carried, other, w)
  {
  }

  lemma JobsStay(jobs: map<nat, Job>, n: nat, j: Job, id: string)
    requires n !in jobs
    ensures JobOn(jobs, id) ==> JobOn(jobs[n := j], id)
    ensures JobOn(jobs[n := j], JobId(j))
  {
    if JobOn(jobs, id) {
      var m :| m in jobs && JobId(jobs[m]) == id;
      assert jobs[n := j][m] == jobs[m];
    }
    assert jobs[n := j][n] == j;
  }

  // A handler's write, with the job that is to publish it.
  lemma HandlerWriteFresh(s: State, server: P.State, id: string, j: Job)
    requires Inv(s) && id in server.cells && server.cells[id].row.runId == id
    requires server.ledger == s.server.ledger && server.hits == s.server.hits
    requires JobId(j) == id && (j.Holding? ==> j.write == |s.log|)
    ensures forall other :: FreshOn(WithJob(Written(s, server, id), j), other)
  {
    var s' := WithJob(Written(s, server, id), j);
    Appended(s.log, server.cells[id].row);
    forall other ensures FreshOn(s', other) {
      JobsStay(s.jobs, s.accepted, j, other);
      if other != id {
        assert FreshOn(s, other);
        if other !in s.crossed && 0 <= LastWrite(s.log, other) {
          FlyingElsewhere(s, server, id, j, other, LastWrite(s.log, other));
        }
      } else if !Busy(s, id) {
        NotBusyFlying(s, id);
        FlyingElsewhere(s, server, id, j, id, |s.log|);
      }
    }
  }

  // What the three handlers' writes do to the server.
  ghost predicate WritesOne(v: P.State, v': P.State, id: string) {
    && Rewrites(v.cells, v'.cells, id)
    && v'.ledger == v.ledger && v'.hits == v.hits && v'.reread == v.reread
  }

  lemma JobsGrow(jobs: map<nat, Job>, accepted: nat, log: seq<TaskRun>, j: Job)
    requires JobsOk(jobs, accepted, log) && JobOk(j, log)
    ensures JobsOk(jobs[accepted := j], accepted + 1, log)
  {
  }

  lemma HandlerWriteKeeps(s: State, server: P.State, id: string, j: Job)
    requires Inv(s) && P.Inv(server) && WritesOne(s.server, server, id)
    requires JobId(j) == id && (j.Holding? ==> j.write == |s.log|) && JobOk(j, s.log + [server.cells[id].row])
    ensures Inv(WithJob(Written(s, server, id), j))
  {
    var row := server.cells[id].row;
    LoggedGrows(s.server.cells, s.log, server.cells, id);
    ShownOn(s.jobs, s.accepted, s.carried, s.server.reread, s.server.hits, View(s), s.sent, s.log, row);
    HandlerWriteFresh(s, server, id, j);
    JobsGrow(s.jobs, s.accepted, s.log + [row], j);
  }

  lemma HandlersWriteOne(v: P.State, run: TaskRun, id: string, at: Time, n: nat)
    requires P.CellsOk(v.cells, v.births)
    ensures run.status == Running && run.runId !in v.cells ==> WritesOne(v, P.OnCreate(v, run), run.runId)
    ensures id in v.cells && v.cells[id].row.status == Running ==> WritesOne(v, P.OnHeartbeat(v, id, at), id)
    ensures n in v.calls && v.calls[n].id in v.cells ==> WritesOne(v, P.OnFinishWrite(v, n), v.calls[n].id)
  {
  }

  lemma CreateKeeps(s: State, run: TaskRun)
    requires Inv(s)
    ensures Inv(OnCreate(s, run))
  {
    if IsNew(run) && run.runId !in s.server.cells {
      P.CreateStep(s.server, run);
      HandlersWriteOne(s.server, run, "", 0, 0);
      HandlerWriteKeeps(s, P.OnCreate(s.server, run), run.runId,
                        Holding(Event(Started, run.(lastHeartbeatAt := Some(run.startedAt))), |s.log|));
    }
  }

  lemma HeartbeatKeeps(s: State, id: string, at: Time)
    requires Inv(s)
    ensures Inv(OnHeartbeat(s, id, at))
  {
    if id in s.server.cells && s.server.cells[id].row.status == Running {
      P.HeartbeatStep(s.server, id, at);
      HandlersWriteOne(s.server, s.server.cells[id].row, id, at, 0);
      HandlerWriteKeeps(s, P.OnHeartbeat(s.server, id, at), id, Wrote(id, Heartbeat));
    }
  }

  lemma FinishWriteKeeps(s: State, n: nat)
    requires Inv(s)
    ensures Inv(OnFinishWrite(s, n))
  {
    P.FinishWriteStep(s.server, n);
    if n in s.server.calls && s.server.calls[n].id in s.server.cells {
      var c := s.server.calls[n];
      HandlersWriteOne(s.server, s.server.cells[c.id].row, c.id, 0, n);
      HandlerWriteKeeps(s, P.OnFinishWrite(s.server, n), c.id, Wrote(c.id, if c.status == Success then Succeeded else Failure));
    } else {
      SameKeeps(s, P.OnFinishWrite(s.server, n));
    }
  }

  // ---------- server steps that write no row ----------

  // The same hits are on their way, and no more than before is listed.
  ghost predicate SameFlights(live: map<nat, Ledger.Sweep>, live': map<nat, Ledger.Sweep>) {
    && (forall p, h: nat :: p in live && Ledger.Pending(live[p], h) ==> p in live' && Ledger.Pending(live'[p], h))
    && (forall p, h :: p in live' && h in live'[p].listed ==> p in live && h in live[p].listed)
  }

  lemma SameFresh(s: State, server: P.State, id: string)
    requires FreshOn(s, id) && server.hits == s.server.hits
    requires SameFlights(s.server.ledger.live, server.ledger.live)
    ensures FreshOn(s.(server := server), id)
  {
    var live, hits := s.server.ledger.live, s.server.hits;
    if HitOn(live, hits, id) {
      var p, h: nat :| p in live && Ledger.Pending(live[p], h) && h < |hits| && hits[h].id == id;
      assert Ledger.Pending(server.ledger.live[p], h);
    }
  }

  lemma SameKeeps(s: State, server: P.State)
    requires Inv(s) && P.Inv(server) && Logged(server.cells, s.log)
    requires server.hits == s.server.hits && server.reread == s.server.reread
    requires SameFlights(s.server.ledger.live, server.ledger.live)
    ensures Inv(s.(server := server))
  {
    forall id ensures FreshOn(s.(server := server), id) {
      assert FreshOn(s, id);
      SameFresh(s, server, id);
    }
  }

  lemma LedgerFlights(l: Ledger.Ledger, p: nat)
    requires Ledger.Valid(l)
    ensures SameFlights(l.live, Ledger.Begin(l).live)
    ensures Ledger.Is(l, p, Ledger.Scanning) ==> SameFlights(l.live, Ledger.Close(l, p).live)
    ensures Ledger.Is(l, p, Ledger.Publishing) && l.live[p].listed == [] ==> SameFlights(l.live, Ledger.Publish(l, p).live)
  {
  }

  // Finish's read and failures, the start and the end of a sweep, retention.
  lemma QuietSteps(v: P.State, a: P.Action)
    requires Ledger.Valid(v.ledger) && (a.FinishRead? || a.FinishFail? || a.SweepRead? || a.SweepClose?)
    ensures var v' := P.Next(v, a);
            v'.cells == v.cells && v'.hits == v.hits && v'.reread == v.reread && SameFlights(v.ledger.live, v'.ledger.live)
  {
    LedgerFlights(v.ledger, if a.SweepClose? then a.sweep else 0);
  }

  lemma QuietKeeps(s: State, a: P.Action)
    requires Inv(s) && (a.FinishRead? || a.FinishFail? || a.SweepRead? || a.SweepClose?)
    ensures Inv(OnServe(s, a))
  {
    P.StepKeeps(s.server, a);
    QuietSteps(s.server, a);
    SameKeeps(s, P.Next(s.server, a));
  }

  lemma CleanLogged(cells: P.Cells, births: nat, log: seq<TaskRun>, v: P.State, cutoff: Time)
    requires Logged(cells, log) && P.CellsOk(cells, births) && v.cells == cells
    ensures Logged(P.OnClean(v, cutoff).cells, log)
  {
    forall id | id in cells && id !in P.OnClean(v, cutoff).cells ensures log[LastWrite(log, id)].status != Running {
      assert Lawful(cells[id].row);
    }
  }

  lemma CleanKeeps(s: State, cutoff: Time)
    requires Inv(s)
    ensures Inv(OnServe(s, P.Clean(cutoff)))
  {
    P.CleanStep(s.server, cutoff);
    CleanLogged(s.server.cells, s.server.births, s.log, s.server, cutoff);
    SameKeeps(s, P.OnClean(s.server, cutoff));
  }

  // ---------- a sweep's update ----------

  // A sweep's update that changed a row.
  ghost predicate Strikes(v: P.State, v': P.State, sweep: nat, id: string) {
    && Ledger.Is(v.ledger, sweep, Ledger.Scanning)
    && Rewrites(v.cells, v'.cells, id)
    && v'.ledger == Ledger.Strike(v.ledger, sweep)
    && |v'.hits| == |v.hits| + 1 && v'.hits[..|v.hits|] == v.hits && v'.hits[|v.hits|].id == id
    && v'.reread == v.reread
  }

  lemma SweepNextStrikes(v: P.State, sweep: nat)
    requires P.CellsOk(v.cells, v.births)
    ensures var v' := P.OnSweepNext(v, sweep);
            || (v'.cells == v.cells && v'.hits == v.hits && v'.reread == v.reread && v'.ledger == v.ledger)
            || (v'.hits != [] && Strikes(v, v', sweep, v'.hits[|v'.hits| - 1].id))
  {
    if Ledger.Is(v.ledger, sweep, Ledger.Scanning) && sweep < |v.scans| && v.scans[sweep].todo != [] {
      var scan, id := v.scans[sweep], v.scans[sweep].todo[0];
      if id in scan.seen && Overdue(scan.seen[id].row, scan.now) && id in v.cells && v.cells[id].row.status == Running {
        var row := TimedOut(v.cells[id].row, Reference(scan.seen[id].row), scan.now);
        assert Rewrites(v.cells, v.cells[id := v.cells[id].(row := row)], id);
      }
    }
  }

  // The hits on their way after the update: those before, and the new one.
  lemma StrikeFlights(live: map<nat, Ledger.Sweep>, hits: seq<P.Hit>, live': map<nat, Ledger.Sweep>, hits': seq<P.Hit>,
                      sweep: nat, id: string)
    requires sweep in live && live[sweep].phase == Ledger.Scanning
    requires live' == live[sweep := live[sweep].(phase := Ledger.Reading(|hits|))]
    requires |hits'| == |hits| + 1 && hits'[..|hits|] == hits
    ensures HitOn(live, hits, id) ==> HitOn(live', hits', id)
    ensures hits'[|hits|].id == id ==> HitOn(live', hits', id)
  {
    if HitOn(live, hits, id) {
      var p, h: nat :| p in live && Ledger.Pending(live[p], h) && h < |hits| && hits[h].id == id;
      assert Ledger.Pending(live'[p], h) && hits'[h] == hits[h];
    }
    assert Ledger.Pending(live'[sweep], |hits|);
  }

  lemma ListedBefore(l: Ledger.Ledger, hits: seq<P.Hit>)
    requires Ledger.Valid(l) && |hits| == |l.owner|
    ensures forall p, h :: p in l.live && h in l.live[p].listed ==> h < |hits|
  {
    forall p, h | p in l.live && h in l.live[p].listed ensures h < |hits| {
      assert Ledger.SweepOk(l, p, l.live[p]) && Ledger.Pending(l.live[p], h);
    }
  }

  lemma StrikeFlying(s: State, server: P.State, sweep: nat, id: string, other: string, w: int)
    requires Flying(s.jobs, s.server.ledger.live, s.server.hits, s.carried, other, w)
    requires Strikes(s.server, server, sweep, id)
    requires forall p, h :: p in s.server.ledger.live && h in s.server.ledger.live[p].listed ==> h < |s.server.hits|
    ensures Flying(s.jobs, server.ledger.live, server.hits, s.carried, other, w)
  {
    assert forall h :: 0 <= h < |s.server.hits| ==> server.hits[h] == s.server.hits[h];
  }

  lemma StrikeFresh(s: State, server: P.State, sweep: nat, id: string, other: string)
    requires Strikes(s.server, server, sweep, id) && FreshOn(s, other)
    requires Ledger.Valid(s.server.ledger) && |s.server.hits| == |s.server.ledger.owner|
    ensures FreshOn(Written(s, server, id), other)
  {
    Appended(s.log, server.cells[id].row);
    StrikeFlights(s.server.ledger.live, s.server.hits, server.ledger.live, server.hits, sweep, other);
    ListedBefore(s.server.ledger, s.server.hits);
    if other != id {
      if other !in s.crossed && 0 <= LastWrite(s.log, other) {
        StrikeFlying(s, server, sweep, id, other, LastWrite(s.log, other));
      }
    } else if !Busy(s, id) {
      NotBusyFlying(s, id);
      StrikeFlying(s, server, sweep, id, id, |s.log|);
    }
  }

  lemma StrikeKeeps(s: State, server: P.State, sweep: nat, id: string)
    requires Inv(s) && P.Inv(server) && Strikes(s.server, server, sweep, id)
    ensures Inv(Written(s, server, id))
  {
    var row := server.cells[id].row;
    LoggedGrows(s.server.cells, s.log, server.cells, id);
    ShownOn(s.jobs, s.accepted, s.carried, s.server.reread, s.server.hits, View(s), s.sent, s.log, row);
    CarriedIgnores(s.carried, s.server.reread, s.server.hits, server.hits, s.log + [row]);
    forall other ensures FreshOn(Written(s, server, id), other) {
      assert FreshOn(s, other);
      StrikeFresh(s, server, sweep, id, other);
    }
  }

  lemma CarriedIgnores(carried: map<nat, int>, reread: map<nat, P.Cell>, hits: seq<P.Hit>, hits': seq<P.Hit>, log: seq<TaskRun>)
    requires CarriedOk(carried, reread, hits, log) && |hits| <= |hits'| && hits'[..|hits|] == hits
    ensures CarriedOk(carried, reread, hits', log)
  {
    assert forall h :: 0 <= h < |hits| ==> hits'[h] == hits[h];
  }

  lemma SweepNextKeeps(s: State, sweep: nat)
    requires Inv(s)
    ensures Inv(OnSweepNext(s, sweep))
  {
    var server := P.OnSweepNext(s.server, sweep);
    P.SweepNextStep(s.server, sweep);
    SweepNextStrikes(s.server, sweep);
    if |server.hits| > |s.server.hits| {
      StrikeKeeps(s, server, sweep, server.hits[|server.hits| - 1].id);
    } else {
      SameKeeps(s, server);
    }
  }

  // ---------- a sweep's re-read, and its failure ----------

  lemma GetFlights(l: Ledger.Ledger, hits: seq<P.Hit>, sweep: nat, id: string)
    requires Ledger.Rereads(l, sweep) && HitOn(l.live, hits, id)
    ensures HitOn(Ledger.Reread(l, sweep).live, hits, id)
  {
    var p, h: nat :| p in l.live && Ledger.Pending(l.live[p], h) && h < |hits| && hits[h].id == id;
    assert Ledger.Pending(Ledger.Reread(l, sweep).live[p], h);
  }

  // The step of a sweep that re-reads the row of its last hit.
  ghost predicate Regets(s: State, sweep: nat, hit: nat) {
    && Ledger.Rereads(s.server.ledger, sweep) && s.server.ledger.live[sweep].phase.hit == hit
    && hit < |s.server.hits| && s.server.hits[hit].id in s.server.cells
  }

  lemma GetFresh(s: State, sweep: nat, hit: nat, other: string)
    requires Regets(s, sweep, hit) && FreshOn(s, other)
    ensures FreshOn(OnSweepGet(s, sweep), other)
  {
    if HitOn(s.server.ledger.live, s.server.hits, other) {
      GetFlights(s.server.ledger, s.server.hits, sweep, other);
    }
  }

  lemma GetKeeps(s: State, sweep: nat, hit: nat)
    requires Inv(s) && Regets(s, sweep, hit)
    ensures Inv(OnSweepGet(s, sweep))
  {
    var s' := OnSweepGet(s, sweep);
    P.SweepGetStep(s.server, sweep);
    var cell := s.server.cells[s.server.hits[hit].id];
    CarriedGrows(s.carried, s.server.reread, s.server.hits, s.log, hit, cell, LastWrite(s.log, s.server.hits[hit].id));
    forall other ensures FreshOn(s', other) {
      assert FreshOn(s, other);
      GetFresh(s, sweep, hit, other);
    }
  }

  lemma CarriedGrows(carried: map<nat, int>, reread: map<nat, P.Cell>, hits: seq<P.Hit>, log: seq<TaskRun>,
                     hit: nat, cell: P.Cell, w: int)
    requires CarriedOk(carried, reread, hits, log) && hit < |hits|
    requires Shows(cell.row, w, log) && cell.row.runId == hits[hit].id
    ensures CarriedOk(carried[hit := w], reread[hit := cell], hits, log)
  {
  }

  lemma DropFresh(s: State, sweep: nat, other: string)
    requires FreshOn(s, other)
    requires Ledger.Is(s.server.ledger, sweep, Ledger.Scanning) || Ledger.Rereads(s.server.ledger, sweep)
    ensures FreshOn(Dropped(s, s.server.(ledger := Ledger.Fail(s.server.ledger, sweep)), sweep), other)
  {
    var live, hits := s.server.ledger.live, s.server.hits;
    if HitOn(live, hits, other) {
      var p, h: nat :| p in live && Ledger.Pending(live[p], h) && h < |hits| && hits[h].id == other;
      if p != sweep {
        assert Ledger.Pending((live - {sweep})[p], h);
      }
    }
  }

  lemma DropKeeps(s: State, sweep: nat)
    requires Inv(s) && (Ledger.Is(s.server.ledger, sweep, Ledger.Scanning) || Ledger.Rereads(s.server.ledger, sweep))
    ensures Inv(Dropped(s, s.server.(ledger := Ledger.Fail(s.server.ledger, sweep)), sweep))
  {
    var server := s.server.(ledger := Ledger.Fail(s.server.ledger, sweep));
    P.SweepFailStep(s.server, sweep);
    forall other ensures FreshOn(Dropped(s, server, sweep), other) {
      assert FreshOn(s, other);
      DropFresh(s, sweep, other);
    }
  }

  lemma GoneIsDropped(s: State, sweep: nat)
    requires Ledger.Rereads(s.server.ledger, sweep) && s.server.ledger.live[sweep].phase.hit < |s.server.hits|
    requires s.server.hits[s.server.ledger.live[sweep].phase.hit].id !in s.server.cells
    ensures OnSweepGet(s, sweep) == Dropped(s, s.server.(ledger := Ledger.Fail(s.server.ledger, sweep)), sweep)
  {
  }

  lemma SweepGetKeeps(s: State, sweep: nat)
    requires Inv(s)
    ensures Inv(OnSweepGet(s, sweep))
  {
    var l := s.server.ledger;
    if Ledger.Rereads(l, sweep) && l.live[sweep].phase.hit < |s.server.hits| {
      var hit := l.live[sweep].phase.hit;
      if s.server.hits[hit].id in s.server.cells {
        GetKeeps(s, sweep, hit);
      } else {
        GoneIsDropped(s, sweep);
        DropKeeps(s, sweep);
      }
    }
  }

  lemma SweepFailKeeps(s: State, sweep: nat)
    requires Inv(s)
    ensures Inv(OnSweepFail(s, sweep))
  {
    if Ledger.Is(s.server.ledger, sweep, Ledger.Scanning) || Ledger.Rereads(s.server.ledger, sweep) {
      DropKeeps(s, sweep);
    }
  }

  // ---------- publications ----------

  lemma SentPage(s: State, e: Event, write: int)
    requires PageOk(View(s), s.sent, s.log) && (!s.connected ==> s.buffer == [])
    requires e.kind != ScheduleMissed && Shows(e.task, write, s.log)
    ensures var s' := Sent(s, e, write); PageOk(View(s'), s'.sent, s'.log) && (!s'.connected ==> s'.buffer == [])
  {
    D.Offered(s.tasks, s.buffer, e);
  }

  // The event is of the run's last write, if nothing else crossed that write.
  ghost predicate Leaving(s: State, id: string, write: int) {
    || id in s.crossed
    || (write == LastWrite(s.log, id) && Flying(s.jobs, s.server.ledger.live, s.server.hits, s.carried, id, write))
  }

  lemma SentFresh(s: State, e: Event, write: int, id: string)
    requires if id == e.task.runId then Leaving(s, id, write) else FreshOn(s, id)
    ensures FreshOn(Sent(s, e, write), id)
  {
  }

  lemma SentKeeps(s: State, e: Event, write: int)
    requires Sound(s) && e.kind != ScheduleMissed && Shows(e.task, write, s.log)
    requires forall id :: if id == e.task.runId then Leaving(s, id, write) else FreshOn(s, id)
    ensures Inv(Sent(s, e, write))
  {
    SentPage(s, e, write);
    forall id ensures FreshOn(Sent(s, e, write), id) {
      assert id != e.task.runId ==> FreshOn(s, id);
      assert id == e.task.runId ==> Leaving(s, id, write);
      SentFresh(s, e, write, id);
    }
  }

  // Hits on their way after the first listed one has gone.
  lemma PublishFlights(l: Ledger.Ledger, hits: seq<P.Hit>, sweep: nat, id: string)
    requires Ledger.Is(l, sweep, Ledger.Publishing) && l.live[sweep].listed != []
    requires HitOn(l.live, hits, id) && (l.live[sweep].listed[0] < |hits| ==> hits[l.live[sweep].listed[0]].id != id)
    ensures HitOn(Ledger.Publish(l, sweep).live, hits, id)
  {
    var listed := l.live[sweep].listed;
    var p, h: nat :| p in l.live && Ledger.Pending(l.live[p], h) && h < |hits| && hits[h].id == id;
    assert listed == [listed[0]] + listed[1..];
    assert Ledger.Pending(Ledger.Publish(l, sweep).live[p], h);
  }

  lemma PublishFresh(s: State, server: P.State, sweep: nat, hit: nat, id: string)
    requires Ledger.Is(s.server.ledger, sweep, Ledger.Publishing) && s.server.ledger.live[sweep].listed != []
    requires server == s.server.(ledger := Ledger.Publish(s.server.ledger, sweep))
    requires hit == s.server.ledger.live[sweep].listed[0] && hit < |s.server.hits| && hit in s.carried
    requires FreshOn(s, id) && s.carried[hit] <= LastWrite(s.log, s.server.hits[hit].id) && 0 <= s.carried[hit]
    ensures var mid := s.(server := server);
            if id == s.server.hits[hit].id then Leaving(mid, id, s.carried[hit]) else FreshOn(mid, id)
  {
    if id != s.server.hits[hit].id && HitOn(s.server.ledger.live, s.server.hits, id) {
      PublishFlights(s.server.ledger, s.server.hits, sweep, id);
    }
  }

  // The next event of a sweep's list, and the write it shows.
  ghost predicate Publishes(s: State, sweep: nat, hit: nat) {
    && Ledger.Is(s.server.ledger, sweep, Ledger.Publishing) && s.server.ledger.live[sweep].listed != []
    && s.server.ledger.live[sweep].listed[0] == hit
  }

  lemma ListedHit(s: State, sweep: nat, hit: nat)
    requires Inv(s) && Publishes(s, sweep, hit)
    ensures hit in s.server.reread && hit in s.carried && hit < |s.server.hits|
    ensures Shows(s.server.reread[hit].row, s.carried[hit], s.log)
    ensures s.server.reread[hit].row.runId == s.server.hits[hit].id
    ensures s.carried[hit] <= LastWrite(s.log, s.server.hits[hit].id)
  {
    assert hit in s.server.ledger.live[sweep].listed;
  }

  lemma PublishHitKeeps(s: State, sweep: nat, hit: nat)
    requires Inv(s) && Publishes(s, sweep, hit)
    ensures Inv(OnPublish(s, sweep))
  {
    ListedHit(s, sweep, hit);
    P.PublishStep(s.server, sweep);
    var server, e, write := P.OnPublish(s.server, sweep), Event(TimedOutEvent, s.server.reread[hit].row), s.carried[hit];
    var mid := s.(server := server);
    forall id ensures if id == e.task.runId then Leaving(mid, id, write) else FreshOn(mid, id) {
      assert FreshOn(s, id);
      PublishFresh(s, server, sweep, hit, id);
    }
    SentKeeps(mid, e, write);
  }

  lemma PublishKeeps(s: State, sweep: nat)
    requires Inv(s)
    ensures Inv(OnPublish(s, sweep))
  {
    var l := s.server.ledger;
    if Ledger.Is(l, sweep, Ledger.Publishing) && l.live[sweep].listed != [] {
      PublishHitKeeps(s, sweep, l.live[sweep].listed[0]);
    } else {
      P.PublishStep(s.server, sweep);
      LedgerFlights(l, sweep);
      SameKeeps(s, P.OnPublish(s.server, sweep));
    }
  }

  // Jobs left after one has gone.
  lemma JobGone(jobs: map<nat, Job>, n: nat, id: string)
    requires n in jobs && JobOn(jobs, id) && JobId(jobs[n]) != id
    ensures JobOn(jobs - {n}, id)
  {
    var m :| m in jobs && JobId(jobs[m]) == id;
    assert (jobs - {n})[m] == jobs[m];
  }

  lemma GoneFresh(s: State, n: nat, id: string)
    requires FreshOn(s, id) && n in s.jobs
    requires s.jobs[n].Holding? && id == s.jobs[n].event.task.runId ==> 0 <= s.jobs[n].write <= LastWrite(s.log, id)
    ensures var mid := s.(jobs := s.jobs - {n});
            if id != JobId(s.jobs[n]) then FreshOn(mid, id) else s.jobs[n].Holding? ==> Leaving(mid, id, s.jobs[n].write)
  {
    if id != JobId(s.jobs[n]) && JobOn(s.jobs, id) {
      JobGone(s.jobs, n, id);
    }
  }

  lemma SendKeeps(s: State, n: nat)
    requires Inv(s)
    ensures Inv(OnSend(s, n))
  {
    if n in s.jobs && s.jobs[n].Holding? {
      var e, write, mid := s.jobs[n].event, s.jobs[n].write, s.(jobs := s.jobs - {n});
      assert JobOk(s.jobs[n], s.log);
      forall id ensures if id == e.task.runId then Leaving(mid, id, write) else FreshOn(mid, id) {
        assert FreshOn(s, id);
        GoneFresh(s, n, id);
      }
      SentKeeps(mid, e, write);
    }
  }

  // ---------- re-reads, and the page ----------

  lemma RereadFailFresh(s: State, n: nat, id: string)
    requires FreshOn(s, id) && n in s.jobs && s.jobs[n].Wrote?
    ensures FreshOn(OnRereadFail(s, n), id)
  {
    if id != s.jobs[n].id && JobOn(s.jobs, id) {
      JobGone(s.jobs, n, id);
    }
  }

  lemma RereadFailKeeps(s: State, n: nat)
    requires Inv(s)
    ensures Inv(OnRereadFail(s, n))
  {
    if n in s.jobs && s.jobs[n].Wrote? {
      forall id ensures FreshOn(OnRereadFail(s, n), id) {
        assert FreshOn(s, id);
        RereadFailFresh(s, n, id);
      }
    }
  }

  lemma RereadFresh(s: State, n: nat, j: Job, id: string)
    requires FreshOn(s, id) && n in s.jobs && s.jobs[n].Wrote?
    requires j.Holding? && JobId(j) == s.jobs[n].id && j.write == LastWrite(s.log, s.jobs[n].id)
    ensures FreshOn(s.(jobs := s.jobs[n := j]), id)
  {
    if JobOn(s.jobs, id) {
      var m :| m in s.jobs && JobId(s.jobs[m]) == id;
      assert JobId(s.jobs[n := j][m]) == id;
    }
  }

  lemma RereadKeeps(s: State, n: nat)
    requires Inv(s)
    ensures Inv(OnReread(s, n))
  {
    if n in s.jobs && s.jobs[n].Wrote? && s.jobs[n].id in s.server.cells {
      var j := OnReread(s, n).jobs[n];
      assert JobOk(s.jobs[n], s.log);
      forall id ensures FreshOn(OnReread(s, n), id) {
        assert FreshOn(s, id);
        RereadFresh(s, n, j, id);
      }
    } else {
      RereadFailKeeps(s, n);
    }
  }

  lemma LoadedPage(s: State, ids: set<string>)
    requires Logged(s.server.cells, s.log) && P.CellsOk(s.server.cells, s.server.births)
    ensures PageOk(OnLoad(s, ids).tasks, OnLoad(s, ids).sent, s.log)
  {
  }

  lemma LoadKeeps(s: State, ids: set<string>)
    requires Inv(s)
    ensures Inv(OnLoad(s, ids))
  {
    LoadedPage(s, ids);
    forall id ensures FreshOn(OnLoad(s, ids), id) {
      assert FreshOn(s, id);
      LoadFresh(s, ids, id);
    }
  }

  lemma LoadFresh(s: State, ids: set<string>, id: string)
    requires FreshOn(s, id)
    ensures FreshOn(OnLoad(s, ids), id)
  {
  }

  // Steps of the page alone that change nothing of what it will show.
  lemma SameViewKeeps(s: State, s': State)
    requires Inv(s) && s' == s.(tasks := s'.tasks, buffer := s'.buffer, connected := s'.connected)
    requires View(s') == View(s) && (!s'.connected ==> s'.buffer == [])
    ensures Inv(s')
  {
    forall id ensures FreshOn(s', id) {
      assert FreshOn(s, id);
    }
  }

  lemma PageKeeps(s: State, a: Action)
    requires Inv(s) && (a.ScheduleAlert? || a.Load? || a.Connect? || a.Deliver?)
    ensures Inv(Next(s, a))
  {
    match a
    case ScheduleAlert(task) =>
      D.Offered(s.tasks, s.buffer, Event(ScheduleMissed, task));
      SameViewKeeps(s, Next(s, a));
    case Load(ids) => LoadKeeps(s, ids);
    case Connect => SameViewKeeps(s, Next(s, a));
    case Deliver =>
      if s.buffer != [] {
        D.AbsorbFirst(s.tasks, s.buffer);
        SameViewKeeps(s, Next(s, a));
      }
  }

  lemma ServeKeeps(s: State, a: P.Action)
    requires Inv(s)
    ensures Inv(OnServe(s, a))
  {
    match a
    case Create(run) => CreateKeeps(s, run);
    case Heartbeat(id, at) => HeartbeatKeeps(s, id, at);
    case FinishWrite(n) => FinishWriteKeeps(s, n);
    case SweepNext(sweep) => SweepNextKeeps(s, sweep);
    case SweepGet(sweep) => SweepGetKeeps(s, sweep);
    case SweepFail(sweep) => SweepFailKeeps(s, sweep);
    case Publish(sweep) => PublishKeeps(s, sweep);
    case Clean(cutoff) => CleanKeeps(s, cutoff);
    case _ => QuietKeeps(s, a);
  }

  lemma StepKeeps(s: State, a: Action)
    requires Inv(s)
    ensures Inv(Next(s, a))
  {
    match a
    case Serve(b) => ServeKeeps(s, b);
    case Reread(n) => RereadKeeps(s, n);
    case RereadFail(n) => RereadFailKeeps(s, n);
    case Send(n) => SendKeeps(s, n);
    case _ => PageKeeps(s, a);
  }

  lemma {:induction false} RunKeeps(actions: seq<Action>)
    ensures Inv(Run(actions))
  {
    if actions == [] {
      Ledger.EmptyValid();
    } else {
      RunKeeps(actions[..|actions| - 1]);
      StepKeeps(Run(actions[..|actions| - 1]), actions[|actions| - 1]);
    }
  }
}
