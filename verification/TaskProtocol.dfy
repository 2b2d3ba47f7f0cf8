/**
  The task table under any interleaving of handlers, sweeps and retention.

  Every SQL statement is one atomic step. Finish is two steps, a read and an
  unguarded update; a sweep is a snapshot query, then one guarded update and
  one re-read per candidate, then its publications. Any number of each may be
  under way. Births number the incarnations of rows: a run id deleted and
  inserted again starts a new one.
 */
module TaskProtocol {
  import opened Options
  import opened Clock
  import opened TaskRuns
  import Ledger

  datatype Cell = Cell(row: TaskRun, birth: nat)

  type Cells = map<string, Cell>

  // A sweep's clock reading and snapshot, and the candidates still to do.
  datatype Scan = Scan(now: Time, seen: Cells, births: nat, todo: seq<string>)

  // A Finish between its read and its update. The update uses only the start
  // it read; whether the row had ended by then, and which incarnation it was,
  // is kept to state what the Finish does.
  datatype Call = Call(
    id: string, status: Status, message: string, at: Time, started: Time, ended: Option<Time>, birth: nat)

  // How a Finish ended: the row it wrote, or not found.
  datatype Landing = Landing(call: Call, after: Option<Cell>)

  // A sweep's update that changed a row, and the cell as it was just before.
  datatype Hit = Hit(sweep: nat, id: string, before: Cell)

  datatype State = State(
    cells: Cells,
    births: nat,
    calls: map<nat, Call>,
    asked: nat,
    landings: seq<Landing>,
    ledger: Ledger.Ledger,
    scans: seq<Scan>,
    hits: seq<Hit>,
    reread: map<nat, Cell>)

  datatype Action =
    | Create(run: TaskRun)
    | Heartbeat(id: string, at: Time)
    | FinishRead(id: string, status: Status, message: string, at: Time)
    | FinishWrite(call: nat)
    | FinishFail(call: nat)
    | SweepRead(now: Time, order: seq<string>)
    | SweepNext(sweep: nat)
    | SweepGet(sweep: nat)
    | SweepFail(sweep: nat)
    | SweepClose(sweep: nat)
    | Publish(sweep: nat)
    | Clean(cutoff: Time)

  const INIT := State(map[], 0, map[], 0, [], Ledger.EMPTY, [], [], map[])

  // ---------- steps; one that is not possible changes nothing ----------

  // INSERT of a running row, refused when the run id is taken.
  function OnCreate(s: State, run: TaskRun): State {
    if run.status != Running || run.runId in s.cells then s
    else s.(cells := s.cells[run.runId := Cell(Inserted(run), s.births)], births := s.births + 1)
  }

  function OnHeartbeat(s: State, id: string, at: Time): State {
    if id in s.cells && s.cells[id].row.status == Running then
      s.(cells := s.cells[id := s.cells[id].(row := s.cells[id].row.(lastHeartbeatAt := Some(at)))])
    else s
  }

  // Finish reads started_at; handlers only report success or failure.
  function OnFinishRead(s: State, id: string, status: Status, message: string, at: Time): State {
    if (status == Success || status == Failed) && id in s.cells then
      var row := s.cells[id].row;
      s.(calls := s.calls[s.asked := Call(id, status, message, at, row.startedAt, row.finishedAt, s.cells[id].birth)],
         asked := s.asked + 1)
    else s
  }

  // Its update, with no test of the status, and with the start it read earlier.
  function OnFinishWrite(s: State, n: nat): State {
    if n !in s.calls then s else Landed(s.(calls := s.calls - {n}), s.calls[n])
  }

  function Landed(s: State, c: Call): State {
    if c.id in s.cells then
      var after := s.cells[c.id].(row := Finished(s.cells[c.id].row, c.status, c.message, c.at, c.started));
      s.(cells := s.cells[c.id := after], landings := s.landings + [Landing(c, Some(after))])
    else
      s.(landings := s.landings + [Landing(c, None)])
  }

  function OnFinishFail(s: State, n: nat): State {
    s.(calls := s.calls - {n})
  }

  // The snapshot query returns every candidate once, in some order.
  ghost predicate Orders(order: seq<string>, cells: Cells) {
    && (forall i, j :: 0 <= i < j < |order| ==> order[i] != order[j])
    && (forall id :: id in order <==> id in cells && Candidate(cells[id].row))
  }

  ghost function OnSweepRead(s: State, now: Time, order: seq<string>): State {
    if Orders(order, s.cells) then
      s.(ledger := Ledger.Begin(s.ledger), scans := s.scans + [Scan(now, s.cells, s.births, order)])
    else s
  }

  // One candidate: skipped unless overdue in the snapshot and still running.
  function OnSweepNext(s: State, sweep: nat): State {
    if Ledger.Is(s.ledger, sweep, Ledger.Scanning) && sweep < |s.scans| && s.scans[sweep].todo != [] then
      Tried(Advanced(s, sweep), sweep, s.scans[sweep], s.scans[sweep].todo[0])
    else s
  }

  function Advanced(s: State, sweep: nat): State
    requires sweep < |s.scans| && s.scans[sweep].todo != []
  {
    s.(scans := s.scans[sweep := s.scans[sweep].(todo := s.scans[sweep].todo[1..])])
  }

  function Tried(s: State, sweep: nat, scan: Scan, id: string): State
    requires Ledger.Is(s.ledger, sweep, Ledger.Scanning)
  {
    if id in scan.seen && Overdue(scan.seen[id].row, scan.now) && id in s.cells && s.cells[id].row.status == Running then
      Struck(s, sweep, id, TimedOut(s.cells[id].row, Reference(scan.seen[id].row), scan.now))
    else s
  }

  function Struck(s: State, sweep: nat, id: string, row: TaskRun): State
    requires Ledger.Is(s.ledger, sweep, Ledger.Scanning) && id in s.cells
  {
    s.(cells := s.cells[id := s.cells[id].(row := row)],
       ledger := Ledger.Strike(s.ledger, sweep),
       hits := s.hits + [Hit(sweep, id, s.cells[id])])
  }

  // The re-read; a row gone by now is an error, which ends the sweep.
  function OnSweepGet(s: State, sweep: nat): State {
    if Ledger.Rereads(s.ledger, sweep) && s.ledger.live[sweep].phase.hit < |s.hits| then
      Got(s, sweep, s.ledger.live[sweep].phase.hit)
    else s
  }

  function Got(s: State, sweep: nat, hit: nat): State
    requires Ledger.Rereads(s.ledger, sweep) && hit < |s.hits|
  {
    var id := s.hits[hit].id;
    if id in s.cells then
      s.(ledger := Ledger.Reread(s.ledger, sweep), reread := s.reread[hit := s.cells[id]])
    else
      s.(ledger := Ledger.Fail(s.ledger, sweep))
  }

  function OnSweepFail(s: State, sweep: nat): State {
    if Ledger.Is(s.ledger, sweep, Ledger.Scanning) || Ledger.Rereads(s.ledger, sweep) then
      s.(ledger := Ledger.Fail(s.ledger, sweep))
    else s
  }

  function OnSweepClose(s: State, sweep: nat): State {
    if Ledger.Is(s.ledger, sweep, Ledger.Scanning) && sweep < |s.scans| && s.scans[sweep].todo == [] then
      s.(ledger := Ledger.Close(s.ledger, sweep))
    else s
  }

  function OnPublish(s: State, sweep: nat): State {
    if Ledger.Is(s.ledger, sweep, Ledger.Publishing) then s.(ledger := Ledger.Publish(s.ledger, sweep)) else s
  }

  function OnClean(s: State, cutoff: Time): State {
    s.(cells := map id | id in s.cells && !Stale(s.cells[id].row, cutoff) :: s.cells[id])
  }

  ghost function Next(s: State, a: Action): State {
    match a
    case Create(run) => OnCreate(s, run)
    case Heartbeat(id, at) => OnHeartbeat(s, id, at)
    case FinishRead(id, status, message, at) => OnFinishRead(s, id, status, message, at)
    case FinishWrite(call) => OnFinishWrite(s, call)
    case FinishFail(call) => OnFinishFail(s, call)
    case SweepRead(now, order) => OnSweepRead(s, now, order)
    case SweepNext(sweep) => OnSweepNext(s, sweep)
    case SweepGet(sweep) => OnSweepGet(s, sweep)
    case SweepFail(sweep) => OnSweepFail(s, sweep)
    case SweepClose(sweep) => OnSweepClose(s, sweep)
    case Publish(sweep) => OnPublish(s, sweep)
    case Clean(cutoff) => OnClean(s, cutoff)
  }

  ghost function Run(s: State, actions: seq<Action>): State {
    if actions == [] then s else Next(Run(s, actions[..|actions| - 1]), actions[|actions| - 1])
  }

  // ---------- what a step may do to the table ----------

  ghost predicate Progress(r: TaskRun, r': TaskRun) {
    && Rank(r.status) <= Rank(r'.status)
    && r'.runId == r.runId && r'.taskName == r.taskName && r'.source == r.source
    && r'.startedAt == r.startedAt && r'.ttlSeconds == r.ttlSeconds
    && (r.status != Running ==> r'.lastHeartbeatAt == r.lastHeartbeatAt)
    && (r'.status == Running ==> r' == r.(lastHeartbeatAt := r'.lastHeartbeatAt))
  }

  // Incarnations numbered below births only progress, and never come back.
  ghost predicate CellsGrow(cells: Cells, births: nat, cells': Cells) {
    forall id :: id in cells' && cells'[id].birth < births ==>
      id in cells && cells[id].birth == cells'[id].birth && Progress(cells[id].row, cells'[id].row)
  }

  ghost predicate Grows(s: State, s': State) {
    s.births <= s'.births && CellsGrow(s.cells, s.births, s'.cells)
  }

  // ---------- the invariant ----------

  ghost predicate CellsOk(cells: Cells, births: nat) {
    && (forall id :: id in cells ==> cells[id].row.runId == id && cells[id].birth < births && Lawful(cells[id].row))
    && (forall id, other :: id in cells && other in cells && cells[id].birth == cells[other].birth ==> id == other)
  }

  ghost predicate CallsOk(calls: map<nat, Call>, cells: Cells, births: nat) {
    forall n :: n in calls ==>
      var c := calls[n];
      && (c.status == Success || c.status == Failed) && c.birth < births
      && (c.id in cells && cells[c.id].birth == c.birth ==> cells[c.id].row.startedAt == c.started)
  }

  // The stored duration counts from the start that was read, which is the
  // row's own start unless the row was deleted and inserted anew.
  ghost predicate LandingOk(l: Landing) {
    match l.after
    case None => true
    case Some(cell) =>
      && cell.row.status == l.call.status && cell.row.finishedAt == Some(l.call.at)
      && cell.row.errorMessage == l.call.message
      && cell.row.durationMs == Some(Milliseconds(Sub(l.call.at, l.call.started)))
      && (cell.birth == l.call.birth ==> cell.row.startedAt == l.call.started)
  }

  ghost predicate LandingsOk(landings: seq<Landing>) {
    forall i :: 0 <= i < |landings| ==> LandingOk(landings[i])
  }

  ghost predicate ScanOk(scan: Scan, cells: Cells, births: nat) {
    && scan.births <= births && CellsGrow(scan.seen, scan.births, cells)
    && (forall id :: id in scan.seen ==> scan.seen[id].birth < scan.births)
    && (forall id :: id in scan.todo ==> id in scan.seen && Candidate(scan.seen[id].row))
  }

  ghost predicate ScansOk(scans: seq<Scan>, cells: Cells, births: nat) {
    forall p :: 0 <= p < |scans| ==> ScanOk(scans[p], cells, births)
  }

  // A hit row was running at the update, and overdue in the sweep's snapshot.
  // It is the incarnation of the snapshot, and then differs from the row seen
  // there in its heartbeat at most, exactly if it was born before the snapshot.
  ghost predicate Justified(scans: seq<Scan>, h: Hit) {
    && h.before.row.runId == h.id && h.before.row.status == Running
    && h.sweep < |scans| && h.id in scans[h.sweep].seen
    && var scan, seen := scans[h.sweep], scans[h.sweep].seen[h.id];
    && Overdue(seen.row, scan.now)
    && (h.before.birth == seen.birth <==> h.before.birth < scan.births)
    && (h.before.birth == seen.birth ==> h.before.row == seen.row.(lastHeartbeatAt := h.before.row.lastHeartbeatAt))
  }

  // An incarnation that was hit no longer runs.
  ghost predicate Settled(hits: seq<Hit>, cells: Cells, births: nat) {
    && (forall h :: 0 <= h < |hits| ==> hits[h].before.birth < births)
    && (forall id, h :: id in cells && 0 <= h < |hits| && cells[id].birth == hits[h].before.birth ==>
          cells[id].row.status != Running)
  }

  ghost predicate HitsOk(hits: seq<Hit>, owner: seq<nat>, scans: seq<Scan>) {
    && |hits| == |owner|
    && (forall h :: 0 <= h < |hits| ==> Justified(scans, hits[h]) && hits[h].sweep == owner[h])
    && (forall g, h :: 0 <= g < h < |hits| ==> hits[g].before.birth != hits[h].before.birth)
  }

  ghost predicate RereadOk(reread: map<nat, Cell>, hits: seq<Hit>, ledger: Ledger.Ledger) {
    && (forall h :: h in reread ==>
          h < |hits| && (reread[h].birth == hits[h].before.birth ==> reread[h].row.status != Running))
    && (forall h :: h in ledger.published ==> h in reread)
    && (forall p, h: nat :: p in ledger.live && h in ledger.live[p].listed ==> h in reread)
  }

  ghost predicate Inv(s: State) {
    && CellsOk(s.cells, s.births)
    && CallsOk(s.calls, s.cells, s.births)
    && LandingsOk(s.landings)
    && |s.scans| == s.ledger.started && ScansOk(s.scans, s.cells, s.births)
    && HitsOk(s.hits, s.ledger.owner, s.scans) && Settled(s.hits, s.cells, s.births)
    && RereadOk(s.reread, s.hits, s.ledger)
    && Ledger.Valid(s.ledger)
  }

  // ---------- every step keeps it ----------

  ghost predicate Kept(s: State, s': State) {
    Inv(s') && Grows(s, s')
  }

  lemma GrowTransitively(a: Cells, births: nat, b: Cells, births': nat, c: Cells)
    requires CellsGrow(a, births, b) && births <= births' && CellsGrow(b, births', c)
    ensures CellsGrow(a, births, c)
  {
  }

  // Steps of the table alone.
  lemma TableStep(s: State, cells: Cells, births: nat)
    requires Inv(s) && CellsOk(cells, births) && s.births <= births && CellsGrow(s.cells, s.births, cells)
    ensures Kept(s, s.(cells := cells, births := births))
  {
    forall p | 0 <= p < |s.scans| ensures ScanOk(s.scans[p], cells, births) {
      GrowTransitively(s.scans[p].seen, s.scans[p].births, s.cells, s.births, cells);
    }
  }

  lemma RewriteStep(s: State, id: string, row: TaskRun)
    requires Inv(s) && id in s.cells && Progress(s.cells[id].row, row) && Lawful(row)
    ensures Kept(s, s.(cells := s.cells[id := s.cells[id].(row := row)]))
  {
    TableStep(s, s.cells[id := s.cells[id].(row := row)], s.births);
  }

  lemma InsertStep(s: State, row: TaskRun)
    requires Inv(s) && row.runId !in s.cells && Lawful(row)
    ensures Kept(s, s.(cells := s.cells[row.runId := Cell(row, s.births)], births := s.births + 1))
  {
    var cells := s.cells[row.runId := Cell(row, s.births)];
    assert CellsOk(cells, s.births + 1);
    assert CellsGrow(s.cells, s.births, cells);
    TableStep(s, cells, s.births + 1);
  }

  lemma FinishWriteStep(s: State, n: nat)
    requires Inv(s)
    ensures Kept(s, OnFinishWrite(s, n))
  {
    if n in s.calls && s.calls[n].id in s.cells {
      var c := s.calls[n];
      RewriteStep(s, c.id, Finished(s.cells[c.id].row, c.status, c.message, c.at, c.started));
    }
  }

  // Steps of the ledger that make no hit and begin no sweep.
  lemma LedgerStep(s: State, reread: map<nat, Cell>, l: Ledger.Ledger)
    requires Inv(s) && Ledger.Valid(l) && l.started == s.ledger.started && l.owner == s.ledger.owner
    requires RereadOk(reread, s.hits, l)
    ensures Kept(s, s.(reread := reread, ledger := l))
  {
  }

  lemma RereadKept(reread: map<nat, Cell>, hits: seq<Hit>, l: Ledger.Ledger, sweep: nat)
    requires RereadOk(reread, hits, l)
    ensures Ledger.Is(l, sweep, Ledger.Scanning) || Ledger.Rereads(l, sweep) ==> RereadOk(reread, hits, Ledger.Fail(l, sweep))
    ensures Ledger.Is(l, sweep, Ledger.Scanning) ==> RereadOk(reread, hits, Ledger.Close(l, sweep))
    ensures Ledger.Is(l, sweep, Ledger.Publishing) ==> RereadOk(reread, hits, Ledger.Publish(l, sweep))
  {
  }

  lemma SweepFailStep(s: State, sweep: nat)
    requires Inv(s)
    ensures Kept(s, OnSweepFail(s, sweep))
  {
    if Ledger.Is(s.ledger, sweep, Ledger.Scanning) || Ledger.Rereads(s.ledger, sweep) {
      Ledger.FailValid(s.ledger, sweep);
      RereadKept(s.reread, s.hits, s.ledger, sweep);
      LedgerStep(s, s.reread, Ledger.Fail(s.ledger, sweep));
    }
  }

  lemma SweepCloseStep(s: State, sweep: nat)
    requires Inv(s)
    ensures Kept(s, OnSweepClose(s, sweep))
  {
    if Ledger.Is(s.ledger, sweep, Ledger.Scanning) {
      Ledger.CloseValid(s.ledger, sweep);
      RereadKept(s.reread, s.hits, s.ledger, sweep);
      LedgerStep(s, s.reread, Ledger.Close(s.ledger, sweep));
    }
  }

  lemma PublishStep(s: State, sweep: nat)
    requires Inv(s)
    ensures Kept(s, OnPublish(s, sweep))
  {
    if Ledger.Is(s.ledger, sweep, Ledger.Publishing) {
      Ledger.PublishValid(s.ledger, sweep);
      RereadKept(s.reread, s.hits, s.ledger, sweep);
      LedgerStep(s, s.reread, Ledger.Publish(s.ledger, sweep));
    }
  }

  lemma RereadGrows(reread: map<nat, Cell>, hits: seq<Hit>, l: Ledger.Ledger, sweep: nat, cell: Cell)
    requires RereadOk(reread, hits, l) && Ledger.Rereads(l, sweep)
    requires var h := l.live[sweep].phase.hit;
             h < |hits| && (cell.birth == hits[h].before.birth ==> cell.row.status != Running)
    ensures RereadOk(reread[l.live[sweep].phase.hit := cell], hits, Ledger.Reread(l, sweep))
  {
  }

  lemma SweepGetStep(s: State, sweep: nat)
    requires Inv(s)
    ensures Kept(s, OnSweepGet(s, sweep))
  {
    if Ledger.Rereads(s.ledger, sweep) && s.ledger.live[sweep].phase.hit < |s.hits| {
      var hit := s.ledger.live[sweep].phase.hit;
      var id := s.hits[hit].id;
      if id in s.cells {
        Ledger.RereadValid(s.ledger, sweep);
        RereadGrows(s.reread, s.hits, s.ledger, sweep, s.cells[id]);
        LedgerStep(s, s.reread[hit := s.cells[id]], Ledger.Reread(s.ledger, sweep));
      } else {
        SweepFailStep(s, sweep);
      }
    }
  }

  lemma SweepReadStep(s: State, now: Time, order: seq<string>)
    requires Inv(s)
    ensures Kept(s, OnSweepRead(s, now, order))
  {
    if Orders(order, s.cells) {
      Ledger.BeginValid(s.ledger);
    }
  }

  lemma AdvancedStep(s: State, sweep: nat)
    requires Inv(s) && sweep < |s.scans| && s.scans[sweep].todo != []
    ensures Kept(s, Advanced(s, sweep))
  {
  }

  lemma HitsGrow(hits: seq<Hit>, owner: seq<nat>, scans: seq<Scan>, cells: Cells, births: nat, h: Hit)
    requires HitsOk(hits, owner, scans) && Settled(hits, cells, births) && Justified(scans, h)
    requires h.id in cells && cells[h.id] == h.before
    ensures HitsOk(hits + [h], owner + [h.sweep], scans)
  {
  }

  lemma SettledGrows(hits: seq<Hit>, cells: Cells, births: nat, h: Hit)
    requires Settled(hits, cells, births) && h.before.birth < births
    requires h.id in cells && cells[h.id].birth == h.before.birth && cells[h.id].row.status != Running
    requires CellsOk(cells, births)
    ensures Settled(hits + [h], cells, births)
  {
  }

  lemma RereadIgnores(reread: map<nat, Cell>, hits: seq<Hit>, l: Ledger.Ledger, sweep: nat, h: Hit)
    requires RereadOk(reread, hits, l) && Ledger.Is(l, sweep, Ledger.Scanning)
    ensures RereadOk(reread, hits + [h], Ledger.Strike(l, sweep))
  {
  }

  lemma StruckStep(s: State, sweep: nat, id: string, row: TaskRun)
    requires Inv(s) && Ledger.Is(s.ledger, sweep, Ledger.Scanning)
    requires id in s.cells && Justified(s.scans, Hit(sweep, id, s.cells[id]))
    requires row.status == Timeout && Lawful(row) && Progress(s.cells[id].row, row)
    ensures Kept(s, Struck(s, sweep, id, row))
  {
    var h := Hit(sweep, id, s.cells[id]);
    var cells := s.cells[id := s.cells[id].(row := row)];
    RewriteStep(s, id, row);
    Ledger.StrikeValid(s.ledger, sweep);
    HitsGrow(s.hits, s.ledger.owner, s.scans, s.cells, s.births, h);
    SettledGrows(s.hits, cells, s.births, h);
    RereadIgnores(s.reread, s.hits, s.ledger, sweep, h);
  }

  lemma SweepNextStep(s: State, sweep: nat)
    requires Inv(s)
    ensures Kept(s, OnSweepNext(s, sweep))
  {
    if Ledger.Is(s.ledger, sweep, Ledger.Scanning) && sweep < |s.scans| && s.scans[sweep].todo != [] {
      var scan, id, mid := s.scans[sweep], s.scans[sweep].todo[0], Advanced(s, sweep);
      AdvancedStep(s, sweep);
      assert ScanOk(scan, s.cells, s.births);
      if Overdue(scan.seen[id].row, scan.now) && id in s.cells && s.cells[id].row.status == Running {
        StruckStep(mid, sweep, id, TimedOut(s.cells[id].row, Reference(scan.seen[id].row), scan.now));
      }
    }
  }

  lemma CreateStep(s: State, run: TaskRun)
    requires Inv(s)
    ensures Kept(s, OnCreate(s, run))
  {
    if run.status == Running && run.runId !in s.cells {
      InsertStep(s, Inserted(run));
    }
  }

  lemma HeartbeatStep(s: State, id: string, at: Time)
    requires Inv(s)
    ensures Kept(s, OnHeartbeat(s, id, at))
  {
    if id in s.cells && s.cells[id].row.status == Running {
      RewriteStep(s, id, s.cells[id].row.(lastHeartbeatAt := Some(at)));
    }
  }

  lemma FinishReadStep(s: State, id: string, status: Status, message: string, at: Time)
    requires Inv(s)
    ensures Kept(s, OnFinishRead(s, id, status, message, at))
  {
  }

  lemma FinishFailStep(s: State, n: nat)
    requires Inv(s)
    ensures Kept(s, OnFinishFail(s, n))
  {
  }

  lemma CleanStep(s: State, cutoff: Time)
    requires Inv(s)
    ensures Kept(s, OnClean(s, cutoff))
  {
    TableStep(s, OnClean(s, cutoff).cells, s.births);
  }

  lemma TableActionKeeps(s: State, a: Action)
    requires Inv(s) && (a.Create? || a.Heartbeat? || a.FinishRead? || a.FinishWrite? || a.FinishFail? || a.Clean?)
    ensures Kept(s, Next(s, a))
  {
    match a
    case Create(run) => CreateStep(s, run);
    case Heartbeat(id, at) => HeartbeatStep(s, id, at);
    case FinishRead(id, status, message, at) => FinishReadStep(s, id, status, message, at);
    case FinishWrite(call) => FinishWriteStep(s, call);
    case FinishFail(call) => FinishFailStep(s, call);
    case Clean(cutoff) => CleanStep(s, cutoff);
  }

  lemma SweepActionKeeps(s: State, a: Action)
    requires Inv(s) && (a.SweepRead? || a.SweepNext? || a.SweepGet? || a.SweepFail? || a.SweepClose? || a.Publish?)
    ensures Kept(s, Next(s, a))
  {
    match a
    case SweepRead(now, order) => SweepReadStep(s, now, order);
    case SweepNext(sweep) => SweepNextStep(s, sweep);
    case SweepGet(sweep) => SweepGetStep(s, sweep);
    case SweepFail(sweep) => SweepFailStep(s, sweep);
    case SweepClose(sweep) => SweepCloseStep(s, sweep);
    case Publish(sweep) => PublishStep(s, sweep);
  }

  /**
    Every step keeps the invariant, and moves every row incarnation forward
    only: its rank never falls, so no run returns to running, no timeout
    overwrites a reported outcome and no heartbeat revives a finished run.
   */
  lemma StepKeeps(s: State, a: Action)
    requires Inv(s)
    ensures Kept(s, Next(s, a))
  {
    if a.Create? || a.Heartbeat? || a.FinishRead? || a.FinishWrite? || a.FinishFail? || a.Clean? {
      TableActionKeeps(s, a);
    } else {
      SweepActionKeeps(s, a);
    }
  }
}
