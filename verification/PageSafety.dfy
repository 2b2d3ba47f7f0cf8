/** What a dashboard page shows, under any interleaving, and when it is right. */
module PageSafety {
  import opened Options
  import opened Clock
  import opened TaskRuns
  import opened Broker
  import D = Dashboards
  import P = TaskProtocol
  import opened PageProtocol
  import opened Sample
  import Ledger

  lemma PublishServes(s: State, sweep: nat)
    requires Inv(s)
    ensures OnPublish(s, sweep).server == P.OnPublish(s.server, sweep)
  {
    if Ledger.Is(s.server.ledger, sweep, Ledger.Publishing) && s.server.ledger.live[sweep].listed != [] {
      ListedHit(s, sweep, s.server.ledger.live[sweep].listed[0]);
    }
  }

  lemma HandlersServe(s: State, a: P.Action)
    requires (a.Create? && IsNew(a.run)) || a.Heartbeat? || a.FinishWrite?
    ensures OnServe(s, a).server == P.Next(s.server, a)
  {
  }

  lemma SweepsServe(s: State, a: P.Action)
    requires !(a.Create? || a.Heartbeat? || a.FinishWrite? || a.Publish?)
    ensures OnServe(s, a).server == P.Next(s.server, a)
  {
  }

  /**
    The server of the page's protocol is the task protocol: each of its steps is
    the one there, for any record of a start that the handler can build.
   */
  lemma ServesTheProtocol(actions: seq<Action>, a: P.Action)
    requires a.Create? ==> IsNew(a.run)
    ensures var s := Run(actions); Next(s, Serve(a)).server == P.Next(s.server, a)
  {
    var s := Run(actions);
    if a.Publish? {
      RunKeeps(actions);
      PublishServes(s, a.sweep);
    } else if a.Create? || a.Heartbeat? || a.FinishWrite? {
      HandlersServe(s, a);
    } else {
      SweepsServe(s, a);
    }
  }

  /**
    With its buffered events applied, and so by itself once they have drained,
    the page shows of every run it has loaded or received an event for exactly
    the row as one write of that run left it: the write that the last of these
    was read after. It is the server's row exactly if that was the run's last
    write, or the last write left the same row again.
   */
  lemma PageShowsLastSent(actions: seq<Action>, id: string)
    ensures var s := Run(actions);
            && (s.buffer == [] ==> View(s) == s.tasks)
            && (id in View(s) <==> id in s.sent)
            && (id in s.sent ==>
                  && 0 <= s.sent[id] <= LastWrite(s.log, id)
                  && View(s)[id] == s.log[s.sent[id]] && s.log[s.sent[id]].runId == id)
            && (id in s.server.cells ==> 0 <= LastWrite(s.log, id) && s.server.cells[id].row == s.log[LastWrite(s.log, id)])
            && (id in s.sent && id in s.server.cells ==>
                  (View(s)[id] == s.server.cells[id].row <==>
                     s.sent[id] == LastWrite(s.log, id) || s.log[s.sent[id]] == s.log[LastWrite(s.log, id)]))
  {
    RunKeeps(actions);
    var s := Run(actions);
    assert id in s.sent ==> Shows(View(s)[id], s.sent[id], s.log);
  }

  // The page shows the server's row if it knows the run; if it does not, the run
  // has not been written since the page was loaded; and a run that retention has
  // deleted does not show as running.
  ghost predicate AgreesOn(s: State, id: string) {
    && (id in s.server.cells && id in View(s) ==> View(s)[id] == s.server.cells[id].row)
    && (id in s.server.cells && id !in View(s) ==> LastWrite(s.log, id) < s.opening)
    && (id !in s.server.cells && id in View(s) ==> View(s)[id].status != Running)
  }

  /**
    Let a run's last write have been made while no other call on it, and no
    sweep that had changed it, was between its write and its publication; and
    let none of its changes since have failed to be published or been dropped.
    Once nothing of it is on its way, page and server agree on it.
   */
  lemma PageAgrees(actions: seq<Action>, id: string)
    requires var s := Run(actions); id !in s.crossed && id !in s.lost && !Busy(s, id)
    ensures AgreesOn(Run(actions), id)
  {
    RunKeeps(actions);
    var s := Run(actions);
    assert FreshOn(s, id);
    assert id in s.sent ==> Shows(View(s)[id], s.sent[id], s.log);
  }

  // The step writes the run while something else of it is on its way.
  ghost predicate WritesOver(s: State, a: Action, id: string) {
    Busy(s, id) && exists row: TaskRun :: row.runId == id && Next(s, a).log == s.log + [row]
  }

  lemma CrossedBy(s: State, a: Action, server: P.State, written: string, id: string)
    requires written in server.cells && server.cells[written].row.runId == written
    requires Next(s, a).log == Written(s, server, written).log && Next(s, a).crossed == Written(s, server, written).crossed
    ensures id in Next(s, a).crossed ==> id in s.crossed || WritesOver(s, a, id)
  {
  }

  lemma GetsCross(s: State, sweep: nat, id: string)
    ensures OnSweepGet(s, sweep).crossed == s.crossed
    ensures id in OnSweepGet(s, sweep).lost ==> id in s.lost || Busy(s, id)
  {
  }

  lemma FailsCross(s: State, sweep: nat, id: string)
    ensures OnSweepFail(s, sweep).crossed == s.crossed
    ensures id in OnSweepFail(s, sweep).lost ==> id in s.lost || Busy(s, id)
  {
  }

  lemma PublishCrosses(s: State, sweep: nat, hit: nat, id: string)
    requires Publishes(s, sweep, hit) && hit in s.server.reread && hit < |s.server.hits|
    requires s.server.reread[hit].row.runId == s.server.hits[hit].id
    ensures OnPublish(s, sweep).crossed == s.crossed
    ensures id in OnPublish(s, sweep).lost ==> id in s.lost || Busy(s, id)
  {
    assert Ledger.Pending(s.server.ledger.live[sweep], hit);
  }

  lemma PublicationsCross(s: State, sweep: nat, id: string)
    requires Inv(s)
    ensures OnPublish(s, sweep).crossed == s.crossed
    ensures id in OnPublish(s, sweep).lost ==> id in s.lost || Busy(s, id)
  {
    var l := s.server.ledger;
    if Ledger.Is(l, sweep, Ledger.Publishing) && l.live[sweep].listed != [] {
      ListedHit(s, sweep, l.live[sweep].listed[0]);
      PublishCrosses(s, sweep, l.live[sweep].listed[0], id);
    }
  }

  // Steps of the server that write, re-read and publish nothing.
  lemma QuietCrosses(s: State, a: P.Action)
    requires !(a.Create? || a.Heartbeat? || a.FinishWrite? || a.SweepNext?)
    requires !(a.SweepGet? || a.SweepFail? || a.Publish?)
    ensures OnServe(s, a).crossed == s.crossed && OnServe(s, a).lost == s.lost
  {
  }

  lemma PageCrosses(s: State, a: Action, id: string)
    requires !a.Serve?
    ensures Next(s, a).crossed == s.crossed
    ensures id in Next(s, a).lost ==> id in s.lost || JobOn(s.jobs, id)
    ensures a.Load? ==> Next(s, a).lost == {} && Next(s, a).opening == |s.log|
  {
  }

  lemma SweepsCross(s: State, sweep: nat, id: string)
    requires P.CellsOk(s.server.cells, s.server.births)
    ensures OnSweepNext(s, sweep).lost == s.lost
    ensures id in OnSweepNext(s, sweep).crossed ==> id in s.crossed || WritesOver(s, Serve(P.SweepNext(sweep)), id)
  {
    var server := P.OnSweepNext(s.server, sweep);
    SweepNextStrikes(s.server, sweep);
    if |server.hits| > |s.server.hits| {
      CrossedBy(s, Serve(P.SweepNext(sweep)), server, server.hits[|server.hits| - 1].id, id);
    }
  }

  lemma ReportsCross(s: State, n: nat, id: string)
    requires P.CellsOk(s.server.cells, s.server.births)
    ensures OnFinishWrite(s, n).lost == s.lost
    ensures id in OnFinishWrite(s, n).crossed ==> id in s.crossed || WritesOver(s, Serve(P.FinishWrite(n)), id)
  {
    if n in s.server.calls && s.server.calls[n].id in s.server.cells {
      CrossedBy(s, Serve(P.FinishWrite(n)), P.OnFinishWrite(s.server, n), s.server.calls[n].id, id);
    }
  }

  lemma StartsCross(s: State, run: TaskRun, id: string)
    ensures OnCreate(s, run).lost == s.lost
    ensures id in OnCreate(s, run).crossed ==> id in s.crossed || WritesOver(s, Serve(P.Create(run)), id)
  {
    if IsNew(run) && run.runId !in s.server.cells {
      CrossedBy(s, Serve(P.Create(run)), P.OnCreate(s.server, run), run.runId, id);
    }
  }

  lemma BeatsCross(s: State, beaten: string, at: Time, id: string)
    requires P.CellsOk(s.server.cells, s.server.births)
    ensures OnHeartbeat(s, beaten, at).lost == s.lost
    ensures id in OnHeartbeat(s, beaten, at).crossed ==> id in s.crossed || WritesOver(s, Serve(P.Heartbeat(beaten, at)), id)
  {
    if beaten in s.server.cells && s.server.cells[beaten].row.status == Running {
      CrossedBy(s, Serve(P.Heartbeat(beaten, at)), P.OnHeartbeat(s.server, beaten, at), beaten, id);
    }
  }

  lemma StepCrosses(s: State, a: Action, id: string)
    requires Inv(s)
    ensures id in Next(s, a).crossed ==> id in s.crossed || WritesOver(s, a, id)
    ensures id in Next(s, a).lost ==> id in s.lost || Busy(s, id)
    ensures a.Load? ==> Next(s, a).lost == {} && Next(s, a).opening == |s.log|
  {
    match a
    case Serve(Create(run)) => StartsCross(s, run, id);
    case Serve(Heartbeat(other, at)) => BeatsCross(s, other, at, id);
    case Serve(FinishWrite(n)) => ReportsCross(s, n, id);
    case Serve(SweepNext(sweep)) => SweepsCross(s, sweep, id);
    case Serve(SweepGet(sweep)) => GetsCross(s, sweep, id);
    case Serve(SweepFail(sweep)) => FailsCross(s, sweep, id);
    case Serve(Publish(sweep)) => PublicationsCross(s, sweep, id);
    case Serve(b) => QuietCrosses(s, b);
    case _ => PageCrosses(s, a, id);
  }

  /** A page can only lose what is on its way, and opening a page loses nothing. */
  lemma OnlyFlightsAreLost(actions: seq<Action>, a: Action, id: string)
    ensures var s, s' := Run(actions), Next(Run(actions), a);
            && (id in s'.lost ==> id in s.lost || Busy(s, id))
            && (a.Load? ==> s'.lost == {} && s'.opening == |s.log|)
  {
    RunKeeps(actions);
    StepCrosses(Run(actions), a, id);
  }

  // The calls on the run do not overlap, and none of them falls between a
  // sweep's update of that run and its publication.
  ghost predicate NoOverlap(actions: seq<Action>, id: string) {
    forall i :: 0 <= i < |actions| ==> !WritesOver(Run(actions[..i]), actions[i], id)
  }

  lemma {:induction false} NoOverlapNoCrossing(actions: seq<Action>, id: string)
    requires NoOverlap(actions, id)
    ensures id !in Run(actions).crossed
  {
    if actions != [] {
      var n := |actions| - 1;
      var before := actions[..n];
      forall i | 0 <= i < n ensures !WritesOver(Run(before[..i]), before[i], id) {
        assert before[..i] == actions[..i] && before[i] == actions[i];
      }
      NoOverlapNoCrossing(before, id);
      RunKeeps(before);
      assert !WritesOver(Run(actions[..n]), actions[n], id);
      StepCrosses(Run(before), actions[n], id);
    }
  }

  /**
    What a caller can see to: if the calls on a run do not overlap each other,
    nor a sweep between its update of that run and its publication, then page
    and server agree on it whenever nothing of it is on its way or lost.
   */
  lemma PageAgreesWithoutOverlap(actions: seq<Action>, id: string)
    requires NoOverlap(actions, id)
    requires id !in Run(actions).lost && !Busy(Run(actions), id)
    ensures AgreesOn(Run(actions), id)
    ensures Run(actions).buffer == [] ==> View(Run(actions)) == Run(actions).tasks
  {
    NoOverlapNoCrossing(actions, id);
    PageAgrees(actions, id);
  }

  // ---------- runs in which the page stays wrong ----------

  ghost predicate Reachable(s: State) {
    exists actions: seq<Action> :: Run(actions) == s
  }

  lemma Then(s: State, a: Action) returns (s': State)
    requires Reachable(s)
    ensures Reachable(s') && s' == Next(s, a)
  {
    var actions: seq<Action> :| Run(actions) == s;
    assert (actions + [a])[..|actions|] == actions;
    assert Run(actions + [a]) == Next(s, a);
    s' := Next(s, a);
  }

  // No call and no sweep is under way, and nothing was lost.
  ghost predicate AtRest(s: State) {
    s.jobs == map[] && s.server.ledger.live == map[] && s.server.calls == map[] && s.buffer == [] && s.lost == {}
  }

  // One running run, and a page that shows it.
  lemma Opening() returns (s: State)
    ensures Reachable(s) && AtRest(s) && s.connected && s.log == [Inserted(First())] && s.crossed == {}
    ensures s.server == P.OnCreate(P.INIT, First())
    ensures s.tasks == map[ID := Inserted(First())] && s.sent == map[ID := 0]
  {
    var s2 := Started();
    var s3 := Then(s2, Load({ID}));
    s := Then(s3, Connect);
    assert s.tasks == map[ID := Inserted(First())];
    assert s.sent == map[ID := LastWrite(s2.log, ID)];
  }

  lemma Started() returns (s: State)
    ensures Reachable(s) && s.jobs == map[] && s.log == [Inserted(First())] && s.crossed == {}
    ensures s.server == P.OnCreate(P.INIT, First())
  {
    assert Run([]) == INIT;
    var s1 := Then(INIT, Serve(P.Create(First())));
    s := Then(s1, Send(0));
    assert s.jobs == map[];
  }

  // A whole success report on the run, from its read to its publication.
  lemma Reported(s: State) returns (s': State)
    requires Reachable(s) && s.connected && s.buffer == [] && s.lost == {} && ID in s.server.cells
    requires s.server.calls == map[] && s.server.cells[ID].row.runId == ID && s.accepted !in s.jobs
    ensures Reachable(s') && s'.connected && s'.lost == {} && s'.jobs == s.jobs
    ensures s'.tasks == s.tasks && s'.carried == s.carried
    ensures var row := Finished(s.server.cells[ID].row, Success, "", TEN, s.server.cells[ID].row.startedAt);
            && s'.buffer == [Event(Succeeded, row)]
            && s'.server.cells == s.server.cells[ID := s.server.cells[ID].(row := row)]
    ensures s'.server.calls == map[] && s'.server.ledger == s.server.ledger && s'.server.scans == s.server.scans
    ensures s'.server.hits == s.server.hits && s'.server.reread == s.server.reread
  {
    var s1 := Then(s, Serve(P.FinishRead(ID, Success, "", TEN)));
    var s2 := Then(s1, Serve(P.FinishWrite(s.server.asked)));
    var s3 := Then(s2, Reread(s.accepted));
    s' := Then(s3, Send(s.accepted));
    assert s2.jobs[s.accepted] == Wrote(ID, Succeeded);
    assert s'.jobs == s.jobs;
    assert s2.server.calls == map[];
  }

  // The page has received two buffered events.
  lemma Drained(s: State) returns (s': State)
    requires Reachable(s) && |s.buffer| == 2
    ensures Reachable(s') && s' == s.(tasks := D.Absorb(D.Absorb(s.tasks, s.buffer[0]), s.buffer[1]), buffer := [])
  {
    var mid := Then(s, Deliver);
    s' := Then(mid, Deliver);
  }

  // The page shows the run otherwise than the server has it, for good.
  ghost predicate StaysWrong(s: State, shown: Status, stored: Status) {
    && AtRest(s) && ID in s.tasks && ID in s.server.cells
    && s.tasks[ID].status == shown && s.server.cells[ID].row.status == stored
  }

  // The heartbeat's handler has written and re-read the run, not published it.
  lemma HeartbeatUnderWay() returns (s: State, n: nat)
    ensures Reachable(s) && s.connected && s.buffer == [] && s.lost == {}
    ensures var beaten := Inserted(First()).(lastHeartbeatAt := Some(TEN));
            && s.server.cells == map[ID := P.Cell(beaten, 0)]
            && s.jobs == map[n := Holding(Event(Heartbeat, beaten), 1)]
    ensures s.accepted !in s.jobs && s.server.calls == map[] && s.server.ledger.live == map[]
    ensures s.tasks == map[ID := Inserted(First())]
  {
    var s0 := Opening();
    n := s0.accepted;
    var s1 := Then(s0, Serve(P.Heartbeat(ID, TEN)));
    assert s1.log == s0.log + [s1.server.cells[ID].row] && s1.jobs[n] == Wrote(ID, Heartbeat);
    s := Then(s1, Reread(n));
    assert LastWrite(s1.log, ID) == 1;
  }

  /**
    A heartbeat that re-reads the run before, and publishes it after, a report
    of its success leaves it on show as running.
   */
  lemma StaleHeartbeatDisagrees() returns (s: State)
    ensures Reachable(s) && StaysWrong(s, Running, Success)
  {
    var s0, n := HeartbeatUnderWay();
    var s1 := Reported(s0);
    var s2 := Then(s1, Send(n));
    assert s2.jobs == map[];
    s := Drained(s2);
  }

  // One sweep with one hit, from its start to its re-read.
  lemma OneSweep()
    ensures var l := Ledger.Begin(Ledger.EMPTY);
            && Ledger.Is(l, 0, Ledger.Scanning)
            && Ledger.Is(Ledger.Strike(l, 0), 0, Ledger.Reading(0))
            && Ledger.Reread(Ledger.Strike(l, 0), 0).live == map[0 := Ledger.Sweep(Ledger.Scanning, [0])]
  {
    assert [] + [0] == [0];
  }

  // The sweep has timed the run out and re-read it, and has no more candidates.
  lemma SweepUnderWay() returns (s: State)
    ensures Reachable(s) && s.connected && s.buffer == [] && s.lost == {} && s.jobs == map[]
    ensures var ended := TimedOut(Inserted(First()), 0, TEN);
            && s.server.cells == map[ID := P.Cell(ended, 0)]
            && 0 in s.server.reread && s.server.reread[0].row == ended && 0 in s.carried
    ensures s.server.calls == map[] && s.server.ledger.live == map[0 := Ledger.Sweep(Ledger.Scanning, [0])]
    ensures |s.server.scans| == 1 && s.server.scans[0].todo == []
    ensures s.tasks == map[ID := Inserted(First())]
  {
    var s1 := Scanned();
    var s2 := Timed(s1);
    OneSweep();
    s := Then(s2, Serve(P.SweepGet(0)));
  }

  lemma Scanned() returns (s: State)
    ensures Reachable(s) && s.connected && s.buffer == [] && s.lost == {} && s.jobs == map[]
    ensures s.server.cells == map[ID := P.Cell(Inserted(First()), 0)] && s.server.calls == map[]
    ensures s.server.ledger == Ledger.Begin(Ledger.EMPTY) && s.server.hits == []
    ensures s.server.scans == [P.Scan(TEN, s.server.cells, 1, [ID])]
    ensures s.tasks == map[ID := Inserted(First())]
  {
    var s0 := Opening();
    assert P.Orders([ID], s0.server.cells);
    s := Then(s0, Serve(P.SweepRead(TEN, [ID])));
  }

  // It is about to publish its list.
  lemma SweepDone() returns (s: State)
    ensures Reachable(s) && s.connected && s.buffer == [] && s.lost == {} && s.jobs == map[]
    ensures var ended := TimedOut(Inserted(First()), 0, TEN);
            && s.server.cells == map[ID := P.Cell(ended, 0)]
            && 0 in s.server.reread && s.server.reread[0].row == ended && 0 in s.carried
    ensures s.server.calls == map[] && s.server.ledger.live == map[0 := Ledger.Sweep(Ledger.Publishing, [0])]
    ensures s.tasks == map[ID := Inserted(First())]
  {
    var before := SweepUnderWay();
    s := Then(before, Serve(P.SweepClose(0)));
  }

  lemma Timed(s: State) returns (s': State)
    requires Reachable(s) && s.server.cells == map[ID := P.Cell(Inserted(First()), 0)]
    requires s.server.ledger == Ledger.Begin(Ledger.EMPTY) && s.server.hits == []
    requires s.server.scans == [P.Scan(TEN, s.server.cells, 1, [ID])]
    ensures Reachable(s') && s'.server.cells == map[ID := P.Cell(TimedOut(Inserted(First()), 0, TEN), 0)]
    ensures s' == s.(server := s'.server, log := s'.log, crossed := s'.crossed)
    ensures s'.server.ledger == Ledger.Strike(s.server.ledger, 0) && s'.server.hits == [P.Hit(0, ID, s.server.cells[ID])]
    ensures s'.server.calls == s.server.calls
    ensures |s'.server.scans| == 1 && s'.server.scans[0].todo == []
  {
    WrapOf(SECOND);
    assert Overdue(Inserted(First()), TEN);
    s' := Then(s, Serve(P.SweepNext(0)));
  }

  /**
    A report of success that falls between a sweep's re-read of the run and the
    publication of the sweep's list leaves it on show as timed out.
   */
  lemma LateSweepDisagrees() returns (s: State)
    ensures Reachable(s) && StaysWrong(s, Timeout, Success)
  {
    var s0 := SweepDone();
    var s1 := Reported(s0);
    var s2 := Published(s1);
    s := Drained(s2);
  }

  lemma Published(s: State) returns (s': State)
    requires Reachable(s) && s.server.ledger.live == map[0 := Ledger.Sweep(Ledger.Publishing, [0])]
    requires 0 in s.server.reread && 0 in s.carried && s.connected && |s.buffer| == 1
    requires s.lost == {} && s.server.reread[0].row.runId == ID
    ensures Reachable(s') && s'.server.ledger.live == map[] && s'.server.cells == s.server.cells
    ensures s'.server.calls == s.server.calls && s'.jobs == s.jobs && s'.tasks == s.tasks && s'.lost == {}
    ensures s'.buffer == s.buffer + [Event(TimedOutEvent, s.server.reread[0].row)]
  {
    var s1 := FirstPublished(s);
    s' := Then(s1, Serve(P.Publish(0)));
  }

  lemma FirstPublished(s: State) returns (s': State)
    requires Reachable(s) && s.server.ledger.live == map[0 := Ledger.Sweep(Ledger.Publishing, [0])]
    requires 0 in s.server.reread && 0 in s.carried && s.connected && |s.buffer| == 1
    requires s.lost == {} && s.server.reread[0].row.runId == ID
    ensures Reachable(s') && s'.server.ledger.live == map[0 := Ledger.Sweep(Ledger.Publishing, [])]
    ensures s'.server.cells == s.server.cells && s'.server.calls == s.server.calls
    ensures s'.jobs == s.jobs && s'.tasks == s.tasks && s'.lost == {}
    ensures s'.buffer == s.buffer + [Event(TimedOutEvent, s.server.reread[0].row)]
  {
    assert [0][1..] == [];
    s' := Then(s, Serve(P.Publish(0)));
  }
}
