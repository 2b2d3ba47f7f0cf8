/** The dashboard's copy of the task table, kept up to date by events. */
module Dashboards {
  import opened Options
  import opened Clock
  import opened TaskRuns
  import opened Broker

  // ---------- the client ----------

  // It listens to the task events only, and keeps the latest task per run id.
  function Absorb(tasks: Table, e: Event): Table {
    if e.kind == ScheduleMissed then tasks else tasks[e.task.runId := e.task]
  }

  function AbsorbAll(tasks: Table, events: seq<Event>): Table {
    if events == [] then tasks else Absorb(AbsorbAll(tasks, events[..|events| - 1]), events[|events| - 1])
  }

  lemma {:induction false} AbsorbFirst(tasks: Table, events: seq<Event>)
    requires events != []
    ensures AbsorbAll(tasks, events) == AbsorbAll(Absorb(tasks, events[0]), events[1..])
  {
    var n := |events| - 1;
    if n == 0 {
      assert events[..0] == [];
    } else {
      AbsorbFirst(tasks, events[..n]);
      assert events[..n][1..] == events[1..][..n - 1];
    }
  }

  function Loaded(tasks: Table, list: seq<TaskRun>): Table {
    if list == [] then tasks else Loaded(tasks, list[..|list| - 1])[list[|list| - 1].runId := list[|list| - 1]]
  }

  ghost predicate Listed(list: seq<TaskRun>, id: string) {
    exists i :: 0 <= i < |list| && list[i].runId == id
  }

  // No later task in the list has the run id of this one.
  ghost predicate Latest(list: seq<TaskRun>, i: nat)
    requires i < |list|
  {
    forall j :: i < j < |list| ==> list[j].runId != list[i].runId
  }

  // The table after loading a list: the last task listed under a run id, or
  // what was there before.
  ghost predicate Loads(before: Table, list: seq<TaskRun>, after: Table) {
    && (forall id :: id in after <==> id in before || Listed(list, id))
    && (forall id :: id in before && !Listed(list, id) ==> after[id] == before[id])
    && (forall i :: 0 <= i < |list| && Latest(list, i) ==> after[list[i].runId] == list[i])
  }

  lemma ListedMore(list: seq<TaskRun>, task: TaskRun, id: string)
    ensures Listed(list + [task], id) <==> Listed(list, id) || task.runId == id
  {
    var longer := list + [task];
    assert longer[|list|] == task;
    if Listed(list, id) {
      var i :| 0 <= i < |list| && list[i].runId == id;
      assert longer[i].runId == id;
    }
  }

  lemma LoadsMore(before: Table, list: seq<TaskRun>, after: Table, task: TaskRun)
    requires Loads(before, list, after)
    ensures Loads(before, list + [task], after[task.runId := task])
  {
    var longer, after' := list + [task], after[task.runId := task];
    forall id ensures Listed(longer, id) <==> Listed(list, id) || task.runId == id {
      ListedMore(list, task, id);
    }
    forall i | 0 <= i < |longer| && Latest(longer, i) ensures after'[longer[i].runId] == longer[i] {
      if i < |list| {
        assert longer[|list|] == task && forall j :: i < j < |list| ==> longer[j] == list[j];
        assert Latest(list, i);
      }
    }
  }

  lemma {:induction false} LoadedMeans(tasks: Table, list: seq<TaskRun>)
    ensures Loads(tasks, list, Loaded(tasks, list))
  {
    if list != [] {
      var before, last := list[..|list| - 1], list[|list| - 1];
      LoadedMeans(tasks, before);
      LoadsMore(tasks, before, Loaded(tasks, before), last);
      LoadedMore(tasks, list, before, last);
    }
  }

  lemma LoadedMore(tasks: Table, list: seq<TaskRun>, before: seq<TaskRun>, last: TaskRun)
    requires list != [] && before == list[..|list| - 1] && last == list[|list| - 1]
    ensures before + [last] == list && Loaded(tasks, list) == Loaded(tasks, before)[last.runId := last]
  {
  }

  class Dashboard {
    var tasks: Table

    constructor ()
      ensures tasks == map[]
    {
      tasks := map[];
    }

    method Upsert(task: TaskRun)
      modifies this
      ensures tasks == old(tasks)[task.runId := task]
    {
      tasks := tasks[task.runId := task];
    }

    method LoadInitial(list: seq<TaskRun>)
      modifies this
      ensures tasks == Loaded(old(tasks), list) && Loads(old(tasks), list, tasks)
    {
      for i := 0 to |list|
        invariant tasks == Loaded(old(tasks), list[..i])
      {
        assert list[..i + 1][..i] == list[..i];
        Upsert(list[i]);
      }
      assert list[..|list|] == list;
      LoadedMeans(old(tasks), list);
    }

    method OnEvent(e: Event)
      modifies this
      ensures tasks == Absorb(old(tasks), e)
      ensures e.kind == Started || e.kind == Heartbeat || e.kind == Succeeded || e.kind == Failure || e.kind == TimedOutEvent ==>
        tasks == old(tasks)[e.task.runId := e.task]
      ensures e.kind == ScheduleMissed ==> tasks == old(tasks)
    {
      if e.kind != ScheduleMissed {
        Upsert(e.task);
      }
    }
  }

  // ---------- server and client together ----------

  // The events an operation on the server publishes. A sweep publishes the
  // rows it changed in some order; a start publishes what the handler built;
  // retention is silent.
  ghost predicate Publishes(t: Table, op: Operation, events: seq<Event>) {
    var t' := Perform(t, op);
    match op
    case Start(run) => events == if run.runId in t then [] else [Event(Started, run.(lastHeartbeatAt := Some(run.startedAt)))]
    case Beat(id, _) => events == if id in t && t[id].status == Running then [Event(Heartbeat, t'[id])] else []
    case Report(id, status, _, _) =>
      events == if id in t then [Event(if status == Success then Succeeded else Failure, t'[id])] else []
    case Sweep(now) => TimeoutEvents(t', OverdueIds(t, now), events)
    case Clean(_) => events == []
  }

  ghost predicate TimeoutEvents(t: Table, ids: set<string>, events: seq<Event>) {
    && (forall i :: 0 <= i < |events| ==> events[i].kind == TimedOutEvent)
    && Lists(seq(|events|, i requires 0 <= i < |events| => events[i].task), t, ids)
  }

  // The rows after an operation that changed the table and then failed to
  // re-read what it changed: a heartbeat or a report, or a sweep that stopped
  // after some of its updates. Nothing is published.
  ghost function Silent(t: Table, op: Operation, ids: set<string>): Table {
    match op
    case Beat(_, _) => Perform(t, op)
    case Report(_, _, _, _) => Perform(t, op)
    case Sweep(now) => SweepOnly(t, now, ids * OverdueIds(t, now))
    case _ => t
  }

  // lost: the runs whose last change was never sent, or whose last event found
  // the subscription's buffer full.
  datatype State = State(rows: Table, buffer: seq<Event>, tasks: Table, lost: set<string>)

  datatype Action =
    | Serve(op: Operation, events: seq<Event>)
    | ServeSilently(op: Operation, ids: set<string>)
    | ScheduleAlert(task: TaskRun)
    | Deliver

  ghost function SendOne(s: State, e: Event): State {
    var fits := |s.buffer| < CAPACITY;
    s.(buffer := Offer(s.buffer, e),
       lost := if e.kind == ScheduleMissed then s.lost else if fits then s.lost - {e.task.runId} else s.lost + {e.task.runId})
  }

  ghost function Send(s: State, events: seq<Event>): State {
    if events == [] then s else SendOne(Send(s, events[..|events| - 1]), events[|events| - 1])
  }

  ghost function Next(s: State, a: Action): State {
    match a
    case Serve(op, events) =>
      if op.FromHandlers() && Publishes(s.rows, op, events) then Send(s.(rows := Perform(s.rows, op)), events) else s
    case ServeSilently(op, ids) =>
      if op.FromHandlers() then
        var rows := Silent(s.rows, op, ids);
        s.(rows := rows, lost := s.lost + set id | id in rows && id in s.rows && rows[id] != s.rows[id])
      else s
    case ScheduleAlert(task) => SendOne(s, Event(ScheduleMissed, task))
    case Deliver =>
      if s.buffer == [] then s else s.(tasks := Absorb(s.tasks, s.buffer[0]), buffer := s.buffer[1..])
  }

  // The page has loaded some of the rows and subscribed, with nothing between.
  ghost function Opened(rows: Table, loaded: set<string>): State {
    State(rows, [], map id | id in rows && id in loaded :: rows[id], {})
  }

  /** That is the page after loading any list of those rows. */
  lemma OpenedByLoading(rows: Table, loaded: set<string>, list: seq<TaskRun>)
    requires Keyed(rows) && loaded <= rows.Keys && Lists(list, rows, loaded)
    ensures Loaded(map[], list) == Opened(rows, loaded).tasks
  {
    LoadedMeans(map[], list);
    var tasks := Loaded(map[], list);
    forall id ensures Listed(list, id) <==> id in loaded {
      if id in loaded {
        var i :| 0 <= i < |list| && list[i].runId == id;
      }
    }
    forall id | id in loaded ensures tasks[id] == rows[id] {
      var i :| 0 <= i < |list| && list[i].runId == id;
      assert Latest(list, i);
    }
  }

  ghost function Run(rows: Table, loaded: set<string>, actions: seq<Action>): State {
    if actions == [] then Opened(rows, loaded)
    else Next(Run(rows, loaded, actions[..|actions| - 1]), actions[|actions| - 1])
  }

  // ---------- agreement ----------

  // A known row is exact, an unknown one as it was when the page opened, and a
  // run that is only on the dashboard any more is not shown as running.
  ghost predicate AgreesOn(rows: Table, tasks: Table, opening: Table, id: string) {
    && (id in rows && id in tasks ==> tasks[id] == rows[id])
    && (id in rows && id !in tasks ==> id in opening && rows[id] == opening[id])
    && (id in tasks && id !in rows ==> tasks[id].status != Running)
  }

  ghost predicate Agrees(rows: Table, tasks: Table, opening: Table, lost: set<string>) {
    forall id :: id !in lost ==> AgreesOn(rows, tasks, opening, id)
  }

  ghost predicate Inv(s: State, opening: Table) {
    AllLawful(s.rows) && Agrees(s.rows, AbsorbAll(s.tasks, s.buffer), opening, s.lost)
  }

  // Any sequence of events that carries the new row of every changed id, and
  // nothing else, carries agreement over.
  ghost predicate Carries(t': Table, events: seq<Event>) {
    forall i :: 0 <= i < |events| ==>
      events[i].kind != ScheduleMissed && events[i].task.runId in t' && events[i].task == t'[events[i].task.runId]
  }

  ghost predicate Named(events: seq<Event>, id: string) {
    exists i :: 0 <= i < |events| && events[i].task.runId == id
  }

  ghost predicate Covers(t: Table, t': Table, events: seq<Event>) {
    && Carries(t', events)
    && (forall id :: id in t' && (id !in t || t'[id] != t[id]) ==> Named(events, id))
    && (forall id :: id in t && id !in t' ==> t[id].status != Running)
  }

  lemma Offered(tasks: Table, buffer: seq<Event>, e: Event)
    ensures AbsorbAll(tasks, Offer(buffer, e)) ==
      if |buffer| < CAPACITY then Absorb(AbsorbAll(tasks, buffer), e) else AbsorbAll(tasks, buffer)
  {
    if |buffer| < CAPACITY {
      assert (buffer + [e])[..|buffer|] == buffer;
    }
  }

  // What sending does to the page's view of one run.
  lemma SendOneShows(s: State, e: Event, id: string)
    requires e.kind != ScheduleMissed
    ensures var s' := SendOne(s, e); var shown, shown' := AbsorbAll(s.tasks, s.buffer), AbsorbAll(s'.tasks, s'.buffer);
            && s'.rows == s.rows && s'.tasks == s.tasks
            && (e.task.runId == id && id !in s'.lost ==> id in shown' && shown'[id] == e.task)
            && (e.task.runId != id ==> Alike(s.lost, shown, s'.lost, shown', id))
  {
    Offered(s.tasks, s.buffer, e);
  }

  ghost predicate Alike(lost: set<string>, shown: Table, lost': set<string>, shown': Table, id: string) {
    && (id in lost' <==> id in lost)
    && (id in shown' <==> id in shown) && (id in shown ==> shown'[id] == shown[id])
  }

  lemma {:induction false} SendShows(s: State, events: seq<Event>, id: string)
    requires Carries(s.rows, events)
    ensures var s' := Send(s, events); var shown, shown' := AbsorbAll(s.tasks, s.buffer), AbsorbAll(s'.tasks, s'.buffer);
            && s'.rows == s.rows && s'.tasks == s.tasks
            && (Named(events, id) && id !in s'.lost ==> id in s.rows && id in shown' && shown'[id] == s.rows[id])
            && (!Named(events, id) ==> Alike(s.lost, shown, s'.lost, shown', id))
  {
    if events != [] {
      var n := |events| - 1;
      var before, e := events[..n], events[n];
      assert forall i :: 0 <= i < n ==> before[i] == events[i];
      SendShows(s, before, id);
      SendOneShows(Send(s, before), e, id);
      assert Named(events, id) <==> Named(before, id) || e.task.runId == id;
    }
  }

  /**
    Every operation that meets no database error publishes the new row of every
    run it changes, and nothing else.
   */
  lemma EveryChangeIsPublished(t: Table, op: Operation, events: seq<Event>)
    requires AllLawful(t) && op.FromHandlers() && Publishes(t, op, events)
    ensures Covers(t, Perform(t, op), events)
  {
    var t' := Perform(t, op);
    match op
    case Sweep(now) =>
      var tasks := seq(|events|, i requires 0 <= i < |events| => events[i].task);
      forall i | 0 <= i < |events|
        ensures events[i].kind != ScheduleMissed && events[i].task.runId in t' && events[i].task == t'[events[i].task.runId]
      {
        assert tasks[i] == events[i].task;
      }
      forall id | id in t' && t'[id] != t[id] ensures Named(events, id) {
        var i :| 0 <= i < |tasks| && tasks[i].runId == id;
        assert events[i].task.runId == id;
      }
    case Clean(cutoff) =>
    case Start(run) =>
      if run.runId !in t {
        assert events[0].task.runId == run.runId;
      }
    case Beat(id, at) =>
      if id in t && t[id].status == Running {
        assert events[0].task.runId == id;
      }
    case Report(id, status, message, at) =>
      if id in t {
        assert events[0].task.runId == id;
      }
  }

  lemma ServeKeeps(s: State, op: Operation, events: seq<Event>, opening: Table)
    requires Inv(s, opening) && op.FromHandlers() && Publishes(s.rows, op, events)
    ensures Inv(Send(s.(rows := Perform(s.rows, op)), events), opening)
  {
    var mid := s.(rows := Perform(s.rows, op));
    var s' := Send(mid, events);
    PerformLawful(s.rows, op);
    EveryChangeIsPublished(s.rows, op, events);
    SendShows(mid, events, "");
    forall id | id !in s'.lost ensures AgreesOn(mid.rows, AbsorbAll(s'.tasks, s'.buffer), opening, id) {
      SendShows(mid, events, id);
      assert id !in s.lost ==> AgreesOn(s.rows, AbsorbAll(s.tasks, s.buffer), opening, id);
    }
  }

  lemma SilentLawful(t: Table, op: Operation, ids: set<string>)
    requires AllLawful(t) && op.FromHandlers()
    ensures AllLawful(Silent(t, op, ids)) && Silent(t, op, ids).Keys == t.Keys
  {
  }

  lemma SilentKeeps(s: State, op: Operation, ids: set<string>, opening: Table)
    requires Inv(s, opening)
    ensures Inv(Next(s, ServeSilently(op, ids)), opening)
  {
    if op.FromHandlers() {
      SilentLawful(s.rows, op, ids);
      var s' := Next(s, ServeSilently(op, ids));
      forall id | id !in s'.lost ensures AgreesOn(s'.rows, AbsorbAll(s'.tasks, s'.buffer), opening, id) {
        assert AgreesOn(s.rows, AbsorbAll(s.tasks, s.buffer), opening, id);
      }
    }
  }

  lemma {:induction false} SendIsTheHubs(s: State, events: seq<Event>)
    ensures Send(s, events).buffer == OfferAll(s.buffer, events)
    ensures Send(s, events).rows == s.rows && Send(s, events).tasks == s.tasks
  {
    if events != [] {
      SendIsTheHubs(s, events[..|events| - 1]);
    }
  }

  // With room for them all, sending settles the runs of the events.
  lemma {:induction false} SendWithRoom(s: State, events: seq<Event>)
    requires |s.buffer| + |events| <= 16 && forall i :: 0 <= i < |events| ==> events[i].kind != ScheduleMissed
    ensures Send(s, events).buffer == s.buffer + events
    ensures forall id :: id in Send(s, events).lost <==> id in s.lost && !Named(events, id)
  {
    if events != [] {
      var n := |events| - 1;
      SendWithRoom(s, events[..n]);
      assert events[..n] + [events[n]] == events && s.buffer + events[..n] + [events[n]] == s.buffer + events;
      forall id ensures Named(events, id) <==> Named(events[..n], id) || events[n].task.runId == id {
        if Named(events[..n], id) {
          var i :| 0 <= i < n && events[..n][i].task.runId == id;
          assert events[i].task.runId == id;
        }
      }
    }
  }

  /**
    The steps taken here are the handlers' and the hub's: an operation leaves
    the rows and the subscription's buffer as the handlers leave them, and the
    page receives in order. With room for its events, an operation loses no run,
    and settles those it changes.
   */
  lemma StepsAreTheHandlers(s: State, op: Operation, events: seq<Event>)
    requires op.FromHandlers()
    ensures Publishes(s.rows, op, events) ==>
      var s' := Next(s, Serve(op, events));
      && s'.rows == Perform(s.rows, op) && s'.buffer == OfferAll(s.buffer, events) && s'.tasks == s.tasks
      && (|s.buffer| + |events| <= 16 ==> forall id :: id in s'.lost <==> id in s.lost && !Named(events, id))
    ensures s.buffer != [] ==>
      var s' := Next(s, Deliver);
      && s'.rows == s.rows && [s.buffer[0]] + s'.buffer == s.buffer && s'.tasks == Absorb(s.tasks, s.buffer[0])
      && s'.lost == s.lost
  {
    if Publishes(s.rows, op, events) {
      SendIsTheHubs(s.(rows := Perform(s.rows, op)), events);
      if |s.buffer| + |events| <= 16 {
        SendWithRoom(s.(rows := Perform(s.rows, op)), events);
      }
    }
  }

  /**
    A heartbeat or a report that cannot re-read its row, and a sweep that stops
    on an error after some of its updates, leave the rows as the handlers leave
    them and the buffer alone, and lose only the runs they changed.
   */
  lemma SilentIsTheHandlers(s: State, op: Operation, ids: set<string>)
    requires op.FromHandlers()
    ensures var s' := Next(s, ServeSilently(op, ids));
            && (op.Beat? || op.Report? ==> s' == s.(rows := Perform(s.rows, op), lost := s'.lost) && s'.lost <= s.lost + {op.id})
            && (op.Sweep? && ids <= OverdueIds(s.rows, op.now) ==>
                  s' == s.(rows := SweepOnly(s.rows, op.now, ids), lost := s'.lost) && s'.lost <= s.lost + ids)
  {
    if op.Sweep? && ids <= OverdueIds(s.rows, op.now) {
      assert ids * OverdueIds(s.rows, op.now) == ids;
    }
  }

  lemma StepKeeps(s: State, a: Action, opening: Table)
    requires Inv(s, opening)
    ensures Inv(Next(s, a), opening)
  {
    match a
    case Serve(op, events) =>
      if op.FromHandlers() && Publishes(s.rows, op, events) {
        ServeKeeps(s, op, events, opening);
      }
    case ServeSilently(op, ids) => SilentKeeps(s, op, ids, opening);
    case ScheduleAlert(task) => Offered(s.tasks, s.buffer, Event(ScheduleMissed, task));
    case Deliver =>
      if s.buffer != [] {
        AbsorbFirst(s.tasks, s.buffer);
      }
  }

  lemma {:induction false} RunKeeps(rows: Table, loaded: set<string>, actions: seq<Action>)
    requires AllLawful(rows)
    ensures Inv(Run(rows, loaded, actions), rows)
  {
    if actions != [] {
      RunKeeps(rows, loaded, actions[..|actions| - 1]);
      StepKeeps(Run(rows, loaded, actions[..|actions| - 1]), actions[|actions| - 1], rows);
    }
  }

  /**
    For every run but those whose last change was not sent or was dropped, the
    dashboard with its buffered events applied in order shows the server's row
    if it knows the run and the row still exists; a run it does not know has not
    changed since the page opened; and one that retention deleted is never left
    showing as running. Once the buffer has drained, that is what the page shows.
   */
  lemma DashboardAgrees(rows: Table, loaded: set<string>, actions: seq<Action>)
    requires AllLawful(rows)
    ensures var s := Run(rows, loaded, actions); Agrees(s.rows, AbsorbAll(s.tasks, s.buffer), rows, s.lost)
    ensures var s := Run(rows, loaded, actions); s.buffer == [] ==> Agrees(s.rows, s.tasks, rows, s.lost)
  {
    RunKeeps(rows, loaded, actions);
  }
}
