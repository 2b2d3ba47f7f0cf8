/**
  The HTTP handlers and the background workers, each a sequence of store
  operations and publications. Run one at a time, each is the atomic operation
  that the dashboard's agreement is stated for.
 */
module Handlers {
  import opened Options
  import opened Clock
  import opened TaskRuns
  import opened TaskStores
  import opened Broker
  import opened Dashboards
  import S = Schedules
  import opened ScheduleStores
  import opened Database

  datatype Response = Created(runId: string) | NoContent | BadRequest | NotFoundResponse | InternalError

  function Respond(err: Option<StoreError>): Response {
    match err
    case None => NoContent
    case Some(NotFound) => NotFoundResponse
    case Some(_) => InternalError
  }

  lemma OfferOne(buffer: seq<Event>, e: Event)
    ensures OfferAll(buffer, [e]) == Offer(buffer, e)
    ensures OfferAll(buffer, []) == buffer
  {
    assert [e][..0] == [];
  }

  class TaskHandler {
    const store: TaskStore
    const schedules: ScheduleStore
    const hub: Hub

    ghost predicate Valid()
      reads this, store, schedules, hub, hub.subs
    {
      store.Valid() && schedules.Valid() && hub.Valid()
    }

    constructor (store: TaskStore, schedules: ScheduleStore, hub: Hub)
      requires store.Valid() && schedules.Valid() && hub.Valid()
      ensures Valid() && this.store == store && this.schedules == schedules && this.hub == hub
    {
      this.store, this.schedules, this.hub := store, schedules, hub;
    }

    // uuid stands for the id generated when the request names none. The touch
    // of the schedule is best effort: its failure does not fail the request.
    method Start(taskName: string, requested: string, uuid: string, source: string, ttl: Option<int64>, now: Time,
                 refused: bool, touchRefused: bool)
      returns (response: Response, ghost events: seq<Event>)
      requires Valid()
      modifies store, schedules, hub.subs`buffer
      ensures Valid()
      ensures var run := NewRun(if requested == "" then uuid else requested, taskName, source, now, ttl);
              var inserted := taskName != "" && !refused && run.runId !in old(store.rows);
              && response == (if taskName == "" then BadRequest else if inserted then Created(run.runId) else InternalError)
              && (inserted ==> Publishes(old(store.rows), Operation.Start(run), events))
              && (!inserted ==> events == [])
              && store.rows == (if inserted then Perform(old(store.rows), Operation.Start(run)) else old(store.rows))
              && schedules.rows ==
                   (if inserted && !touchRefused then S.Touched(old(schedules.rows), taskName, now) else old(schedules.rows))
              && Operation.Start(run).FromHandlers()
      ensures response.Created? ==>
        && response.runId == (if requested == "" then uuid else requested) && response.runId !in old(store.rows)
        && var row := TaskRun(response.runId, taskName, source, Running, now, None, Some(now), ttl, None, "");
        && store.rows == old(store.rows)[response.runId := row]
        && events == [Event(Started, row)]
      ensures forall ch :: ch in hub.subs ==> ch.buffer == OfferAll(old(ch.buffer), events)
    {
      events := [];
      if taskName == "" {
        return BadRequest, events;
      }
      var runId := requested;
      if runId == "" {
        runId := uuid;
      }
      var task := NewRun(runId, taskName, source, now, ttl);
      var err := store.Create(task, refused);
      if err != None {
        return InternalError, events;
      }
      task := task.(lastHeartbeatAt := Some(task.startedAt));
      hub.Publish(Event(Started, task));
      events := [Event(Started, task)];
      forall ch | ch in hub.subs ensures ch.buffer == OfferAll(old(ch.buffer), events) {
        OfferOne(old(ch.buffer), Event(Started, task));
      }
      var _ := schedules.Touch(taskName, now, touchRefused);
      return Created(runId), events;
    }

    method Heartbeat(runId: string, now: Time, refused: bool, rereadRefused: bool)
      returns (response: Response, ghost events: seq<Event>)
      requires Valid()
      modifies store, hub.subs`buffer
      ensures Valid()
      ensures response == if runId == "" then BadRequest else if refused then InternalError
                          else if runId in old(store.rows) && old(store.rows)[runId].status == Running then NoContent
                          else NotFoundResponse
      ensures store.rows == if response.NoContent? then Perform(old(store.rows), Beat(runId, now)) else old(store.rows)
      ensures response.NoContent? && !rereadRefused ==> Publishes(old(store.rows), Beat(runId, now), events)
      ensures !response.NoContent? || rereadRefused ==> events == []
      ensures response.NoContent? ==>
        var row := old(store.rows)[runId].(lastHeartbeatAt := Some(now));
        && store.rows == old(store.rows)[runId := row]
        && (!rereadRefused ==> events == [Event(EventType.Heartbeat, row)])
      ensures forall ch :: ch in hub.subs ==> ch.buffer == OfferAll(old(ch.buffer), events)
    {
      events := [];
      if runId == "" {
        return BadRequest, events;
      }
      var err := store.Heartbeat(runId, now, refused);
      response := Respond(err);
      if err != None {
        return;
      }
      events := PublishLatest(runId, EventType.Heartbeat, rereadRefused);
    }

    method Success(runId: string, now: Time, readRefused: bool, refused: bool, rereadRefused: bool)
      returns (response: Response, ghost events: seq<Event>)
      requires Valid()
      modifies store, hub.subs`buffer
      ensures Valid()
      ensures Reported(response, events, runId, Status.Success, "", now, readRefused, refused, rereadRefused, old(store.rows))
      ensures response.NoContent? ==>
        var r := old(store.rows)[runId];
        var row := r.(status := Status.Success, finishedAt := Some(now), errorMessage := "",
                      durationMs := Some(Milliseconds(Sub(now, r.startedAt))));
        && store.rows == old(store.rows)[runId := row]
        && (!rereadRefused ==> events == [Event(Succeeded, row)])
      ensures forall ch :: ch in hub.subs ==> ch.buffer == OfferAll(old(ch.buffer), events)
    {
      events := [];
      if runId == "" {
        return BadRequest, events;
      }
      var err := store.Finish(runId, Status.Success, "", now, readRefused, refused);
      response := Respond(err);
      if err != None {
        return;
      }
      events := PublishLatest(runId, Succeeded, rereadRefused);
    }

    method Failed(runId: string, message: string, now: Time, readRefused: bool, refused: bool, rereadRefused: bool)
      returns (response: Response, ghost events: seq<Event>)
      requires Valid()
      modifies store, hub.subs`buffer
      ensures Valid()
      ensures Reported(response, events, runId, Status.Failed, message, now, readRefused, refused, rereadRefused, old(store.rows))
      ensures response.NoContent? ==>
        var r := old(store.rows)[runId];
        var row := r.(status := Status.Failed, finishedAt := Some(now), errorMessage := message,
                      durationMs := Some(Milliseconds(Sub(now, r.startedAt))));
        && store.rows == old(store.rows)[runId := row]
        && (!rereadRefused ==> events == [Event(Failure, row)])
      ensures forall ch :: ch in hub.subs ==> ch.buffer == OfferAll(old(ch.buffer), events)
    {
      events := [];
      if runId == "" {
        return BadRequest, events;
      }
      var err := store.Finish(runId, Status.Failed, message, now, readRefused, refused);
      response := Respond(err);
      if err != None {
        return;
      }
      events := PublishLatest(runId, Failure, rereadRefused);
    }

    // What both reports do: one operation, published in full unless the
    // re-read fails.
    ghost predicate Reported(response: Response, events: seq<Event>, runId: string, status: Status, message: string, now: Time,
                             readRefused: bool, refused: bool, rereadRefused: bool, before: Table)
      reads store
    {
      && response == (if runId == "" then BadRequest else if readRefused then InternalError
                      else if runId !in before then NotFoundResponse else if refused then InternalError else NoContent)
      && store.rows == (if response.NoContent? then Perform(before, Report(runId, status, message, now)) else before)
      && (response.NoContent? && !rereadRefused ==> Publishes(before, Report(runId, status, message, now), events))
      && (!response.NoContent? || rereadRefused ==> events == [])
    }

    // Errors are swallowed: the request has already succeeded.
    method PublishLatest(runId: string, kind: EventType, refused: bool) returns (ghost events: seq<Event>)
      requires Valid()
      modifies hub.subs`buffer
      ensures Valid()
      ensures events == if runId in store.rows && !refused then [Event(kind, store.rows[runId])] else []
      ensures forall ch :: ch in hub.subs ==> ch.buffer == OfferAll(old(ch.buffer), events)
    {
      events := [];
      var task := store.Get(runId);
      if task == None || refused {
        return;
      }
      hub.Publish(Event(kind, task.value));
      events := [Event(kind, task.value)];
      forall ch | ch in hub.subs ensures ch.buffer == OfferAll(old(ch.buffer), events) {
        OfferOne(old(ch.buffer), Event(kind, task.value));
      }
    }
  }

  // Offers a list of events one after another.
  lemma OfferMore(buffer: seq<Event>, events: seq<Event>, n: nat)
    requires n < |events|
    ensures OfferAll(buffer, events[..n + 1]) == Offer(OfferAll(buffer, events[..n]), events[n])
  {
    assert events[..n + 1][..n] == events[..n];
  }

  class Sweeper {
    const store: TaskStore
    const hub: Hub

    constructor (store: TaskStore, hub: Hub)
      ensures this.store == store && this.hub == hub
    {
      this.store, this.hub := store, hub;
    }

    // On an error the partial list is discarded and nothing is published.
    method SweepOnce(now: Time, faults: Faults) returns (runIds: seq<string>, failed: bool, ghost events: seq<Event>)
      requires store.Valid() && hub.Valid()
      modifies store, hub.subs`buffer
      ensures store.Valid() && hub.Valid()
      ensures !failed ==> store.rows == Perform(old(store.rows), Sweep(now)) && Publishes(old(store.rows), Sweep(now), events)
      ensures failed ==> events == [] && exists ids ::
        ids <= OverdueIds(old(store.rows), now) && store.rows == SweepOnly(old(store.rows), now, ids)
      ensures |runIds| == |events| && forall i :: 0 <= i < |events| ==> runIds[i] == events[i].task.runId
      ensures forall i :: 0 <= i < |events| ==>
        && events[i].kind == TimedOutEvent && events[i].task.status == Timeout && events[i].task.finishedAt == Some(now)
        && runIds[i] in store.rows && events[i].task == store.rows[runIds[i]] && old(store.rows)[runIds[i]].status == Running
      ensures forall i, j :: 0 <= i < j < |runIds| ==> runIds[i] != runIds[j]
      ensures store.rows.Keys == old(store.rows).Keys
      ensures forall id :: id in store.rows && store.rows[id] != old(store.rows)[id] ==> failed || id in runIds
      ensures forall ch :: ch in hub.subs ==> ch.buffer == OfferAll(old(ch.buffer), events)
    {
      runIds, events := [], [];
      var tasks;
      ghost var changed, listed;
      tasks, failed, changed, listed := store.SweepTimeouts(now, faults);
      if failed {
        return;
      }
      runIds, events := PublishTimeouts(tasks);
      SweepPublishes(old(store.rows), now, tasks);
    }

    method PublishTimeouts(tasks: seq<TaskRun>) returns (runIds: seq<string>, ghost events: seq<Event>)
      requires hub.Valid()
      modifies hub.subs`buffer
      ensures hub.Valid() && events == Timeouts(tasks)
      ensures |runIds| == |tasks| && forall i :: 0 <= i < |tasks| ==> runIds[i] == tasks[i].runId
      ensures forall ch :: ch in hub.subs ==> ch.buffer == OfferAll(old(ch.buffer), events)
    {
      runIds, events := [], Timeouts(tasks);
      for i := 0 to |tasks|
        invariant |runIds| == i && forall j :: 0 <= j < i ==> runIds[j] == tasks[j].runId
        invariant hub.Valid()
        invariant forall ch :: ch in hub.subs ==> ch.buffer == OfferAll(old(ch.buffer), events[..i])
      {
        runIds := runIds + [tasks[i].runId];
        hub.Publish(Event(TimedOutEvent, tasks[i]));
        forall ch | ch in hub.subs ensures ch.buffer == OfferAll(old(ch.buffer), events[..i + 1]) {
          OfferMore(old(ch.buffer), events, i);
        }
      }
      assert events[..|tasks|] == events;
    }
  }

  function Timeouts(tasks: seq<TaskRun>): seq<Event> {
    seq(|tasks|, i requires 0 <= i < |tasks| => Event(TimedOutEvent, tasks[i]))
  }

  lemma SweepPublishes(t: Table, now: Time, tasks: seq<TaskRun>)
    requires Lists(tasks, SweepTable(t, now), OverdueIds(t, now))
    ensures Publishes(t, Sweep(now), Timeouts(tasks))
  {
    var events := Timeouts(tasks);
    assert seq(|events|, i requires 0 <= i < |events| => events[i].task) == tasks;
  }

  // A synthetic record that carries a missed schedule through the alert path;
  // the wording of its message is a parameter.
  function ToAlertTask(s: S.Schedule, describe: S.Schedule -> string): TaskRun {
    TaskRun("", s.taskName, "", Status.Missed, 0, None, None, None, None, describe(s))
  }

  class Detector {
    const store: ScheduleStore
    const hub: Hub

    constructor (store: ScheduleStore, hub: Hub)
      ensures this.store == store && this.hub == hub
    {
      this.store, this.hub := store, hub;
    }

    // One alert event for each row the check flagged, or none after an error.
    method CheckOnce(cron: S.Cron, describe: S.Schedule -> string, now: Time, faults: Faults)
      returns (missed: seq<S.Schedule>, failed: bool, ghost events: seq<Event>)
      requires store.Valid() && hub.Valid()
      modifies store, hub.subs`buffer
      ensures store.Valid() && hub.Valid()
      ensures !failed ==>
        && store.rows == S.Detected(cron, old(store.rows), now)
        && S.Lists(missed, store.rows, S.OverdueNames(cron, old(store.rows), now))
        && |events| == |missed|
        && (forall i :: 0 <= i < |events| ==> events[i] == Event(ScheduleMissed, ToAlertTask(missed[i], describe)))
        && (forall i :: 0 <= i < |events| ==>
              && events[i].kind == ScheduleMissed && events[i].task.taskName == missed[i].taskName
              && events[i].task.status == Status.Missed && events[i].task.errorMessage == describe(missed[i])
              && events[i].task.runId == "" && events[i].task.source == "" && events[i].task.startedAt == 0
              && events[i].task.finishedAt == None && events[i].task.lastHeartbeatAt == None
              && events[i].task.ttlSeconds == None && events[i].task.durationMs == None)
        && (forall i :: 0 <= i < |missed| ==>
              && missed[i].taskName in old(store.rows) && old(store.rows)[missed[i].taskName].health == S.Ok
              && missed[i] == old(store.rows)[missed[i].taskName].(health := S.Missed, updatedAt := now)
              && store.rows[missed[i].taskName] == missed[i])
        && (forall name :: name in old(store.rows) && !(exists i :: 0 <= i < |missed| && missed[i].taskName == name) ==>
              name in store.rows && store.rows[name] == old(store.rows)[name])
      ensures failed ==> events == [] && exists names ::
        names <= S.OverdueNames(cron, old(store.rows), now) && store.rows == S.FlagOnly(old(store.rows), now, names)
      ensures forall ch :: ch in hub.subs ==> ch.buffer == OfferAll(old(ch.buffer), events)
    {
      events := [];
      ghost var changed, listed;
      missed, failed, changed, listed := store.DetectMissed(cron, now, faults);
      if failed {
        return;
      }
      events := seq(|missed|, i requires 0 <= i < |missed| => Event(ScheduleMissed, ToAlertTask(missed[i], describe)));
      for i := 0 to |missed|
        invariant hub.Valid()
        invariant forall ch :: ch in hub.subs ==> ch.buffer == OfferAll(old(ch.buffer), events[..i])
        modifies hub.subs`buffer
      {
        hub.Publish(Event(ScheduleMissed, ToAlertTask(missed[i], describe)));
        forall ch | ch in hub.subs ensures ch.buffer == OfferAll(old(ch.buffer), events[..i + 1]) {
          OfferMore(old(ch.buffer), events, i);
        }
      }
      assert events[..|missed|] == events;
    }
  }

  class Cleaner {
    const store: TaskStore
    const days: int64

    constructor (store: TaskStore, days: int64)
      ensures this.store == store && this.days == days
    {
      this.store, this.days := store, days;
    }

    method CleanOnce(now: Time, refused: bool) returns (deleted: nat)
      requires store.Valid()
      modifies store
      ensures store.Valid()
      ensures store.rows == if refused then old(store.rows) else Perform(old(store.rows), Clean(Cutoff(now, days)))
      ensures forall id :: id in store.rows ==> id in old(store.rows) && store.rows[id] == old(store.rows)[id]
      ensures !refused && 0 <= days <= 106_751 ==> forall id :: id in old(store.rows) ==>
        var finishedAt := old(store.rows)[id].finishedAt;
        (id !in store.rows <==> finishedAt.Some? && finishedAt.value < now - days * 86_400_000_000_000)
      ensures deleted == if refused then 0 else |set id | id in old(store.rows) && Stale(old(store.rows)[id], Cutoff(now, days))|
    {
      var err;
      if 0 <= days {
        CutoffExact(now, days);
      }
      deleted, err := store.DeleteOlderThan(Cutoff(now, days), refused);
    }
  }

  // ---------- registering schedules ----------

  datatype Request = Request(taskName: string, interval: Option<int64>, expression: Option<string>, grace: int64)

  class ScheduleHandler {
    const store: ScheduleStore

    constructor (store: ScheduleStore)
      ensures this.store == store
    {
      this.store := store;
    }

    method Register(cron: S.Cron, r: Request, now: Time, refused: bool) returns (response: Response)
      requires store.Valid()
      modifies store
      ensures store.Valid()
      ensures response == if !Acceptable(cron, r) then BadRequest else if refused then InternalError else NoContent
      ensures store.rows == if response.NoContent? then S.Upserted(old(store.rows), r.taskName, r.interval, r.expression, r.grace, now)
                            else old(store.rows)
      ensures response.BadRequest? <==>
        || r.taskName == "" || r.grace < 0
        || (r.interval.Some? && r.interval.value <= 0)
        || (r.interval.Some? && r.expression.Some? && r.expression.value != "")
        || (r.interval == None && (r.expression == None || r.expression == Some("") || !cron.parses(r.expression.value)))
      ensures response.NoContent? ==>
        && store.rows.Keys == old(store.rows).Keys + {r.taskName}
        && (forall other :: other in old(store.rows) && other != r.taskName ==> store.rows[other] == old(store.rows)[other])
        && var row := store.rows[r.taskName];
        && row.taskName == r.taskName && row.interval == r.interval && row.cron == r.expression
        && row.grace == r.grace && row.updatedAt == now
        && (r.taskName !in old(store.rows) ==> row.health == S.Ok && row.lastSeenAt == None)
        && (r.taskName in old(store.rows) ==>
              row.health == old(store.rows)[r.taskName].health && row.lastSeenAt == old(store.rows)[r.taskName].lastSeenAt)
    {
      if r.taskName == "" {
        return BadRequest;
      }
      var hasInterval := r.interval.Some?;
      var hasCron := r.expression.Some? && r.expression.value != "";
      if hasInterval == hasCron {
        return BadRequest;
      }
      if hasInterval && r.interval.value <= 0 {
        return BadRequest;
      }
      if hasCron {
        if !cron.parses(r.expression.value) {
          return BadRequest;
        }
      }
      if r.grace < 0 {
        return BadRequest;
      }
      var err := store.Upsert(r.taskName, r.interval, r.expression, r.grace, now, refused);
      if err != None {
        return InternalError;
      }
      return NoContent;
    }
  }

  // A name, no negative grace, and either a positive interval with no
  // expression, or an empty one, or an expression that parses.
  predicate Acceptable(cron: S.Cron, r: Request) {
    && r.taskName != "" && 0 <= r.grace
    && match r.interval
       case Some(seconds) => 0 < seconds && (r.expression == None || r.expression == Some(""))
       case None => r.expression.Some? && r.expression.value != "" && cron.parses(r.expression.value)
  }

  /**
    A name registered for the first time, with one cadence, and not started
    before a check without errors, is among the missed schedules of that check
    exactly if the interval, or the first occurrence after the registration, and
    the grace period have passed since.
   */
  lemma RegisteredIsNoticed(cron: S.Cron, r: Request, t: S.Table, now: Time, later: Time, missed: seq<S.Schedule>)
    requires Acceptable(cron, r) && r.taskName !in t && (r.interval == None || r.expression == None)
    requires r.grace + (if r.interval.Some? then r.interval.value else 0) <= 9_223_372_036
    requires var t' := S.Upserted(t, r.taskName, r.interval, r.expression, r.grace, now);
             S.Lists(missed, S.Detected(cron, t', later), S.OverdueNames(cron, t', later))
    ensures var expected := if r.interval.Some? then now + r.interval.value * 1_000_000_000 else cron.next(r.expression.value, now);
            (exists i :: 0 <= i < |missed| && missed[i].taskName == r.taskName) <==> expected + r.grace * 1_000_000_000 <= later
    ensures forall i :: 0 <= i < |missed| && missed[i].taskName == r.taskName ==>
      missed[i] == S.Schedule(r.taskName, r.interval, r.expression, r.grace, None, S.Missed, later)
  {
    var t' := S.Upserted(t, r.taskName, r.interval, r.expression, r.grace, now);
    var row := t'[r.taskName];
    if r.interval.Some? {
      S.IntervalOverdue(cron, row, later);
    } else {
      WrapOf(r.grace * SECOND);
    }
    assert r.taskName in S.OverdueNames(cron, t', later) <==> S.Due(cron, row, later);
  }

  /**
    An accepted registration stores exactly one of interval and expression, and
    a row that checks will look at, if and only if it does not come with both an
    interval and an empty expression. That one is accepted, but its row takes
    the cron branch, where an empty expression does not parse, and is skipped by
    every check.
   */
  lemma AcceptedIsMonitored(cron: S.Cron, r: Request, t: S.Table, now: Time)
    requires Acceptable(cron, r) && !cron.parses("")
    ensures var row := S.Upserted(t, r.taskName, r.interval, r.expression, r.grace, now)[r.taskName];
            && (S.Deadline(cron, row).Some? <==> !(r.interval.Some? && r.expression == Some("")))
            && ((row.interval.Some? != row.cron.Some?) <==> !(r.interval.Some? && r.expression == Some("")))
            && (S.Deadline(cron, row) == None ==> forall later: Time :: !S.Overdue(cron, row, later))
  {
  }
}
