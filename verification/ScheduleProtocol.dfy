/**
  The schedule table under any interleaving of registrations, starts,
  deletions and missed-run checks.

  Every SQL statement is one atomic step; a check is a snapshot query, then one
  guarded update and one re-read per candidate, then its publications. Any
  number of checks may be under way. The log records what happened to the
  table, in order, and says what the rows must contain.
 */
module ScheduleProtocol {
  import opened Options
  import opened Clock
  import opened Schedules
  import Ledger

  datatype Entry =
    | Registration(name: string, at: Time, first: bool)  // first: no row was there
    | Start(name: string, at: Time)                      // a touch that found its row
    | Removal(name: string)                              // a delete that found its row
    | Flag(name: string, check: nat)                     // an update from ok to missed

  datatype Check = Check(now: Time, seen: Table, todo: seq<string>)

  datatype State = State(
    rows: Table,
    log: seq<Entry>,
    ledger: Ledger.Ledger,
    checks: seq<Check>,
    flags: seq<nat>,            // for each hit of the ledger, its place in the log
    reread: map<nat, Schedule>)

  datatype Action =
    | Upsert(name: string, interval: Option<int64>, expression: Option<string>, grace: int64, at: Time)
    | Touch(name: string, at: Time)
    | Delete(name: string)
    | CheckRead(now: Time, order: seq<string>)
    | CheckNext(check: nat)
    | CheckGet(check: nat)
    | CheckFail(check: nat)
    | CheckClose(check: nat)
    | Publish(check: nat)

  const INIT := State(map[], [], Ledger.EMPTY, [], [], map[])

  // ---------- steps; one that is not possible changes nothing ----------

  function OnUpsert(s: State, name: string, interval: Option<int64>, expression: Option<string>, grace: int64, at: Time): State {
    s.(rows := Upserted(s.rows, name, interval, expression, grace, at),
       log := s.log + [Registration(name, at, name !in s.rows)])
  }

  function OnTouch(s: State, name: string, at: Time): State {
    if name in s.rows then s.(rows := Touched(s.rows, name, at), log := s.log + [Start(name, at)]) else s
  }

  function OnDelete(s: State, name: string): State {
    if name in s.rows then s.(rows := s.rows - {name}, log := s.log + [Removal(name)]) else s
  }

  // The snapshot query returns every row that is ok, once, in some order.
  ghost predicate Orders(order: seq<string>, rows: Table) {
    && (forall i, j :: 0 <= i < j < |order| ==> order[i] != order[j])
    && (forall name :: name in order <==> name in rows && rows[name].health == Ok)
  }

  ghost function OnCheckRead(s: State, now: Time, order: seq<string>): State {
    if Orders(order, s.rows) then
      s.(ledger := Ledger.Begin(s.ledger), checks := s.checks + [Check(now, s.rows, order)])
    else s
  }

  // One candidate: skipped unless due in the snapshot and still ok.
  function OnCheckNext(cron: Cron, s: State, check: nat): State {
    if Ledger.Is(s.ledger, check, Ledger.Scanning) && check < |s.checks| && s.checks[check].todo != [] then
      Tried(cron, Advanced(s, check), check, s.checks[check], s.checks[check].todo[0])
    else s
  }

  function Advanced(s: State, check: nat): State
    requires check < |s.checks| && s.checks[check].todo != []
  {
    s.(checks := s.checks[check := s.checks[check].(todo := s.checks[check].todo[1..])])
  }

  function Tried(cron: Cron, s: State, check: nat, c: Check, name: string): State
    requires Ledger.Is(s.ledger, check, Ledger.Scanning)
  {
    if name in c.seen && Due(cron, c.seen[name], c.now) && name in s.rows && s.rows[name].health == Ok then
      Struck(s, check, name, c.now)
    else s
  }

  function Struck(s: State, check: nat, name: string, now: Time): State
    requires Ledger.Is(s.ledger, check, Ledger.Scanning) && name in s.rows
  {
    s.(rows := s.rows[name := Flagged(s.rows[name], now)],
       log := s.log + [Flag(name, check)],
       ledger := Ledger.Strike(s.ledger, check),
       flags := s.flags + [|s.log|])
  }

  // The re-read; a row gone by now is an error, which ends the check.
  function OnCheckGet(s: State, check: nat): State {
    if Ledger.Rereads(s.ledger, check) && s.ledger.live[check].phase.hit < |s.flags| then
      Got(s, check, s.ledger.live[check].phase.hit)
    else s
  }

  function Got(s: State, check: nat, hit: nat): State
    requires Ledger.Rereads(s.ledger, check) && hit < |s.flags|
  {
    if s.flags[hit] < |s.log| && s.log[s.flags[hit]].name in s.rows then
      s.(ledger := Ledger.Reread(s.ledger, check), reread := s.reread[hit := s.rows[s.log[s.flags[hit]].name]])
    else
      s.(ledger := Ledger.Fail(s.ledger, check))
  }

  function OnCheckFail(s: State, check: nat): State {
    if Ledger.Is(s.ledger, check, Ledger.Scanning) || Ledger.Rereads(s.ledger, check) then
      s.(ledger := Ledger.Fail(s.ledger, check))
    else s
  }

  function OnCheckClose(s: State, check: nat): State {
    if Ledger.Is(s.ledger, check, Ledger.Scanning) && check < |s.checks| && s.checks[check].todo == [] then
      s.(ledger := Ledger.Close(s.ledger, check))
    else s
  }

  function OnPublish(s: State, check: nat): State {
    if Ledger.Is(s.ledger, check, Ledger.Publishing) then s.(ledger := Ledger.Publish(s.ledger, check)) else s
  }

  ghost function Next(cron: Cron, s: State, a: Action): State {
    match a
    case Upsert(name, interval, expression, grace, at) => OnUpsert(s, name, interval, expression, grace, at)
    case Touch(name, at) => OnTouch(s, name, at)
    case Delete(name) => OnDelete(s, name)
    case CheckRead(now, order) => OnCheckRead(s, now, order)
    case CheckNext(check) => OnCheckNext(cron, s, check)
    case CheckGet(check) => OnCheckGet(s, check)
    case CheckFail(check) => OnCheckFail(s, check)
    case CheckClose(check) => OnCheckClose(s, check)
    case Publish(check) => OnPublish(s, check)
  }

  ghost function Run(cron: Cron, actions: seq<Action>): State {
    if actions == [] then INIT else Next(cron, Run(cron, actions[..|actions| - 1]), actions[|actions| - 1])
  }

  // ---------- what the log says of a row ----------

  // The last start since the row was first registered.
  function LastStart(log: seq<Entry>, name: string): Option<Time> {
    if log == [] then None else
    match log[|log| - 1]
    case Start(n, at) => if n == name then Some(at) else LastStart(log[..|log| - 1], name)
    case Registration(n, _, first) => if n == name && first then None else LastStart(log[..|log| - 1], name)
    case _ => LastStart(log[..|log| - 1], name)
  }

  function LastRegistration(log: seq<Entry>, name: string): Option<Time> {
    if log == [] then None else
    match log[|log| - 1]
    case Registration(n, at, _) => if n == name then Some(at) else LastRegistration(log[..|log| - 1], name)
    case _ => LastRegistration(log[..|log| - 1], name)
  }

  ghost predicate IsFlag(e: Entry, name: string) {
    e.Flag? && e.name == name
  }

  ghost predicate IsRemoval(e: Entry, name: string) {
    e.Removal? && e.name == name
  }

  ghost predicate IsStart(e: Entry, name: string) {
    e.Start? && e.name == name
  }

  ghost predicate IsFirstRegistration(e: Entry, name: string) {
    e.Registration? && e.first && e.name == name
  }

  ghost predicate StartedBetween(log: seq<Entry>, i: nat, j: nat, name: string)
    requires j <= |log|
  {
    exists k :: i < k < j && IsStart(log[k], name)
  }

  ghost predicate RemovedBetween(log: seq<Entry>, i: nat, j: nat, name: string)
    requires j <= |log|
  {
    exists k :: i < k < j && IsRemoval(log[k], name)
  }

  ghost predicate RecreatedBetween(log: seq<Entry>, i: nat, j: nat, name: string)
    requires j <= |log|
  {
    exists k, m :: i < k < m < j && IsRemoval(log[k], name) && IsFirstRegistration(log[m], name)
  }

  // What it takes for a name flagged at i to be flagged again at j.
  ghost predicate Rearmed(log: seq<Entry>, i: nat, j: nat, name: string)
    requires j <= |log|
  {
    StartedBetween(log, i, j, name) || RecreatedBetween(log, i, j, name)
  }

  // ---------- the invariant ----------

  // The row is what the log says: last seen at its last start, and, while it
  // is ok and was never seen, updated at its last registration.
  ghost predicate Faithful(row: Schedule, log: seq<Entry>, name: string) {
    && row.taskName == name
    && row.lastSeenAt == LastStart(log, name)
    && LastRegistration(log, name).Some?
    && (row.health == Ok && row.lastSeenAt == None ==> Some(row.updatedAt) == LastRegistration(log, name))
  }

  ghost predicate RowsOk(rows: Table, log: seq<Entry>) {
    forall name :: name in rows ==> Faithful(rows[name], log, name)
  }

  // A flag not yet re-armed: the row is still missed, or gone.
  ghost predicate Disarmed(rows: Table, log: seq<Entry>, i: nat, name: string) {
    if name in rows then rows[name].health == Missed else RemovedBetween(log, i, |log|, name)
  }

  ghost predicate EpisodesOk(rows: Table, log: seq<Entry>) {
    && (forall i :: 0 <= i < |log| && log[i].Flag? ==>
          Rearmed(log, i, |log|, log[i].name) || Disarmed(rows, log, i, log[i].name))
    && (forall i, j :: 0 <= i < j < |log| && log[i].Flag? && IsFlag(log[j], log[i].name) ==>
          Rearmed(log, i, j, log[i].name))
  }

  // Every hit of the ledger is one flag of the log, in the same order, for a
  // row that was ok and due in the check's snapshot.
  ghost predicate FlagOk(cron: Cron, log: seq<Entry>, checks: seq<Check>, at: nat, check: nat) {
    && at < |log| && log[at].Flag? && log[at].check == check < |checks|
    && log[at].name in checks[check].seen
    && Overdue(cron, checks[check].seen[log[at].name], checks[check].now)
  }

  ghost predicate FlagsOk(cron: Cron, log: seq<Entry>, checks: seq<Check>, flags: seq<nat>, owner: seq<nat>) {
    && |flags| == |owner|
    && (forall h :: 0 <= h < |flags| ==> FlagOk(cron, log, checks, flags[h], owner[h]))
    && (forall g, h :: 0 <= g < h < |flags| ==> flags[g] < flags[h])
    && (forall i :: 0 <= i < |log| && log[i].Flag? ==> i in flags)
  }

  ghost predicate ChecksOk(checks: seq<Check>) {
    forall c, name :: 0 <= c < |checks| && name in checks[c].todo ==>
      name in checks[c].seen && checks[c].seen[name].health == Ok
  }

  // A re-read row is of the flagged name, and what is listed or published has
  // been re-read.
  ghost predicate RereadOk(reread: map<nat, Schedule>, log: seq<Entry>, flags: seq<nat>, ledger: Ledger.Ledger) {
    && (forall h :: h in reread ==>
          h < |flags| && flags[h] < |log| && log[flags[h]].Flag? && reread[h].taskName == log[flags[h]].name)
    && (forall h :: h in ledger.published ==> h in reread)
    && (forall p, h: nat :: p in ledger.live && h in ledger.live[p].listed ==> h in reread)
  }

  ghost predicate Inv(cron: Cron, s: State) {
    && RowsOk(s.rows, s.log)
    && EpisodesOk(s.rows, s.log)
    && |s.checks| == s.ledger.started && ChecksOk(s.checks)
    && FlagsOk(cron, s.log, s.checks, s.flags, s.ledger.owner)
    && RereadOk(s.reread, s.log, s.flags, s.ledger)
    && Ledger.Valid(s.ledger)
  }

  // ---------- every step keeps it ----------

  lemma LogGrows(log: seq<Entry>, e: Entry)
    ensures (log + [e])[..|log|] == log && (log + [e])[|log|] == e
    ensures forall i: nat, j: nat, name :: j <= |log| ==> (Rearmed(log + [e], i, j, name) <==> Rearmed(log, i, j, name))
    ensures forall i: nat, name :: Rearmed(log, i, |log|, name) ==> Rearmed(log + [e], i, |log| + 1, name)
    ensures forall i: nat, name :: RemovedBetween(log, i, |log|, name) ==> RemovedBetween(log + [e], i, |log| + 1, name)
  {
    var longer := log + [e];
    assert forall k :: 0 <= k < |log| ==> longer[k] == log[k];
    forall i: nat, j: nat, name | j <= |log| ensures Rearmed(longer, i, j, name) <==> Rearmed(log, i, j, name) {
      if Rearmed(log, i, j, name) {
        RearmedPersists(log, e, i, j, j, name);
      }
    }
    forall i: nat, name | Rearmed(log, i, |log|, name) ensures Rearmed(longer, i, |log| + 1, name) {
      RearmedPersists(log, e, i, |log|, |log| + 1, name);
    }
    forall i: nat, name | RemovedBetween(log, i, |log|, name) ensures RemovedBetween(longer, i, |log| + 1, name) {
      var k :| i < k < |log| && IsRemoval(log[k], name);
      assert IsRemoval(longer[k], name);
    }
  }

  lemma RearmedPersists(log: seq<Entry>, e: Entry, i: nat, j: nat, j': nat, name: string)
    requires j <= |log| && j <= j' <= |log| + 1 && Rearmed(log, i, j, name)
    ensures Rearmed(log + [e], i, j', name)
  {
    var longer := log + [e];
    if StartedBetween(log, i, j, name) {
      var k :| i < k < j && IsStart(log[k], name);
      assert IsStart(longer[k], name);
    } else {
      var k, m :| i < k < m < j && IsRemoval(log[k], name) && IsFirstRegistration(log[m], name);
      assert IsRemoval(longer[k], name) && IsFirstRegistration(longer[m], name);
    }
  }

  // Appending an entry keeps the episodes apart if it starts, or first
  // registers, only what it re-arms, and flags only rows that are ok.
  lemma EpisodesGrow(rows: Table, log: seq<Entry>, rows': Table, e: Entry)
    requires EpisodesOk(rows, log)
    requires forall name :: name in rows && name !in rows' ==> IsRemoval(e, name)
    requires forall name :: name !in rows && name in rows' ==> IsFirstRegistration(e, name)
    requires forall name :: name in rows && name in rows' && rows[name].health == Missed && rows'[name].health == Ok ==> IsStart(e, name)
    requires forall name :: IsFlag(e, name) ==> name in rows && rows[name].health == Ok
    requires forall name :: IsFlag(e, name) ==> name in rows' && rows'[name].health == Missed
    ensures EpisodesOk(rows', log + [e])
  {
    var longer := log + [e];
    LogGrows(log, e);
    assert forall k :: 0 <= k < |log| ==> longer[k] == log[k];
    forall i | 0 <= i < |longer| && longer[i].Flag?
      ensures Rearmed(longer, i, |longer|, longer[i].name) || Disarmed(rows', longer, i, longer[i].name)
    {
      if i < |log| && !Rearmed(log, i, |log|, log[i].name) {
        StillDisarmed(rows, log, rows', e, i, log[i].name);
      }
    }
    forall i, j | 0 <= i < j < |longer| && longer[i].Flag? && IsFlag(longer[j], longer[i].name)
      ensures Rearmed(longer, i, j, longer[i].name)
    {
      if j == |log| {
        FlaggedOnceArmed(rows, log, i);
      }
      assert Rearmed(log, i, j, log[i].name);
    }
  }

  lemma FlaggedOnceArmed(rows: Table, log: seq<Entry>, i: nat)
    requires EpisodesOk(rows, log) && i < |log| && log[i].Flag?
    requires log[i].name in rows && rows[log[i].name].health == Ok
    ensures Rearmed(log, i, |log|, log[i].name)
  {
  }

  lemma StillDisarmed(rows: Table, log: seq<Entry>, rows': Table, e: Entry, i: nat, name: string)
    requires i < |log| && Disarmed(rows, log, i, name)
    requires name in rows && name !in rows' ==> IsRemoval(e, name)
    requires name !in rows && name in rows' ==> IsFirstRegistration(e, name)
    requires name in rows && name in rows' && rows'[name].health == Ok ==> IsStart(e, name)
    ensures Rearmed(log + [e], i, |log| + 1, name) || Disarmed(rows', log + [e], i, name)
  {
    var longer := log + [e];
    LogGrows(log, e);
    if name !in rows && name in rows' {
      var k :| i < k < |log| && IsRemoval(log[k], name);
      assert longer[k] == log[k] && IsRemoval(longer[k], name) && IsFirstRegistration(longer[|log|], name);
    } else if name in rows && name !in rows' {
      assert IsRemoval(longer[|log|], name);
    } else if name in rows && rows'[name].health == Ok {
      assert IsStart(longer[|log|], name);
    }
  }

  lemma UpsertRows(rows: Table, log: seq<Entry>, name: string, interval: Option<int64>, expression: Option<string>,
                   grace: int64, at: Time)
    requires RowsOk(rows, log)
    ensures RowsOk(Upserted(rows, name, interval, expression, grace, at), log + [Registration(name, at, name !in rows)])
  {
    var e := Registration(name, at, name !in rows);
    assert (log + [e])[..|log|] == log;
    forall other | other in rows ensures Faithful(rows[other], log, other) {
    }
  }

  lemma RereadAppended(reread: map<nat, Schedule>, log: seq<Entry>, flags: seq<nat>, l: Ledger.Ledger, e: Entry)
    requires RereadOk(reread, log, flags, l)
    ensures RereadOk(reread, log + [e], flags, l)
  {
  }

  lemma UpsertStep(cron: Cron, s: State, name: string, interval: Option<int64>, expression: Option<string>, grace: int64, at: Time)
    requires Inv(cron, s)
    ensures Inv(cron, OnUpsert(s, name, interval, expression, grace, at))
  {
    var e := Registration(name, at, name !in s.rows);
    LogGrows(s.log, e);
    UpsertRows(s.rows, s.log, name, interval, expression, grace, at);
    EpisodesGrow(s.rows, s.log, Upserted(s.rows, name, interval, expression, grace, at), e);
    RereadAppended(s.reread, s.log, s.flags, s.ledger, e);
    FlagsIgnore(cron, s.log, e, s.checks, s.flags, s.ledger.owner);
  }

  lemma FlagsIgnore(cron: Cron, log: seq<Entry>, e: Entry, checks: seq<Check>, flags: seq<nat>, owner: seq<nat>)
    requires FlagsOk(cron, log, checks, flags, owner) && !e.Flag?
    ensures FlagsOk(cron, log + [e], checks, flags, owner)
  {
    forall h | 0 <= h < |flags| ensures FlagOk(cron, log + [e], checks, flags[h], owner[h]) {
      assert FlagOk(cron, log, checks, flags[h], owner[h]);
    }
    assert forall i :: 0 <= i < |log| ==> (log + [e])[i] == log[i];
  }

  lemma TouchStep(cron: Cron, s: State, name: string, at: Time)
    requires Inv(cron, s)
    ensures Inv(cron, OnTouch(s, name, at))
  {
    if name in s.rows {
      var e := Start(name, at);
      LogGrows(s.log, e);
      EpisodesGrow(s.rows, s.log, Touched(s.rows, name, at), e);
      RereadAppended(s.reread, s.log, s.flags, s.ledger, e);
      FlagsIgnore(cron, s.log, e, s.checks, s.flags, s.ledger.owner);
    }
  }

  lemma DeleteStep(cron: Cron, s: State, name: string)
    requires Inv(cron, s)
    ensures Inv(cron, OnDelete(s, name))
  {
    if name in s.rows {
      var e := Removal(name);
      LogGrows(s.log, e);
      EpisodesGrow(s.rows, s.log, s.rows - {name}, e);
      RereadAppended(s.reread, s.log, s.flags, s.ledger, e);
      FlagsIgnore(cron, s.log, e, s.checks, s.flags, s.ledger.owner);
    }
  }

  lemma CheckReadStep(cron: Cron, s: State, now: Time, order: seq<string>)
    requires Inv(cron, s)
    ensures Inv(cron, OnCheckRead(s, now, order))
  {
    if Orders(order, s.rows) {
      Ledger.BeginValid(s.ledger);
      var s' := OnCheckRead(s, now, order);
      forall h | 0 <= h < |s.flags| ensures FlagOk(cron, s.log, s'.checks, s.flags[h], s.ledger.owner[h]) {
        assert FlagOk(cron, s.log, s.checks, s.flags[h], s.ledger.owner[h]);
      }
    }
  }

  lemma AdvancedStep(cron: Cron, s: State, check: nat)
    requires Inv(cron, s) && check < |s.checks| && s.checks[check].todo != []
    ensures Inv(cron, Advanced(s, check))
  {
    var s' := Advanced(s, check);
    forall h | 0 <= h < |s.flags| ensures FlagOk(cron, s.log, s'.checks, s.flags[h], s.ledger.owner[h]) {
      assert FlagOk(cron, s.log, s.checks, s.flags[h], s.ledger.owner[h]);
    }
  }

  lemma FlagsGrow(cron: Cron, log: seq<Entry>, checks: seq<Check>, flags: seq<nat>, owner: seq<nat>, name: string, check: nat)
    requires FlagsOk(cron, log, checks, flags, owner)
    requires check < |checks| && name in checks[check].seen && Overdue(cron, checks[check].seen[name], checks[check].now)
    ensures FlagsOk(cron, log + [Flag(name, check)], checks, flags + [|log|], owner + [check])
  {
    var longer, more := log + [Flag(name, check)], flags + [|log|];
    forall h | 0 <= h < |more| ensures FlagOk(cron, longer, checks, more[h], (owner + [check])[h]) {
      if h < |flags| {
        assert FlagOk(cron, log, checks, flags[h], owner[h]);
      }
    }
    forall g, h | 0 <= g < h < |more| ensures more[g] < more[h] {
      assert FlagOk(cron, log, checks, flags[g], owner[g]);
    }
    forall i | 0 <= i < |longer| && longer[i].Flag? ensures i in more {
      if i < |log| {
        assert log[i].Flag? && i in flags;
      } else {
        assert more[|flags|] == i;
      }
    }
  }

  lemma RereadIgnores(reread: map<nat, Schedule>, log: seq<Entry>, flags: seq<nat>, l: Ledger.Ledger, check: nat, e: Entry)
    requires RereadOk(reread, log, flags, l) && Ledger.Is(l, check, Ledger.Scanning)
    ensures RereadOk(reread, log + [e], flags + [|log|], Ledger.Strike(l, check))
  {
  }

  lemma StruckStep(cron: Cron, s: State, check: nat, name: string)
    requires Inv(cron, s) && Ledger.Is(s.ledger, check, Ledger.Scanning) && check < |s.checks|
    requires name in s.rows && s.rows[name].health == Ok
    requires name in s.checks[check].seen && Overdue(cron, s.checks[check].seen[name], s.checks[check].now)
    ensures Inv(cron, Struck(s, check, name, s.checks[check].now))
  {
    var e, rows' := Flag(name, check), s.rows[name := Flagged(s.rows[name], s.checks[check].now)];
    LogGrows(s.log, e);
    EpisodesGrow(s.rows, s.log, rows', e);
    FlagsGrow(cron, s.log, s.checks, s.flags, s.ledger.owner, name, check);
    RereadIgnores(s.reread, s.log, s.flags, s.ledger, check, e);
    Ledger.StrikeValid(s.ledger, check);
  }

  lemma CheckNextStep(cron: Cron, s: State, check: nat)
    requires Inv(cron, s)
    ensures Inv(cron, OnCheckNext(cron, s, check))
  {
    if Ledger.Is(s.ledger, check, Ledger.Scanning) && check < |s.checks| && s.checks[check].todo != [] {
      var c, name := s.checks[check], s.checks[check].todo[0];
      AdvancedStep(cron, s, check);
      if Due(cron, c.seen[name], c.now) && name in s.rows && s.rows[name].health == Ok {
        StruckStep(cron, Advanced(s, check), check, name);
      }
    }
  }

  lemma RereadKept(reread: map<nat, Schedule>, log: seq<Entry>, flags: seq<nat>, l: Ledger.Ledger, check: nat)
    requires RereadOk(reread, log, flags, l)
    ensures Ledger.Is(l, check, Ledger.Scanning) || Ledger.Rereads(l, check) ==> RereadOk(reread, log, flags, Ledger.Fail(l, check))
    ensures Ledger.Is(l, check, Ledger.Scanning) ==> RereadOk(reread, log, flags, Ledger.Close(l, check))
    ensures Ledger.Is(l, check, Ledger.Publishing) ==> RereadOk(reread, log, flags, Ledger.Publish(l, check))
  {
  }

  lemma RereadGrows(reread: map<nat, Schedule>, log: seq<Entry>, flags: seq<nat>, l: Ledger.Ledger, check: nat, row: Schedule)
    requires RereadOk(reread, log, flags, l) && Ledger.Rereads(l, check)
    requires var h := l.live[check].phase.hit;
             h < |flags| && flags[h] < |log| && log[flags[h]].Flag? && row.taskName == log[flags[h]].name
    ensures RereadOk(reread[l.live[check].phase.hit := row], log, flags, Ledger.Reread(l, check))
  {
  }

  lemma LedgerSteps(cron: Cron, s: State, check: nat)
    requires Inv(cron, s)
    ensures Inv(cron, OnCheckGet(s, check)) && Inv(cron, OnCheckFail(s, check))
    ensures Inv(cron, OnCheckClose(s, check)) && Inv(cron, OnPublish(s, check))
  {
    RereadKept(s.reread, s.log, s.flags, s.ledger, check);
    if Ledger.Is(s.ledger, check, Ledger.Scanning) {
      Ledger.FailValid(s.ledger, check);
      Ledger.CloseValid(s.ledger, check);
    } else if Ledger.Is(s.ledger, check, Ledger.Publishing) {
      Ledger.PublishValid(s.ledger, check);
    } else if Ledger.Rereads(s.ledger, check) {
      Ledger.FailValid(s.ledger, check);
      Ledger.RereadValid(s.ledger, check);
      GetStep(cron, s, check);
    }
  }

  lemma GetStep(cron: Cron, s: State, check: nat)
    requires Inv(cron, s) && Ledger.Rereads(s.ledger, check)
    requires Ledger.Valid(Ledger.Reread(s.ledger, check)) && Ledger.Valid(Ledger.Fail(s.ledger, check))
    requires RereadOk(s.reread, s.log, s.flags, Ledger.Fail(s.ledger, check))
    ensures Inv(cron, OnCheckGet(s, check))
  {
    var hit := s.ledger.live[check].phase.hit;
    if hit < |s.flags| {
      assert FlagOk(cron, s.log, s.checks, s.flags[hit], s.ledger.owner[hit]);
      var name := s.log[s.flags[hit]].name;
      if name in s.rows {
        assert Faithful(s.rows[name], s.log, name);
        RereadGrows(s.reread, s.log, s.flags, s.ledger, check, s.rows[name]);
      }
    }
  }

  lemma StepKeeps(cron: Cron, s: State, a: Action)
    requires Inv(cron, s)
    ensures Inv(cron, Next(cron, s, a))
  {
    match a
    case Upsert(name, interval, expression, grace, at) => UpsertStep(cron, s, name, interval, expression, grace, at);
    case Touch(name, at) => TouchStep(cron, s, name, at);
    case Delete(name) => DeleteStep(cron, s, name);
    case CheckRead(now, order) => CheckReadStep(cron, s, now, order);
    case CheckNext(check) => CheckNextStep(cron, s, check);
    case CheckGet(check) => LedgerSteps(cron, s, check);
    case CheckFail(check) => LedgerSteps(cron, s, check);
    case CheckClose(check) => LedgerSteps(cron, s, check);
    case Publish(check) => LedgerSteps(cron, s, check);
  }
}
