/** What every interleaved run of the schedule protocol guarantees. */
module ScheduleSafety {
  import opened Options
  import opened Clock
  import opened Schedules
  import opened ScheduleProtocol
  import Ledger

  lemma {:induction false} RunKeeps(cron: Cron, actions: seq<Action>)
    ensures Inv(cron, Run(cron, actions))
  {
    if actions == [] {
      Ledger.EmptyValid();
    } else {
      RunKeeps(cron, actions[..|actions| - 1]);
      StepKeeps(cron, Run(cron, actions[..|actions| - 1]), actions[|actions| - 1]);
    }
  }

  /**
    Each step of the protocol does to the rows what the statements of the
    schedule store do, one at a time; re-reads, failures and publications leave
    them alone.
   */
  lemma StepsAreStatements(cron: Cron, s: State, a: Action)
    ensures var t, t' := s.rows, Next(cron, s, a).rows;
            match a
            case Upsert(name, interval, expression, grace, at) => t' == Upserted(t, name, interval, expression, grace, at)
            case Touch(name, at) => t' == Touched(t, name, at)
            case Delete(name) => t' == t - {name}
            case CheckNext(check) =>
              t' == if Ledger.Is(s.ledger, check, Ledger.Scanning) && check < |s.checks| && s.checks[check].todo != [] then
                      var c, name := s.checks[check], s.checks[check].todo[0];
                      if name in c.seen && Due(cron, c.seen[name], c.now) && name in t && t[name].health == Ok
                      then t[name := t[name].(health := Missed, updatedAt := c.now)] else t
                    else t
            case _ => t' == t
  {
    if a.Delete? && a.name !in s.rows {
      assert s.rows - {a.name} == s.rows;
    }
  }

  ghost predicate GoesMissing(s: State, s': State, name: string) {
    name in s.rows && name in s'.rows && s.rows[name].health == Ok && s'.rows[name].health == Missed
  }

  /** The flags of the log are exactly the ok-to-missed steps of the table. */
  lemma FlagsAreDetections(cron: Cron, s: State, a: Action)
    ensures var s' := Next(cron, s, a);
            || (s'.flags == s.flags && forall name :: !GoesMissing(s, s', name))
            || (exists e: Entry :: e.Flag? && s'.log == s.log + [e] && s'.flags == s.flags + [|s.log|]
                            && forall name :: GoesMissing(s, s', name) <==> name == e.name)
  {
    var s' := Next(cron, s, a);
    if a.CheckNext? && s'.log != s.log {
      var e := s'.log[|s.log|];
      assert s'.log == s.log + [e] && e.Flag?;
    }
  }

  // Hits g and h are flags of the log, and if of one name, an episode apart.
  ghost predicate EpisodesApart(s: State, g: nat, h: nat) {
    && g < |s.flags| && h < |s.flags| && s.flags[g] < |s.log| && s.flags[h] < |s.log|
    && var x, y := s.log[s.flags[g]], s.log[s.flags[h]];
    && x.Flag? && y.Flag?
    && (x.name == y.name ==>
          || (s.flags[g] < s.flags[h] && Rearmed(s.log, s.flags[g], s.flags[h], x.name))
          || (s.flags[h] < s.flags[g] && Rearmed(s.log, s.flags[h], s.flags[g], x.name)))
  }

  /**
    Under any interleaving, between two detections of a name there is a start
    of it, or its removal and then a new first registration: registering again
    over a row that is there never re-arms the alert. Each detected row was ok
    and overdue in its check's snapshot.
   */
  lemma OneDetectionPerEpisode(cron: Cron, actions: seq<Action>)
    ensures var s := Run(cron, actions);
            && |s.flags| == |s.ledger.owner|
            && (forall i, j :: 0 <= i < j < |s.log| && s.log[i].Flag? && IsFlag(s.log[j], s.log[i].name) ==>
                  || StartedBetween(s.log, i, j, s.log[i].name)
                  || RecreatedBetween(s.log, i, j, s.log[i].name))
            && (forall i :: 0 <= i < |s.log| && s.log[i].Flag? ==>
                  exists h :: 0 <= h < |s.flags| && s.flags[h] == i && FlagOk(cron, s.log, s.checks, i, s.ledger.owner[h]))
  {
    RunKeeps(cron, actions);
    var s := Run(cron, actions);
    forall i | 0 <= i < |s.log| && s.log[i].Flag?
      ensures exists h :: 0 <= h < |s.flags| && s.flags[h] == i && FlagOk(cron, s.log, s.checks, i, s.ledger.owner[h])
    {
      var h :| 0 <= h < |s.flags| && s.flags[h] == i;
      assert FlagOk(cron, s.log, s.checks, s.flags[h], s.ledger.owner[h]);
    }
  }

  /**
    Every alert that goes out is for a detection of its own, so two alerts for
    one name are always an episode apart. Once no check is under way, each
    detection has been published exactly once, or its check met an error.
   */
  lemma OneAlertPerEpisode(cron: Cron, actions: seq<Action>)
    ensures var s := Run(cron, actions);
            && |s.flags| == |s.ledger.owner|
            && (forall p, q :: 0 <= p < q < |s.ledger.published| ==> EpisodesApart(s, s.ledger.published[p], s.ledger.published[q]))
            && (s.ledger.live == map[] ==> forall h: nat :: h < |s.flags| ==>
                  (h in s.ledger.published <==> s.ledger.owner[h] !in s.ledger.failed))
  {
    RunKeeps(cron, actions);
    var s := Run(cron, actions);
    Ledger.PublishedIffSound(s.ledger);
    forall p, q | 0 <= p < q < |s.ledger.published| ensures EpisodesApart(s, s.ledger.published[p], s.ledger.published[q]) {
      var g, h := s.ledger.published[p], s.ledger.published[q];
      assert g in s.ledger.published && h in s.ledger.published && g != h;
      assert FlagOk(cron, s.log, s.checks, s.flags[g], s.ledger.owner[g]);
      assert FlagOk(cron, s.log, s.checks, s.flags[h], s.ledger.owner[h]);
      var x, y := s.log[s.flags[g]], s.log[s.flags[h]];
      assert x.name == y.name ==> IsFlag(x, y.name) && IsFlag(y, x.name);
    }
  }

  /**
    The row that an alert is built from is re-read after the update; it is of
    the name that was flagged, whatever happened to the row in between.
   */
  lemma AlertNamesTheFlagged(cron: Cron, actions: seq<Action>, h: nat)
    requires h in Run(cron, actions).ledger.published
    ensures var s := Run(cron, actions);
            && h in s.reread && h < |s.flags| && s.flags[h] < |s.log|
            && IsFlag(s.log[s.flags[h]], s.reread[h].taskName)
  {
    RunKeeps(cron, actions);
  }

  /**
    The detection writes updated_at, which is also the reference of a row never
    seen, yet no later deadline is ever counted from it: in every reachable
    state an ok row counts from its last start, or else from its last
    registration.
   */
  lemma ReferenceIsNeverCorrupted(cron: Cron, actions: seq<Action>, name: string)
    requires name in Run(cron, actions).rows && Run(cron, actions).rows[name].health == Ok
    ensures var s := Run(cron, actions);
            var row := s.rows[name];
            && row.lastSeenAt == LastStart(s.log, name)
            && (row.lastSeenAt == None ==> Some(row.updatedAt) == LastRegistration(s.log, name))
            && Reference(row) == if row.lastSeenAt.Some? then row.lastSeenAt.value else row.updatedAt
  {
    RunKeeps(cron, actions);
    assert Faithful(Run(cron, actions).rows[name], Run(cron, actions).log, name);
  }

  /** A missed row leaves that state only by a start of its task, or by removal. */
  lemma OnlyStartsHeal(cron: Cron, s: State, a: Action, name: string)
    requires name in s.rows && s.rows[name].health == Missed
    ensures var s' := Next(cron, s, a);
            || (name in s'.rows && s'.rows[name].health == Missed && s'.rows[name].lastSeenAt == s.rows[name].lastSeenAt)
            || (a.Touch? && a.name == name && s'.rows[name].health == Ok && s'.rows[name].lastSeenAt == Some(a.at))
            || (a == Delete(name) && name !in s'.rows)
  {
  }

  // ---------- an alert from end to end ----------

  ghost predicate Reachable(cron: Cron, s: State) {
    exists actions: seq<Action> :: Run(cron, actions) == s
  }

  lemma Then(cron: Cron, s: State, a: Action) returns (s': State)
    requires Reachable(cron, s)
    ensures Reachable(cron, s') && s' == Next(cron, s, a)
  {
    var actions: seq<Action> :| Run(cron, actions) == s;
    assert (actions + [a])[..|actions|] == actions;
    assert Run(cron, actions + [a]) == Next(cron, s, a);
    s' := Next(cron, s, a);
  }

  // A check has been over the one registered name, and found it due.
  lemma Flagging(cron: Cron, name: string, interval: int64, grace: int64, at: Time, now: Time) returns (s: State)
    requires 0 <= interval && 0 <= grace && interval + grace <= 9_223_372_036
    requires at + (interval + grace) * 1_000_000_000 <= now
    ensures Reachable(cron, s) && s.rows == map[name := Schedule(name, Some(interval), None, grace, None, Missed, now)]
    ensures Ledger.Is(s.ledger, 0, Ledger.Reading(0)) && s.ledger.live[0].listed == [] && s.ledger.published == []
    ensures s.ledger.live.Keys == {0} && s.ledger.failed == {}
    ensures |s.checks| == 1 && s.checks[0].todo == [] && |s.flags| == 1 && s.flags[0] == 1 && |s.log| == 2 && s.log[1].name == name
  {
    assert Run(cron, []) == INIT;
    var s1 := Then(cron, INIT, Upsert(name, Some(interval), None, grace, at));
    assert Orders([name], s1.rows);
    var s2 := Then(cron, s1, CheckRead(now, [name]));
    IntervalOverdue(cron, s2.checks[0].seen[name], now);
    s := Then(cron, s2, CheckNext(0));
  }

  // It has no candidates left, and sends out its one alert.
  lemma Announced(cron: Cron, s: State) returns (s': State)
    requires Reachable(cron, s) && Ledger.Is(s.ledger, 0, Ledger.Scanning) && s.ledger.live[0].listed == [0]
    requires |s.checks| == 1 && s.checks[0].todo == [] && s.ledger.live.Keys == {0}
    ensures Reachable(cron, s') && s'.rows == s.rows && s'.reread == s.reread && s'.ledger.failed == s.ledger.failed
    ensures s'.ledger.live == map[0 := Ledger.Sweep(Ledger.Publishing, [])] && s'.ledger.published == s.ledger.published + [0]
  {
    var mid := Then(cron, s, CheckClose(0));
    assert [0][1..] == [];
    s' := Then(cron, mid, Publish(0));
  }

  /**
    A schedule that is registered and never started is alerted: a check whose
    clock reading is at its deadline or later can flag it, re-read it and, with
    no candidates left, publish it as missed.
   */
  lemma MissedStartIsAlerted(cron: Cron, name: string, interval: int64, grace: int64, at: Time, now: Time) returns (s: State)
    requires 0 <= interval && 0 <= grace && interval + grace <= 9_223_372_036
    requires at + (interval + grace) * 1_000_000_000 <= now
    ensures Reachable(cron, s) && s.ledger.published == [0] && s.ledger.live == map[] && s.ledger.failed == {}
    ensures 0 in s.reread && s.reread[0] == Schedule(name, Some(interval), None, grace, None, Missed, now)
    ensures s.rows == map[name := s.reread[0]]
  {
    var s1 := Flagging(cron, name, interval, grace, at, now);
    var s2 := Then(cron, s1, CheckGet(0));
    assert [] + [0] == [0];
    var s4 := Announced(cron, s2);
    s := Then(cron, s4, Publish(0));
    assert s.ledger.live == map[];
  }
}
