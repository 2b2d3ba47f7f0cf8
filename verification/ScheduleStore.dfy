/** The store over task_schedules, one method per operation. */
module ScheduleStores {
  import opened Options
  import opened Clock
  import opened Schedules
  import opened Database

  // What a check remembers of a row between its query and its updates.
  datatype Expectation = Expectation(taskName: string, deadline: Time)

  class ScheduleStore {
    var rows: Table

    ghost predicate Valid()
      reads this
    {
      Keyed(rows)
    }

    constructor ()
      ensures Valid() && rows == map[]
    {
      rows := map[];
    }

    method Upsert(name: string, interval: Option<int64>, cron: Option<string>, grace: int64, now: Time, refused: bool)
      returns (err: Option<StoreError>)
      requires Valid()
      modifies this
      ensures Valid()
      ensures err == if refused then Some(Database) else None
      ensures rows == if refused then old(rows) else Upserted(old(rows), name, interval, cron, grace, now)
      ensures !refused ==>
        && rows.Keys == old(rows).Keys + {name}
        && (forall other :: other in old(rows) && other != name ==> rows[other] == old(rows)[other])
        && var row := rows[name];
        && row.taskName == name && row.interval == interval && row.cron == cron && row.grace == grace && row.updatedAt == now
        && (name !in old(rows) ==> row.health == Ok && row.lastSeenAt == None)
        && (name in old(rows) ==> row.health == old(rows)[name].health && row.lastSeenAt == old(rows)[name].lastSeenAt)
    {
      if refused {
        return Some(Database);
      }
      if name in rows {
        rows := rows[name := rows[name].(interval := interval, cron := cron, grace := grace, updatedAt := now)];
      } else {
        rows := rows[name := Schedule(name, interval, cron, grace, None, Ok, now)];
      }
      return None;
    }

    // Not an error when no schedule is registered under the name.
    method Touch(name: string, at: Time, refused: bool) returns (err: Option<StoreError>)
      requires Valid()
      modifies this
      ensures Valid()
      ensures err == if refused then Some(Database) else None
      ensures rows == if refused then old(rows) else Touched(old(rows), name, at)
      ensures rows == if refused || name !in old(rows) then old(rows) else
        old(rows)[name := old(rows)[name].(lastSeenAt := Some(at), health := Ok, updatedAt := at)]
    {
      if refused {
        return Some(Database);
      }
      if name in rows {
        rows := rows[name := rows[name].(lastSeenAt := Some(at), health := Ok, updatedAt := at)];
      }
      return None;
    }

    method Delete(name: string, refused: bool) returns (err: Option<StoreError>)
      requires Valid()
      modifies this
      ensures Valid()
      ensures err == if refused then Some(Database) else if name in old(rows) then None else Some(NotFound)
      ensures rows == if refused then old(rows) else old(rows) - {name}
    {
      if refused {
        return Some(Database);
      }
      var affected := if name in rows then 1 else 0;
      rows := rows - {name};
      return if affected == 0 then Some(NotFound) else None;
    }

    /**
      Two loops, as in the TTL sweep: deadlines of all rows that are ok, in any
      order, skipping unparsable expressions; then an update and a re-read for
      each overdue one. Without a fault this is one simultaneous pass and the
      result lists exactly the rows it changed. With one, an arbitrary part of
      the pass has happened, and the partial result misses at most the last
      changed row.

      A changed row was ok, and its deadline has come: an interval or a cron
      occurrence, plus the grace period, after the last start, or after the
      registration of a name never started. Only health and updated_at change.
     */
    method DetectMissed(cron: Cron, now: Time, faults: Faults)
      returns (missed: seq<Schedule>, failed: bool, ghost changed: set<string>, ghost listed: set<string>)
      requires Valid()
      modifies this
      ensures Valid()
      ensures changed <= OverdueNames(cron, old(rows), now)
      ensures rows == FlagOnly(old(rows), now, changed)
      ensures Lists(missed, rows, listed) && listed <= changed && |changed - listed| <= 1
      ensures !failed ==> listed == changed == OverdueNames(cron, old(rows), now)
      ensures rows.Keys == old(rows).Keys && changed <= rows.Keys
      ensures forall name :: name in rows && name !in changed ==> rows[name] == old(rows)[name]
      ensures forall name :: name in changed ==>
        && old(rows)[name].health == Ok
        && rows[name] == old(rows)[name].(health := Missed, updatedAt := now)
      ensures forall name :: name in rows && old(rows)[name].health == Ok ==>
        var s := old(rows)[name];
        var seen := if s.lastSeenAt.Some? then s.lastSeenAt.value else s.updatedAt;
        && (s.cron == None && s.interval.Some? && 0 <= s.interval.value && 0 <= s.grace
              && s.interval.value + s.grace <= 9_223_372_036 ==>
              && (name in changed ==> seen + (s.interval.value + s.grace) * 1_000_000_000 <= now)
              && (!failed && seen + (s.interval.value + s.grace) * 1_000_000_000 <= now ==> name in changed))
        && (s.cron.Some? && cron.parses(s.cron.value) && -9_223_372_036 <= s.grace <= 9_223_372_036 ==>
              && (name in changed ==> cron.next(s.cron.value, seen) + s.grace * 1_000_000_000 <= now)
              && (!failed && cron.next(s.cron.value, seen) + s.grace * 1_000_000_000 <= now ==> name in changed))
        && (s.cron.Some? && !cron.parses(s.cron.value) ==> name !in changed)
    {
      missed, changed, listed, failed := [], {}, {}, true;
      OverdueRows(cron, rows, now);
      assert rows == FlagOnly(rows, now, {});
      if faults.query {
        return;
      }
      var candidates := Candidates(cron);
      missed, failed, changed, listed := FlagAll(cron, candidates, now, faults);
    }

    // The second loop: update and re-read the overdue candidates.
    method FlagAll(ghost cron: Cron, candidates: seq<Expectation>, now: Time, faults: Faults)
      returns (missed: seq<Schedule>, failed: bool, ghost changed: set<string>, ghost listed: set<string>)
      requires Valid() && Snapshot(cron, candidates, rows)
      modifies this
      ensures Valid()
      ensures changed <= OverdueNames(cron, old(rows), now)
      ensures rows == FlagOnly(old(rows), now, changed)
      ensures Lists(missed, rows, listed) && listed <= changed && |changed - listed| <= 1
      ensures !failed ==> listed == changed == OverdueNames(cron, old(rows), now)
    {
      missed, changed, listed, failed := [], {}, {}, true;
      assert rows == FlagOnly(rows, now, {});
      PickedAll(cron, candidates, rows, now);
      var k := 0;
      while k < |candidates|
        invariant 0 <= k <= |candidates|
        invariant failed && Valid()
        invariant changed == Picked(candidates, k, now)
        invariant changed <= OverdueNames(cron, old(rows), now)
        invariant rows == FlagOnly(old(rows), now, changed)
        invariant Lists(missed, rows, listed) && listed == changed
      {
        var c := candidates[k];
        k := k + 1;
        PickedStep(candidates, k, now);
        if now < c.deadline {
          continue;
        }
        if faults.update(k - 1) {
          return;
        }
        var affected := MarkMissed(c.taskName, now);
        assert affected == 1;
        changed := changed + {c.taskName};
        FlagOnlyStep(old(rows), now, listed, c.taskName);
        ListsStep(missed, FlagOnly(old(rows), now, listed), listed, rows[c.taskName]);
        if affected == 0 {
          continue;
        }
        if faults.reread(k - 1) {
          assert changed - listed == {c.taskName};
          return;
        }
        missed, listed := missed + [rows[c.taskName]], changed;
      }
      failed := false;
    }

    // The guarded update of one candidate: only a row still ok is changed.
    method MarkMissed(name: string, now: Time) returns (affected: nat)
      requires Valid()
      modifies this
      ensures Valid()
      ensures affected == if name in old(rows) && old(rows)[name].health == Ok then 1 else 0
      ensures rows == if affected == 1 then old(rows)[name := Flagged(old(rows)[name], now)] else old(rows)
      ensures affected == 1 ==> rows == old(rows)[name := old(rows)[name].(health := Missed, updatedAt := now)]
    {
      if name !in rows || rows[name].health != Ok {
        return 0;
      }
      rows := rows[name := Flagged(rows[name], now)];
      return 1;
    }

    // The first loop: the deadline of every row that is ok and has one.
    method Candidates(cron: Cron) returns (candidates: seq<Expectation>)
      requires Valid()
      ensures Snapshot(cron, candidates, rows)
      ensures forall i, j :: 0 <= i < j < |candidates| ==> candidates[i].taskName != candidates[j].taskName
      ensures forall name :: (exists i :: 0 <= i < |candidates| && candidates[i].taskName == name) <==>
        name in rows && rows[name].health == Ok && (rows[name].cron.Some? ==> cron.parses(rows[name].cron.value))
      ensures forall i :: 0 <= i < |candidates| ==>
        var s := rows[candidates[i].taskName];
        var seen := if s.lastSeenAt.Some? then s.lastSeenAt.value else s.updatedAt;
        candidates[i].deadline ==
          if s.cron.Some? then cron.next(s.cron.value, seen) + Seconds(s.grace)
          else seen + Allowance(if s.interval.Some? then s.interval.value else 0, s.grace)
    {
      candidates := [];
      var unread := set name | name in rows && rows[name].health == Ok;
      while unread != {}
        invariant forall name :: name in unread ==> name in rows && rows[name].health == Ok
        invariant forall name :: name in rows && rows[name].health == Ok && Deadline(cron, rows[name]).Some? && name !in unread ==>
          Mentions(candidates, name)
        invariant forall i :: 0 <= i < |candidates| ==>
          candidates[i].taskName !in unread && Expects(cron, candidates[i], rows)
        invariant Distinct(candidates)
        decreases |unread|
      {
        var name :| name in unread;
        unread := unread - {name};
        var row := rows[name];
        var reference := row.updatedAt;
        if row.lastSeenAt.Some? {
          reference := row.lastSeenAt.value;
        }
        var deadline;
        if row.cron.Some? {
          if !cron.parses(row.cron.value) {
            continue;
          }
          deadline := cron.next(row.cron.value, reference) + Seconds(row.grace);
        } else {
          deadline := reference + Allowance(if row.interval.Some? then row.interval.value else 0, row.grace);
        }
        MentionsStep(candidates, Expectation(name, deadline));
        candidates := candidates + [Expectation(name, deadline)];
      }
    }
  }

  // ---------- the snapshot between the two loops ----------

  ghost predicate Mentions(cs: seq<Expectation>, name: string) {
    exists i :: 0 <= i < |cs| && cs[i].taskName == name
  }

  ghost predicate Distinct(cs: seq<Expectation>) {
    forall i, j :: 0 <= i < j < |cs| ==> cs[i].taskName != cs[j].taskName
  }

  ghost predicate Expects(cron: Cron, c: Expectation, t: Table) {
    c.taskName in t && t[c.taskName].health == Ok && Deadline(cron, t[c.taskName]) == Some(c.deadline)
  }

  // Every ok row that has a deadline, once each, as it stood at the query.
  ghost predicate Snapshot(cron: Cron, cs: seq<Expectation>, t: Table) {
    && Distinct(cs)
    && (forall i :: 0 <= i < |cs| ==> Expects(cron, cs[i], t))
    && (forall name :: name in t && t[name].health == Ok && Deadline(cron, t[name]).Some? ==> Mentions(cs, name))
  }

  // The keys of those among the first k that a pass acts on.
  ghost function Picked(cs: seq<Expectation>, k: nat, now: Time): set<string>
    requires k <= |cs|
  {
    set i | 0 <= i < k && cs[i].deadline <= now :: cs[i].taskName
  }

  lemma MentionsStep(cs: seq<Expectation>, c: Expectation)
    ensures Mentions(cs + [c], c.taskName)
    ensures forall name :: Mentions(cs, name) ==> Mentions(cs + [c], name)
  {
    assert (cs + [c])[|cs|] == c;
    forall name | Mentions(cs, name) ensures Mentions(cs + [c], name) {
      var i :| 0 <= i < |cs| && cs[i].taskName == name;
      assert (cs + [c])[i].taskName == name;
    }
  }

  lemma PickedAll(cron: Cron, cs: seq<Expectation>, t: Table, now: Time)
    requires Snapshot(cron, cs, t)
    ensures Picked(cs, |cs|, now) == OverdueNames(cron, t, now)
    ensures forall i :: 0 <= i < |cs| ==> cs[i].taskName in t && t[cs[i].taskName].health == Ok
  {
    forall name | name in OverdueNames(cron, t, now) ensures name in Picked(cs, |cs|, now) {
      assert Mentions(cs, name);
    }
  }

  lemma PickedStep(cs: seq<Expectation>, k: nat, now: Time)
    requires 0 < k <= |cs| && Distinct(cs)
    ensures cs[k - 1].taskName !in Picked(cs, k - 1, now)
    ensures cs[k - 1].deadline <= now ==> Picked(cs, k, now) == Picked(cs, k - 1, now) + {cs[k - 1].taskName}
    ensures now < cs[k - 1].deadline ==> Picked(cs, k, now) == Picked(cs, k - 1, now)
    ensures Picked(cs, k, now) <= Picked(cs, |cs|, now)
  {
  }

  // What being overdue and flagging come to, for each row of a table.
  lemma OverdueRows(cron: Cron, t: Table, now: Time)
    ensures forall name :: name in t ==> Flagged(t[name], now) == t[name].(health := Missed, updatedAt := now)
    ensures forall name :: name in OverdueNames(cron, t, now) ==> t[name].health == Ok
    ensures forall name :: name in t && t[name].health == Ok ==>
      var s := t[name];
      var seen := if s.lastSeenAt.Some? then s.lastSeenAt.value else s.updatedAt;
      && (s.cron == None && s.interval.Some? && 0 <= s.interval.value && 0 <= s.grace && s.interval.value + s.grace <= 9_223_372_036 ==>
            (name in OverdueNames(cron, t, now) <==> seen + (s.interval.value + s.grace) * 1_000_000_000 <= now))
      && (s.cron.Some? && cron.parses(s.cron.value) && -9_223_372_036 <= s.grace <= 9_223_372_036 ==>
            (name in OverdueNames(cron, t, now) <==> cron.next(s.cron.value, seen) + s.grace * 1_000_000_000 <= now))
      && (s.cron.Some? && !cron.parses(s.cron.value) ==> name !in OverdueNames(cron, t, now))
  {
    forall name | name in t && t[name].health == Ok && t[name].cron == None && t[name].interval.Some?
      && 0 <= t[name].interval.value && 0 <= t[name].grace && t[name].interval.value + t[name].grace <= 9_223_372_036
      ensures var seen := if t[name].lastSeenAt.Some? then t[name].lastSeenAt.value else t[name].updatedAt;
              Due(cron, t[name], now) <==> seen + (t[name].interval.value + t[name].grace) * 1_000_000_000 <= now
    {
      IntervalOverdue(cron, t[name], now);
    }
    forall name | name in t && -9_223_372_036 <= t[name].grace <= 9_223_372_036
      ensures Seconds(t[name].grace) == t[name].grace * 1_000_000_000
    {
      WrapOf(t[name].grace * SECOND);
    }
  }

  lemma FlagOnlyStep(t: Table, now: Time, names: set<string>, name: string)
    requires name in t && name !in names
    ensures FlagOnly(t, now, names)[name] == t[name]
    ensures FlagOnly(t, now, names + {name}) == FlagOnly(t, now, names)[name := Flagged(t[name], now)]
  {
  }

  lemma ListsStep(rs: seq<Schedule>, t: Table, names: set<string>, row: Schedule)
    requires Lists(rs, t, names) && row.taskName !in names
    ensures Lists(rs, t[row.taskName := row], names)
    ensures Lists(rs + [row], t[row.taskName := row], names + {row.taskName})
  {
    var longer := rs + [row];
    assert longer[|rs|] == row;
    forall name | name in names ensures exists i :: 0 <= i < |longer| && longer[i].taskName == name {
      var i :| 0 <= i < |rs| && rs[i].taskName == name;
      assert longer[i].taskName == name;
    }
  }
}
