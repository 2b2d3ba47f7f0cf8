/** The store over task_runs, one method per operation. */
module TaskStores {
  import opened Options
  import opened Clock
  import opened TaskRuns
  import opened Database

  // What a sweep remembers of a row between its query and its updates.
  datatype Candidacy = Candidacy(runId: string, reference: Time, ttl: int64)

  class TaskStore {
    var rows: Table

    ghost predicate Valid()
      reads this
    {
      Keyed(rows)
    }

    constructor ()
      ensures Valid() && rows == map[]
    {
      rows := map[];
    }

    // The primary key refuses a second row with the same run id.
    method Create(run: TaskRun, refused: bool) returns (err: Option<StoreError>)
      requires Valid()
      modifies this
      ensures Valid()
      ensures err == if refused then Some(Database) else if run.runId in old(rows) then Some(Conflict) else None
      ensures rows == if err == None then old(rows)[run.runId := Inserted(run)] else old(rows)
      ensures err == None ==>
        rows[run.runId] == TaskRun(run.runId, run.taskName, run.source, run.status, run.startedAt,
                                   None, Some(run.startedAt), run.ttlSeconds, None, "")
    {
      if refused {
        return Some(Database);
      }
      if run.runId in rows {
        return Some(Conflict);
      }
      rows := rows[run.runId := Inserted(run)];
      return None;
    }

    method Heartbeat(runId: string, at: Time, refused: bool) returns (err: Option<StoreError>)
      requires Valid()
      modifies this
      ensures Valid()
      ensures err == if refused then Some(Database)
                     else if runId in old(rows) && old(rows)[runId].status == Running then None
                     else Some(NotFound)
      ensures rows == if refused then old(rows) else HeartbeatTable(old(rows), runId, at)
      ensures rows == if err == None then old(rows)[runId := old(rows)[runId].(lastHeartbeatAt := Some(at))] else old(rows)
    {
      if refused {
        return Some(Database);
      }
      var affected := 0;
      if runId in rows && rows[runId].status == Running {
        rows := rows[runId := rows[runId].(lastHeartbeatAt := Some(at))];
        affected := 1;
      }
      return if affected == 0 then Some(NotFound) else None;
    }

    // Reads started_at, then updates whatever row is there, whatever its status.
    method Finish(runId: string, status: Status, message: string, at: Time, readRefused: bool, refused: bool)
      returns (err: Option<StoreError>)
      requires Valid()
      modifies this
      ensures Valid()
      ensures err == if readRefused then Some(Database) else if runId !in old(rows) then Some(NotFound)
                     else if refused then Some(Database) else None
      ensures rows == if err == None then FinishTable(old(rows), runId, status, message, at) else old(rows)
      ensures err == None ==>
        var r := old(rows)[runId];
        && rows == old(rows)[runId := r.(status := status, finishedAt := Some(at), errorMessage := message,
                                         durationMs := Some(Milliseconds(Sub(at, r.startedAt))))]
        && (0 <= at - r.startedAt <= MAX64 ==> rows[runId].durationMs == Some((at - r.startedAt) / 1_000_000))
    {
      if readRefused {
        return Some(Database);
      }
      if runId !in rows {
        return Some(NotFound);
      }
      var started := rows[runId].startedAt;
      if refused {
        return Some(Database);
      }
      rows := rows[runId := Finished(rows[runId], status, message, at, started)];
      return None;
    }

    method Get(runId: string) returns (run: Option<TaskRun>)
      ensures run == if runId in rows then Some(rows[runId]) else None
    {
      return if runId in rows then Some(rows[runId]) else None;
    }

    /**
      Two loops: one over the rows the snapshot query returns, in any order,
      and one that updates and re-reads the overdue candidates one by one.
      Without a fault this is one simultaneous pass and the result lists
      exactly the rows it changed. With one, an arbitrary part of the pass has
      happened, and the partial result misses at most the last changed row.

      A changed row was running and has not been heard of for longer than its
      TTL, where a run is last heard of at its heartbeat, or else at its start.
     */
    method SweepTimeouts(now: Time, faults: Faults)
      returns (timedOut: seq<TaskRun>, failed: bool, ghost changed: set<string>, ghost listed: set<string>)
      requires Valid()
      modifies this
      ensures Valid()
      ensures changed <= OverdueIds(old(rows), now)
      ensures rows == SweepOnly(old(rows), now, changed)
      ensures Lists(timedOut, rows, listed) && listed <= changed && |changed - listed| <= 1
      ensures !failed ==> listed == changed == OverdueIds(old(rows), now)
      ensures rows.Keys == old(rows).Keys && changed <= rows.Keys
      ensures forall id :: id in rows && id !in changed ==> rows[id] == old(rows)[id]
      ensures forall id :: id in changed ==>
        var r := old(rows)[id];
        var heard := if r.lastHeartbeatAt.Some? then r.lastHeartbeatAt.value else r.startedAt;
        && r.status == Running && r.ttlSeconds.Some?
        && rows[id] == r.(status := Timeout, finishedAt := Some(now), durationMs := Some(Milliseconds(Sub(now, heard))),
                          errorMessage := "task exceeded TTL without heartbeat or completion")
        && (0 <= now - heard <= MAX64 ==> rows[id].durationMs == Some((now - heard) / 1_000_000))
      ensures forall id :: id in rows ==>
        var r := old(rows)[id];
        var heard := if r.lastHeartbeatAt.Some? then r.lastHeartbeatAt.value else r.startedAt;
        r.status == Running && r.ttlSeconds.Some? && -9_223_372_036 <= r.ttlSeconds.value <= 9_223_372_036 ==>
          && (id in changed ==> now - heard > r.ttlSeconds.value * 1_000_000_000)
          && (!failed && now - heard > r.ttlSeconds.value * 1_000_000_000 ==> id in changed)
    {
      timedOut, changed, listed, failed := [], {}, {}, true;
      OverdueRows(rows, now);
      assert rows == SweepOnly(rows, now, {});
      if faults.query {
        return;
      }
      var candidates := Candidates();
      timedOut, failed, changed, listed := TimeOutAll(candidates, now, faults);
    }

    // The second loop: update and re-read the overdue candidates.
    method TimeOutAll(candidates: seq<Candidacy>, now: Time, faults: Faults)
      returns (timedOut: seq<TaskRun>, failed: bool, ghost changed: set<string>, ghost listed: set<string>)
      requires Valid() && Snapshot(candidates, rows)
      modifies this
      ensures Valid()
      ensures changed <= OverdueIds(old(rows), now)
      ensures rows == SweepOnly(old(rows), now, changed)
      ensures Lists(timedOut, rows, listed) && listed <= changed && |changed - listed| <= 1
      ensures !failed ==> listed == changed == OverdueIds(old(rows), now)
    {
      timedOut, changed, listed, failed := [], {}, {}, true;
      assert rows == SweepOnly(rows, now, {});
      PickedAll(candidates, rows, now);
      var k := 0;
      while k < |candidates|
        invariant 0 <= k <= |candidates|
        invariant failed && Valid()
        invariant changed == Picked(candidates, k, now)
        invariant changed <= OverdueIds(old(rows), now)
        invariant rows == SweepOnly(old(rows), now, changed)
        invariant Lists(timedOut, rows, listed) && listed == changed
      {
        var c := candidates[k];
        k := k + 1;
        PickedStep(candidates, k, now);
        if Sub(now, c.reference) <= Seconds(c.ttl) {
          continue;
        }
        if faults.update(k - 1) {
          return;
        }
        var affected := MarkTimeout(c, now);
        assert affected == 1;
        changed := changed + {c.runId};
        SweepOnlyStep(old(rows), now, listed, c.runId);
        ListsStep(timedOut, SweepOnly(old(rows), now, listed), listed, rows[c.runId]);
        if affected == 0 {
          continue;
        }
        if faults.reread(k - 1) {
          assert changed - listed == {c.runId};
          return;
        }
        timedOut, listed := timedOut + [rows[c.runId]], changed;
      }
      failed := false;
    }

    // The guarded update of one candidate: only a row still running is changed.
    method MarkTimeout(c: Candidacy, now: Time) returns (affected: nat)
      requires Valid()
      modifies this
      ensures Valid()
      ensures affected == if c.runId in old(rows) && old(rows)[c.runId].status == Running then 1 else 0
      ensures rows == TimeoutTable(old(rows), c.runId, c.reference, now)
      ensures rows == if affected == 0 then old(rows) else
        old(rows)[c.runId := old(rows)[c.runId].(
          status := Timeout, finishedAt := Some(now), durationMs := Some(Milliseconds(Sub(now, c.reference))),
          errorMessage := "task exceeded TTL without heartbeat or completion")]
    {
      if c.runId !in rows || rows[c.runId].status != Running {
        return 0;
      }
      rows := rows[c.runId := TimedOut(rows[c.runId], c.reference, now)];
      return 1;
    }

    // The first loop: scan the running rows that declare a TTL.
    method Candidates() returns (candidates: seq<Candidacy>)
      requires Valid()
      ensures Snapshot(candidates, rows)
      ensures forall i, j :: 0 <= i < j < |candidates| ==> candidates[i].runId != candidates[j].runId
      ensures forall id :: (exists i :: 0 <= i < |candidates| && candidates[i].runId == id) <==>
        id in rows && rows[id].status == Running && rows[id].ttlSeconds.Some?
      ensures forall i :: 0 <= i < |candidates| ==>
        var c := candidates[i];
        && c.runId in rows && rows[c.runId].ttlSeconds == Some(c.ttl)
        && c.reference == if rows[c.runId].lastHeartbeatAt.Some? then rows[c.runId].lastHeartbeatAt.value else rows[c.runId].startedAt
    {
      candidates := [];
      var unread := set id | id in rows && Candidate(rows[id]);
      while unread != {}
        invariant forall id :: id in unread ==> id in rows && Candidate(rows[id])
        invariant forall id :: id in rows && Candidate(rows[id]) && id !in unread ==> Mentions(candidates, id)
        invariant forall i :: 0 <= i < |candidates| ==> candidates[i].runId !in unread && Remembers(candidates[i], rows)
        invariant Distinct(candidates)
        decreases |unread|
      {
        var id :| id in unread;
        var row := rows[id];
        var reference := row.startedAt;
        if row.lastHeartbeatAt.Some? {
          reference := row.lastHeartbeatAt.value;
        }
        ghost var before := candidates;
        candidates := candidates + [Candidacy(id, reference, row.ttlSeconds.value)];
        assert candidates[|before|].runId == id;
        assert forall x :: Mentions(before, x) ==> Mentions(candidates, x) by {
          forall x | Mentions(before, x) ensures Mentions(candidates, x) {
            var i :| 0 <= i < |before| && before[i].runId == x;
            assert candidates[i].runId == x;
          }
        }
        unread := unread - {id};
      }
    }

    // Deletes finished rows from before the cutoff and counts them.
    method DeleteOlderThan(cutoff: Time, refused: bool) returns (deleted: nat, err: Option<StoreError>)
      requires Valid()
      modifies this
      ensures Valid()
      ensures err == if refused then Some(Database) else None
      ensures rows == if refused then old(rows) else Retained(old(rows), cutoff)
      ensures forall id :: id in rows ==> id in old(rows) && rows[id] == old(rows)[id]
      ensures !refused ==> forall id :: id in old(rows) ==>
        (id !in rows <==> old(rows)[id].finishedAt.Some? && old(rows)[id].finishedAt.value < cutoff)
      ensures deleted == if refused then 0 else |set id | id in old(rows) && Stale(old(rows)[id], cutoff)|
    {
      if refused {
        return 0, Some(Database);
      }
      var stale := set id | id in rows && Stale(rows[id], cutoff);
      rows := Retained(rows, cutoff);
      return |stale|, None;
    }
  }

  // ---------- the snapshot between the two loops ----------

  ghost predicate Mentions(cs: seq<Candidacy>, id: string) {
    exists i :: 0 <= i < |cs| && cs[i].runId == id
  }

  ghost predicate Distinct(cs: seq<Candidacy>) {
    forall i, j :: 0 <= i < j < |cs| ==> cs[i].runId != cs[j].runId
  }

  ghost predicate Remembers(c: Candidacy, t: Table) {
    c.runId in t && Candidate(t[c.runId]) && c.reference == Reference(t[c.runId]) && Some(c.ttl) == t[c.runId].ttlSeconds
  }

  // Every running row with a TTL, once each, as it stood at the query.
  ghost predicate Snapshot(cs: seq<Candidacy>, t: Table) {
    && Distinct(cs)
    && (forall i :: 0 <= i < |cs| ==> Remembers(cs[i], t))
    && (forall id :: id in t && Candidate(t[id]) ==> Mentions(cs, id))
  }

  // The keys of those among the first k that a pass acts on.
  ghost function Picked(cs: seq<Candidacy>, k: nat, now: Time): set<string>
    requires k <= |cs|
  {
    set i | 0 <= i < k && Expired(cs[i].reference, cs[i].ttl, now) :: cs[i].runId
  }

  lemma PickedAll(cs: seq<Candidacy>, t: Table, now: Time)
    requires Snapshot(cs, t)
    ensures Picked(cs, |cs|, now) == OverdueIds(t, now)
    ensures forall i :: 0 <= i < |cs| ==> cs[i].runId in t && t[cs[i].runId].status == Running
  {
    forall id | id in OverdueIds(t, now) ensures id in Picked(cs, |cs|, now) {
      assert Mentions(cs, id);
    }
  }

  lemma PickedStep(cs: seq<Candidacy>, k: nat, now: Time)
    requires 0 < k <= |cs| && Distinct(cs)
    ensures cs[k - 1].runId !in Picked(cs, k - 1, now)
    ensures Expired(cs[k - 1].reference, cs[k - 1].ttl, now) ==> Picked(cs, k, now) == Picked(cs, k - 1, now) + {cs[k - 1].runId}
    ensures !Expired(cs[k - 1].reference, cs[k - 1].ttl, now) ==> Picked(cs, k, now) == Picked(cs, k - 1, now)
    ensures Picked(cs, k, now) <= Picked(cs, |cs|, now)
  {
  }

  // What being overdue and timing out come to, for each row of a table.
  lemma OverdueRows(t: Table, now: Time)
    ensures forall id :: id in t ==>
      var r := t[id];
      var heard := if r.lastHeartbeatAt.Some? then r.lastHeartbeatAt.value else r.startedAt;
      && (id in OverdueIds(t, now) ==> r.status == Running && r.ttlSeconds.Some?)
      && (r.status == Running && r.ttlSeconds.Some? && -9_223_372_036 <= r.ttlSeconds.value <= 9_223_372_036 ==>
            (id in OverdueIds(t, now) <==> now - heard > r.ttlSeconds.value * 1_000_000_000))
      && TimedOut(r, Reference(r), now) ==
           r.(status := Timeout, finishedAt := Some(now), durationMs := Some(Milliseconds(Sub(now, heard))),
              errorMessage := "task exceeded TTL without heartbeat or completion")
      && (0 <= now - heard <= MAX64 ==> Milliseconds(Sub(now, heard)) == (now - heard) / 1_000_000)
  {
    forall id | id in t && t[id].ttlSeconds.Some? && -9_223_372_036 <= t[id].ttlSeconds.value <= 9_223_372_036
      ensures var r := t[id];
              var heard := if r.lastHeartbeatAt.Some? then r.lastHeartbeatAt.value else r.startedAt;
              Overdue(r, now) <==> r.status == Running && now - heard > r.ttlSeconds.value * 1_000_000_000
    {
      OverdueMeans(t[id], now);
    }
  }

  lemma SweepOnlyStep(t: Table, now: Time, ids: set<string>, id: string)
    requires id in t && id !in ids
    ensures SweepOnly(t, now, ids)[id] == t[id]
    ensures SweepOnly(t, now, ids + {id}) == SweepOnly(t, now, ids)[id := TimedOut(t[id], Reference(t[id]), now)]
  {
  }

  lemma ListsStep(rs: seq<TaskRun>, t: Table, ids: set<string>, row: TaskRun)
    requires Lists(rs, t, ids) && row.runId !in ids
    ensures Lists(rs, t[row.runId := row], ids)
    ensures Lists(rs + [row], t[row.runId := row], ids + {row.runId})
  {
    var longer := rs + [row];
    assert longer[|rs|] == row;
    forall id | id in ids ensures exists i :: 0 <= i < |longer| && longer[i].runId == id {
      var i :| 0 <= i < |rs| && rs[i].runId == id;
      assert longer[i].runId == id;
    }
  }
}
