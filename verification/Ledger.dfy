/**
  From a row a background sweep changed to the event it publishes.

  Both sweeps have one shape: query a snapshot, then per candidate a guarded
  update and a re-read, and at the end publish the whole list, or nothing at
  all when any statement failed. A hit is an update that changed a row; hits
  are numbered in the order they happen, whichever sweep makes them. Any
  number of sweeps may be under way at once.
 */
module Ledger {
  datatype Phase =
    | Scanning            // before the next candidate's update
    | Reading(hit: nat)   // that update changed a row, which is not yet re-read
    | Publishing          // all candidates done

  datatype Sweep = Sweep(phase: Phase, listed: seq<nat>)

  datatype Ledger = Ledger(
    live: map<nat, Sweep>,   // sweeps under way
    started: nat,            // sweeps so far, live or not
    owner: seq<nat>,         // who made each hit
    published: seq<nat>,     // hits in the order their events went out
    failed: set<nat>)        // sweeps that met an error

  const EMPTY := Ledger(map[], 0, [], [], {})

  predicate Is(l: Ledger, sweep: nat, phase: Phase) {
    sweep in l.live && l.live[sweep].phase == phase
  }

  predicate Rereads(l: Ledger, sweep: nat) {
    sweep in l.live && l.live[sweep].phase.Reading?
  }

  function Begin(l: Ledger): Ledger {
    l.(live := l.live[l.started := Sweep(Scanning, [])], started := l.started + 1)
  }

  function Strike(l: Ledger, sweep: nat): Ledger
    requires Is(l, sweep, Scanning)
  {
    l.(live := l.live[sweep := l.live[sweep].(phase := Reading(|l.owner|))], owner := l.owner + [sweep])
  }

  function Reread(l: Ledger, sweep: nat): Ledger
    requires Rereads(l, sweep)
  {
    var s := l.live[sweep];
    l.(live := l.live[sweep := Sweep(Scanning, s.listed + [s.phase.hit])])
  }

  // The list so far is discarded.
  function Fail(l: Ledger, sweep: nat): Ledger
    requires Is(l, sweep, Scanning) || Rereads(l, sweep)
  {
    l.(live := l.live - {sweep}, failed := l.failed + {sweep})
  }

  function Close(l: Ledger, sweep: nat): Ledger
    requires Is(l, sweep, Scanning)
  {
    l.(live := l.live[sweep := l.live[sweep].(phase := Publishing)])
  }

  // Publishes the next listed hit, or ends a sweep with nothing left.
  function Publish(l: Ledger, sweep: nat): Ledger
    requires Is(l, sweep, Publishing)
  {
    var s := l.live[sweep];
    if s.listed == [] then
      l.(live := l.live - {sweep})
    else
      l.(live := l.live[sweep := s.(listed := s.listed[1..])], published := l.published + [s.listed[0]])
  }

  // ---------- the invariant ----------

  ghost predicate Pending(s: Sweep, hit: nat) {
    hit in s.listed || s.phase == Reading(hit)
  }

  ghost predicate NoRepeats(hits: seq<nat>) {
    forall i, j :: 0 <= i < j < |hits| ==> hits[i] != hits[j]
  }

  ghost predicate SweepOk(l: Ledger, sweep: nat, s: Sweep) {
    && sweep < l.started && sweep !in l.failed
    && NoRepeats(s.listed)
    && (s.phase.Reading? ==> s.phase.hit !in s.listed)
    && (forall hit: nat :: Pending(s, hit) ==> hit < |l.owner| && l.owner[hit] == sweep && hit !in l.published)
    && (!s.phase.Publishing? ==> forall hit :: hit in l.published && hit < |l.owner| ==> l.owner[hit] != sweep)
  }

  ghost predicate Valid(l: Ledger) {
    && (forall sweep :: sweep in l.live ==> SweepOk(l, sweep, l.live[sweep]))
    && (forall sweep :: sweep in l.failed || sweep in l.owner ==> sweep < l.started)
    && NoRepeats(l.published)
    && (forall hit :: hit in l.published ==> hit < |l.owner| && l.owner[hit] !in l.failed)
    && (forall hit :: 0 <= hit < |l.owner| ==> Accounted(l, hit))
  }

  // Nothing is lost: a hit is out, on its way, or its sweep failed.
  ghost predicate Accounted(l: Ledger, hit: nat)
    requires hit < |l.owner|
  {
    hit in l.published || l.owner[hit] in l.failed || (l.owner[hit] in l.live && Pending(l.live[l.owner[hit]], hit))
  }

  lemma EmptyValid()
    ensures Valid(EMPTY)
  {
  }

  lemma BeginValid(l: Ledger)
    requires Valid(l)
    ensures Valid(Begin(l))
  {
    var m := Begin(l);
    forall hit | 0 <= hit < |m.owner| ensures Accounted(m, hit) {
      assert Accounted(l, hit);
      if l.owner[hit] in l.live {
        assert SweepOk(l, l.owner[hit], l.live[l.owner[hit]]);
      }
    }
    forall sweep | sweep in m.live ensures SweepOk(m, sweep, m.live[sweep]) {
      if sweep != l.started {
        assert SweepOk(l, sweep, l.live[sweep]);
      }
    }
  }

  lemma StrikeValid(l: Ledger, sweep: nat)
    requires Valid(l) && Is(l, sweep, Scanning)
    ensures Valid(Strike(l, sweep))
  {
    var m := Strike(l, sweep);
    assert m.owner[|l.owner|] == sweep;
    assert forall p :: p in m.owner ==> p in l.owner || p == sweep;
    forall p | p in m.live ensures SweepOk(m, p, m.live[p]) {
      assert SweepOk(l, p, l.live[p]);
      assert forall hit: nat :: hit in m.live[p].listed ==> Pending(l.live[p], hit);
      assert forall hit: nat :: Pending(m.live[p], hit) ==> Pending(l.live[p], hit) || (p == sweep && hit == |l.owner|);
    }
    forall hit | 0 <= hit < |m.owner| ensures Accounted(m, hit) {
      if hit < |l.owner| {
        assert Accounted(l, hit);
      }
    }
  }

  lemma RereadValid(l: Ledger, sweep: nat)
    requires Valid(l) && Rereads(l, sweep)
    ensures Valid(Reread(l, sweep))
  {
    var m := Reread(l, sweep);
    assert SweepOk(l, sweep, l.live[sweep]);
    assert forall hit: nat :: Pending(m.live[sweep], hit) <==> Pending(l.live[sweep], hit);
    forall p | p in m.live ensures SweepOk(m, p, m.live[p]) {
      assert SweepOk(l, p, l.live[p]);
    }
    forall hit | 0 <= hit < |m.owner| ensures Accounted(m, hit) {
      assert Accounted(l, hit);
    }
  }

  lemma FailValid(l: Ledger, sweep: nat)
    requires Valid(l) && (Is(l, sweep, Scanning) || Rereads(l, sweep))
    ensures Valid(Fail(l, sweep))
  {
    var m := Fail(l, sweep);
    assert SweepOk(l, sweep, l.live[sweep]);
    forall p | p in m.live ensures SweepOk(m, p, m.live[p]) {
      assert SweepOk(l, p, l.live[p]);
    }
    forall hit | 0 <= hit < |m.owner| ensures Accounted(m, hit) {
      assert Accounted(l, hit);
    }
  }

  lemma CloseValid(l: Ledger, sweep: nat)
    requires Valid(l) && Is(l, sweep, Scanning)
    ensures Valid(Close(l, sweep))
  {
    var m := Close(l, sweep);
    assert SweepOk(l, sweep, l.live[sweep]);
    assert forall hit: nat :: Pending(m.live[sweep], hit) <==> Pending(l.live[sweep], hit);
    forall p | p in m.live ensures SweepOk(m, p, m.live[p]) {
      assert SweepOk(l, p, l.live[p]);
    }
    forall hit | 0 <= hit < |m.owner| ensures Accounted(m, hit) {
      assert Accounted(l, hit);
    }
  }

  lemma PublishValid(l: Ledger, sweep: nat)
    requires Valid(l) && Is(l, sweep, Publishing)
    ensures Valid(Publish(l, sweep))
  {
    var m, listed := Publish(l, sweep), l.live[sweep].listed;
    assert SweepOk(l, sweep, l.live[sweep]);
    if listed != [] {
      assert listed == [listed[0]] + listed[1..];
      assert Pending(l.live[sweep], listed[0]);
      assert m.published[|l.published|] == listed[0];
      assert forall hit: nat :: Pending(m.live[sweep], hit) <==> Pending(l.live[sweep], hit) && hit != listed[0];
    }
    forall p | p in m.live ensures SweepOk(m, p, m.live[p]) {
      assert SweepOk(l, p, l.live[p]);
    }
    forall hit | 0 <= hit < |m.owner| ensures Accounted(m, hit) {
      assert Accounted(l, hit);
    }
  }

  /**
    Once every sweep has ended, a hit's event went out exactly when its sweep
    met no error; and no event ever goes out twice.
   */
  lemma PublishedIffSound(l: Ledger)
    requires Valid(l)
    ensures forall i, j :: 0 <= i < j < |l.published| ==> l.published[i] != l.published[j]
    ensures forall hit :: hit in l.published ==> hit < |l.owner| && l.owner[hit] !in l.failed
    ensures l.live == map[] ==> forall hit: nat :: hit < |l.owner| ==>
      (hit in l.published <==> l.owner[hit] !in l.failed)
  {
    if l.live == map[] {
      forall hit: nat | hit < |l.owner| ensures hit in l.published <==> l.owner[hit] !in l.failed {
        assert Accounted(l, hit);
      }
    }
  }
}
