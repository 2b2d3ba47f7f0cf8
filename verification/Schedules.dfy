/**
  Rows of the task_schedules table: what one is, when it is overdue, and what
  each SQL statement does to it.
 */
module Schedules {
  import opened Options
  import opened Clock

  datatype Health = Ok | Missed

  datatype Schedule = Schedule(
    taskName: string,
    interval: Option<int64>,
    cron: Option<string>,
    grace: int64,
    lastSeenAt: Option<Time>,
    health: Health,
    updatedAt: Time)

  type Table = map<string, Schedule>

  // The cron library: whether an expression parses, and the instant it gives
  // as the next one after another.
  datatype Cron = Cron(parses: string -> bool, next: (string, Time) -> Time)

  predicate Keyed(t: Table) {
    forall name :: name in t ==> t[name].taskName == name
  }

  // ---------- deadlines ----------

  // Registered but never seen: count from the registration.
  function Reference(s: Schedule): Time {
    match s.lastSeenAt
    case Some(at) => at
    case None => s.updatedAt
  }

  // No deadline for a stored expression that does not parse. A null interval
  // column counts as zero seconds.
  function Deadline(cron: Cron, s: Schedule): Option<Time> {
    match s.cron
    case Some(spec) =>
      if cron.parses(spec) then Some(cron.next(spec, Reference(s)) + Seconds(s.grace)) else None
    case None =>
      Some(Reference(s) + Allowance(if s.interval.Some? then s.interval.value else 0, s.grace))
  }

  predicate Due(cron: Cron, s: Schedule, now: Time) {
    Deadline(cron, s).Some? && Deadline(cron, s).value <= now
  }

  predicate Overdue(cron: Cron, s: Schedule, now: Time) {
    s.health == Ok && Due(cron, s, now)
  }

  // next is the least occurrence after an instant, whenever there is one.
  ghost predicate Lawful(cron: Cron, occurs: (string, Time) -> bool) {
    forall spec, after: Time, o: Time :: cron.parses(spec) && occurs(spec, o) && after < o ==>
      after < cron.next(spec, after) <= o && occurs(spec, cron.next(spec, after))
  }

  ghost predicate OccursAfter(occurs: (string, Time) -> bool, spec: string, after: Time) {
    exists o: Time :: after < o && occurs(spec, o)
  }

  /**
    Cron mode: with any occurrence ahead of the reference, a row is due exactly
    when some occurrence after the reference is a grace period ago; without one,
    when whatever the library gives as the next occurrence is.
   */
  lemma CronOverdue(cron: Cron, occurs: (string, Time) -> bool, s: Schedule, now: Time)
    requires Lawful(cron, occurs) && s.cron.Some? && cron.parses(s.cron.value)
    requires -MAX_SECONDS <= s.grace <= MAX_SECONDS
    ensures var seen := if s.lastSeenAt.Some? then s.lastSeenAt.value else s.updatedAt;
            && (OccursAfter(occurs, s.cron.value, seen) ==>
                  (Due(cron, s, now) <==>
                     exists o: Time :: seen < o && occurs(s.cron.value, o) && o + s.grace * 1_000_000_000 <= now))
            && (!OccursAfter(occurs, s.cron.value, seen) ==>
                  (Due(cron, s, now) <==> cron.next(s.cron.value, seen) + s.grace * 1_000_000_000 <= now))
  {
    WrapOf(s.grace * SECOND);
    if OccursAfter(occurs, s.cron.value, Reference(s)) {
      var o: Time :| Reference(s) < o && occurs(s.cron.value, o);
      var first := cron.next(s.cron.value, Reference(s));
      assert Reference(s) < first && occurs(s.cron.value, first);
    }
  }

  /** Interval mode: overdue exactly when interval and grace have passed. */
  lemma IntervalOverdue(cron: Cron, s: Schedule, now: Time)
    requires s.cron == None && s.interval.Some?
    requires 0 <= s.interval.value && 0 <= s.grace && s.interval.value + s.grace <= 9_223_372_036
    ensures var seen := if s.lastSeenAt.Some? then s.lastSeenAt.value else s.updatedAt;
            Due(cron, s, now) <==> seen + (s.interval.value + s.grace) * 1_000_000_000 <= now
  {
    AllowanceExact(s.interval.value, s.grace);
  }

  // ---------- statements ----------

  // INSERT, or on conflict UPDATE of everything but last_seen_at and status.
  function Upserted(t: Table, name: string, interval: Option<int64>, cron: Option<string>, grace: int64, now: Time): Table {
    if name in t then t[name := t[name].(interval := interval, cron := cron, grace := grace, updatedAt := now)]
    else t[name := Schedule(name, interval, cron, grace, None, Ok, now)]
  }

  function Touched(t: Table, name: string, at: Time): Table {
    if name in t then t[name := t[name].(lastSeenAt := Some(at), health := Ok, updatedAt := at)] else t
  }

  function Flagged(s: Schedule, now: Time): Schedule {
    s.(health := Missed, updatedAt := now)
  }

  ghost function OverdueNames(cron: Cron, t: Table, now: Time): set<string> {
    set name | name in t && Overdue(cron, t[name], now)
  }

  // One simultaneous pass that flags exactly the given rows.
  ghost function FlagOnly(t: Table, now: Time, names: set<string>): Table {
    map name | name in t :: if name in names then Flagged(t[name], now) else t[name]
  }

  ghost function Detected(cron: Cron, t: Table, now: Time): Table {
    FlagOnly(t, now, OverdueNames(cron, t, now))
  }

  // The sequence holds the current row of each of the given names, once.
  ghost predicate Lists(rs: seq<Schedule>, t: Table, names: set<string>) {
    && (forall i :: 0 <= i < |rs| ==> rs[i].taskName in names && rs[i].taskName in t && t[rs[i].taskName] == rs[i])
    && (forall i, j :: 0 <= i < j < |rs| ==> rs[i].taskName != rs[j].taskName)
    && (forall name :: name in names ==> exists i :: 0 <= i < |rs| && rs[i].taskName == name)
  }

  /**
    Detection later flags a superset; a repeat flags nothing new; and a row
    whose expression does not parse is never touched.
   */
  lemma DetectionLaws(cron: Cron, t: Table, now: Time, later: Time)
    requires now <= later
    ensures OverdueNames(cron, t, now) <= OverdueNames(cron, t, later)
    ensures OverdueNames(cron, Detected(cron, t, later), now) == {}
    ensures forall name :: name in t && t[name].cron.Some? && !cron.parses(t[name].cron.value) ==>
      Detected(cron, t, now)[name] == t[name]
  {
    var flagged := Detected(cron, t, later);
    forall name | name in flagged ensures !Overdue(cron, flagged[name], now) {
      assert Due(cron, t[name], now) ==> Due(cron, t[name], later);
    }
  }
}
