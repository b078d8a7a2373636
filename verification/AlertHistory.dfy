/**
 Runs of the alert store with their history: which claims and commits took effect, for which slots,
 and which incidents they opened.  The history observes the run and never influences it.
 */
module AlertHistory {
  import opened Wrappers
  import opened AlertDecide
  import opened AlertStore

  /** The fencing token of a claim.  The rule's version comes first: disabling a rule removes its
      lease epoch, so epochs alone may start again. */
  datatype Fence = Fence(version: int, epoch: int)
  {
    predicate Less(other: Fence) { version < other.version || (version == other.version && epoch < other.epoch) }

    predicate AtMost(other: Fence) { this == other || Less(other) }
  }

  datatype ClaimRecord = ClaimRecord(rule: nat, fence: Fence)
  datatype CommitRecord = CommitRecord(rule: nat, fence: Fence, generation: nat, due: int, slot: int, missed: nat)
  datatype OpeningRecord = OpeningRecord(event: EventId, slot: int, notified: bool, source: Option<EventId>,
                                         cooldown: nat)

  /** A stretch of schedule that nothing but commits moves on, starting with the due time `base`. */
  datatype Schedule = Schedule(generation: nat, base: int)

  /** `rescheduled` holds the rules whose due time the schedule backfill has rewritten. */
  datatype Log = Log(
    claims: seq<ClaimRecord>, commits: seq<CommitRecord>, openings: seq<OpeningRecord>,
    schedules: map<nat, Schedule>, rescheduled: set<nat>)

  datatype Traced = Traced(world: World, log: Log)

  const START := Traced(EMPTY, Log([], [], [], map[], {}))

  function RowFence(row: RuleRow): Fence { Fence(row.version, row.epoch) }

  function WorkFence(w: Work): Fence { Fence(w.version, w.epoch) }

  function NewSchedule(log: Log, r: nat, due: int): map<nat, Schedule> {
    log.schedules[r := Schedule(if r in log.schedules then log.schedules[r].generation + 1 else 0, due)]
  }

  function OpeningOf(w: Work, d: Decision): seq<OpeningRecord> {
    if d.Opens() && d.event.Some?
    then [OpeningRecord(d.event.value, w.slot, d.transition == Opened, d.next.suppressionSource, w.cooldown)] else []
  }

  function GenerationOf(log: Log, r: nat): nat { if r in log.schedules then log.schedules[r].generation else 0 }

  /** A commit that was claimed before the due time was rewritten goes on from the due time it was
      claimed for, so it begins a stretch of its own. */
  function SchedulesAtCommit(db: Db, log: Log, w: Work): map<nat, Schedule> {
    if w.id in db.rules && db.rules[w.id].nextDue == Some(w.due) then log.schedules else NewSchedule(log, w.id, w.due)
  }

  function CommitOf(db: Db, log: Log, w: Work): CommitRecord {
    CommitRecord(w.id, WorkFence(w), GenerationOf(log.(schedules := SchedulesAtCommit(db, log, w)), w.id),
                 w.due, w.slot, MissedSlots(w.due, w.slot))
  }

  function NextLog(t: Traced, a: Action): Log
    requires Enabled(t.world, a)
  {
    var db, log := t.world.db, t.log;
    match a
    case CreateRule(r, _, due) =>
      if r in db.rules then log else log.(schedules := NewSchedule(log, r, due))
    case Reschedule(r, due) =>
      if r in db.rules && db.rules[r].enabled && !db.rules[r].replaced
      then log.(schedules := NewSchedule(log, r, due), rescheduled := log.rescheduled + {r}) else log
    case Claim(_, r, owner, now, _, slot) =>
      if CanClaim(db, r, owner, now, slot)
      then log.(claims := log.claims + [ClaimRecord(r, WorkFence(ClaimedWork(db, r, owner, slot)))]) else log
    case Commit(c, quality, breached, value) =>
      var l := t.world.clients[c];
      var d := DecisionOf(l.work, l.prior, quality, breached, value);
      if !CanCommit(db, l.work, l.prior, d) then log
      else log.(commits := log.commits + [CommitOf(db, log, l.work)], openings := log.openings + OpeningOf(l.work, d),
                schedules := SchedulesAtCommit(db, log, l.work))
    case CommitEdit(c) =>
      var q := t.world.clients[c];
      if !CanEdit(db, q.edit, q.prior) then log
      else
        var edited := if RewritesState(q.edit) then NewSchedule(log, q.edit.id, q.edit.due) else log.schedules;
        log.(schedules := if q.edit.replacing then edited[q.edit.replacement := Schedule(0, q.edit.due)] else edited)
    case _ => log
  }

  function Step(t: Traced, a: Action): Traced
    requires Enabled(t.world, a)
  {
    Traced(Apply(t.world, a), NextLog(t, a))
  }

  function Run(t: Traced, actions: seq<Action>): Traced
    requires Legal(t.world, actions)
    decreases |actions|
  {
    if actions == [] then t else Run(Step(t, actions[0]), actions[1..])
  }

  /** The log does not influence the run. */
  lemma {:induction false} RunIsExec(t: Traced, actions: seq<Action>)
    requires Legal(t.world, actions)
    ensures Run(t, actions).world == Exec(t.world, actions)
    decreases |actions|
  {
    if actions != [] { RunIsExec(Step(t, actions[0]), actions[1..]); }
  }
}
