/**
 Where due times and slots come from: the API and the schedule backfill compute due times, the
 evaluator computes slots, each from a clock and an allowed lateness.  Whether every slot is counted
 depends on nothing but those.
 */
module AlertGrid {
  import opened Wrappers
  import opened AlertDecide
  import opened AlertStore
  import opened AlertHistory
  import Fencing = AlertFencing
  import Slots = EvaluationSlots

  // ---------------------------------------------------------------- computed times

  /** The evaluator claims for the latest complete slot of some moment. */
  ghost predicate SlotsFrom(actions: seq<Action>, lateness: int) {
    forall i :: 0 <= i < |actions| && actions[i].Claim? ==> IsLatest(actions[i].slot, lateness)
  }

  ghost predicate IsLatest(slot: int, lateness: int) {
    exists now :: slot == Slots.LatestCompleteSlot(now, CADENCE, lateness)
  }

  /** Due times are the next complete slot after some moment. */
  ghost predicate DuesFrom(actions: seq<Action>, lateness: int) {
    forall i :: 0 <= i < |actions| ==>
      match actions[i]
      case CreateRule(_, _, due) => IsNext(due, lateness)
      case Reschedule(_, due) => IsNext(due, lateness)
      case BeginEdit(_, edit) => IsNext(edit.due, lateness)
      case _ => true
  }

  ghost predicate IsNext(due: int, lateness: int) {
    exists now :: due == Slots.NextCompleteSlot(now, CADENCE, lateness)
  }

  predicate At(x: int, lateness: int) { (x + lateness) % CADENCE == 0 }

  lemma AtIsOnGrid(x: int, lateness: int)
    ensures At(x, lateness) <==> Slots.OnGrid(x, CADENCE, lateness)
  {
    if At(x, lateness) {
      assert Slots.IsTimes(x + lateness, (x + lateness) / CADENCE, CADENCE);
    }
  }

  lemma LatestIsAt(slot: int, lateness: int)
    requires IsLatest(slot, lateness)
    ensures At(slot, lateness)
  {
    var now :| slot == Slots.LatestCompleteSlot(now, CADENCE, lateness);
    Slots.LatestIsLast(now, CADENCE, lateness, slot);
    AtIsOnGrid(slot, lateness);
  }

  lemma NextIsAt(due: int, lateness: int)
    requires IsNext(due, lateness)
    ensures At(due, lateness)
  {
    var now :| due == Slots.NextCompleteSlot(now, CADENCE, lateness);
    Slots.NextIsFirst(now, CADENCE, lateness, due);
    AtIsOnGrid(due, lateness);
  }

  // ---------------------------------------------------------------- slots on one grid

  ghost predicate OfStretch(log: Log, k: CommitRecord, r: nat)
    requires r in log.schedules
  {
    k.rule == r && k.generation == log.schedules[r].generation
  }

  ghost predicate Current(log: Log, k: CommitRecord) { k.rule in log.schedules && OfStretch(log, k, k.rule) }

  /** A commit of the current stretch: its slot is on the grid, and so is its due time unless it is
      the one the stretch began with. */
  ghost predicate CommitsAt(log: Log, lateness: int) {
    forall i :: 0 <= i < |log.commits| && Current(log, log.commits[i]) ==>
      && At(log.commits[i].slot, lateness)
      && (At(log.commits[i].due, lateness) || log.commits[i].due == log.schedules[log.commits[i].rule].base)
  }

  /** The stored due time is the one the stretch began with, or lies on the grid. */
  ghost predicate DuesAt(db: Db, log: Log, lateness: int) {
    forall r :: r in db.rules && db.rules[r].nextDue.Some? && r in log.schedules ==>
      At(db.rules[r].nextDue.value, lateness) || db.rules[r].nextDue.value == log.schedules[r].base
  }

  /** Once the stretch has a commit the stored due time lies on the grid. */
  ghost predicate CommittedDuesAt(db: Db, log: Log, lateness: int) {
    forall i :: 0 <= i < |log.commits| && log.commits[i].rule in db.rules && db.rules[log.commits[i].rule].nextDue.Some?
                && Current(log, log.commits[i]) ==>
      At(db.rules[log.commits[i].rule].nextDue.value, lateness)
  }

  ghost predicate TableAt(db: Db, log: Log, lateness: int) {
    CommitsAt(log, lateness) && DuesAt(db, log, lateness) && CommittedDuesAt(db, log, lateness)
  }

  ghost predicate WorksAt(w: World, lateness: int) {
    forall c :: c in w.clients && (w.clients[c].Claimed? || w.clients[c].Loaded?) ==>
      At(w.clients[c].work.slot, lateness)
  }

  ghost predicate Invariant(t: Traced, lateness: int) {
    Fencing.Invariant(t) && WorksAt(t.world, lateness) && TableAt(t.world.db, t.log, lateness)
  }

  /** A commit is logged in the stretch it goes on with, or begins. */
  lemma CommitStaysAt(db: Db, log: Log, w: Work, prior: Option<StateRow>, d: Decision, log': Log, lateness: int)
    requires Fencing.Table(db, log) && TableAt(db, log, lateness) && w.id in db.rules && At(w.slot, lateness)
    requires log'.schedules == SchedulesAtCommit(db, log, w) && log'.commits == log.commits + [CommitOf(db, log, w)]
    ensures TableAt(AfterCommit(db, w, prior, d), log', lateness)
  {
    assert w.id in log.schedules;
    assert At(w.slot + CADENCE, lateness);
    forall i | 0 <= i < |log.commits| && Current(log', log.commits[i])
      ensures OfStretch(log, log.commits[i], log.commits[i].rule)
              && log'.schedules[log.commits[i].rule] == log.schedules[log.commits[i].rule]
    {
      assert log.commits[i].rule in db.rules;
    }
  }

  /** A stretch begins: it has no commits yet, and its due time is where it begins. */
  lemma NewStretchAt(db: Db, log: Log, db': Db, log': Log, r: nat, lateness: int)
    requires Fencing.Table(db, log) && TableAt(db, log, lateness) && log'.commits == log.commits
    requires r in log'.schedules && log'.schedules == log.schedules[r := log'.schedules[r]]
    requires forall i :: 0 <= i < |log.commits| && log.commits[i].rule == r ==>
               log.commits[i].generation != log'.schedules[r].generation
    requires r in db'.rules && (db'.rules[r].nextDue.Some? ==> db'.rules[r].nextDue.value == log'.schedules[r].base)
    requires db'.rules == db.rules[r := db'.rules[r]]
    ensures TableAt(db', log', lateness)
  {
    forall i | 0 <= i < |log'.commits| && Current(log', log'.commits[i])
      ensures log'.commits[i].rule != r && OfStretch(log, log.commits[i], log.commits[i].rule)
    {
    }
  }

  lemma SameDuesAt(db: Db, log: Log, db': Db, lateness: int)
    requires TableAt(db, log, lateness) && db'.rules.Keys == db.rules.Keys
    requires forall r :: r in db.rules ==> db'.rules[r].nextDue == db.rules[r].nextDue
    ensures TableAt(db', log, lateness)
  {
  }

  lemma EditStaysAt(db: Db, log: Log, edit: Edit, prior: Option<StateRow>, log': Log, lateness: int)
    requires Fencing.Table(db, log) && TableAt(db, log, lateness) && CanEdit(db, edit, prior)
    requires Fencing.EditLogged(log, edit, log')
    ensures TableAt(AfterEdit(db, edit, prior), log', lateness)
  {
    assert edit.id in log.schedules;
    var edited := db.(rules := db.rules[edit.id := EditedRule(db.rules[edit.id], edit)]);
    if RewritesState(edit) {
      var between := log.(schedules := NewSchedule(log, edit.id, edit.due));
      NewStretchAt(db, log, edited, between, edit.id, lateness);
      if edit.replacing {
        ReplacementAt(db, log, edit, edited, between, AfterEdit(db, edit, prior), log', lateness);
      } else {
        SameDuesAt(edited, log', AfterEdit(db, edit, prior), lateness);
      }
    } else {
      SameDuesAt(db, log', AfterEdit(db, edit, prior), lateness);
    }
  }

  lemma ReplacementAt(db: Db, log: Log, edit: Edit, between: Db, betweenLog: Log, db': Db, log': Log, lateness: int)
    requires Fencing.Table(db, log) && edit.replacement !in db.rules && edit.id in db.rules
    requires TableAt(between, betweenLog, lateness) && betweenLog.commits == log.commits && log'.commits == log.commits
    requires log'.schedules == betweenLog.schedules[edit.replacement := Schedule(0, edit.due)]
    requires db'.rules == between.rules[edit.replacement := NewRule(edit.settings, edit.due)]
    ensures TableAt(db', log', lateness)
  {
    forall i | 0 <= i < |log'.commits| && Current(log', log'.commits[i])
      ensures log'.commits[i].rule != edit.replacement && OfStretch(betweenLog, log.commits[i], log.commits[i].rule)
    {
      assert log.commits[i].rule in db.rules;
    }
  }

  lemma CommitStepAt(t: Traced, a: Action, lateness: int)
    requires Invariant(t, lateness) && Enabled(t.world, a) && a.Commit?
    ensures TableAt(NextDb(t.world, a), NextLog(t, a), lateness)
  {
    var l := t.world.clients[a.c];
    var d := DecisionOf(l.work, l.prior, a.quality, a.breached, a.value);
    if CanCommit(t.world.db, l.work, l.prior, d) {
      CommitStaysAt(t.world.db, t.log, l.work, l.prior, d, NextLog(t, a), lateness);
    }
  }

  lemma StepAt(t: Traced, a: Action, lateness: int)
    requires Invariant(t, lateness) && Enabled(t.world, a)
    ensures TableAt(NextDb(t.world, a), NextLog(t, a), lateness)
  {
    var db, log := t.world.db, t.log;
    if a.Commit? {
      CommitStepAt(t, a, lateness);
    } else if a.CommitEdit? {
      var q := t.world.clients[a.c];
      if CanEdit(db, q.edit, q.prior) { EditStaysAt(db, log, q.edit, q.prior, NextLog(t, a), lateness); }
    } else if a.CreateRule? && a.r !in db.rules {
      NewStretchAt(db, log, NextDb(t.world, a), NextLog(t, a), a.r, lateness);
    } else if a.Reschedule? && a.r in db.rules && db.rules[a.r].enabled && !db.rules[a.r].replaced {
      NewStretchAt(db, log, NextDb(t.world, a), NextLog(t, a), a.r, lateness);
    } else {
      SameDuesAt(db, NextLog(t, a), NextDb(t.world, a), lateness);
    }
  }

  lemma WorksStayAt(w: World, a: Action, lateness: int)
    requires WorksAt(w, lateness) && Enabled(w, a) && (a.Claim? ==> At(a.slot, lateness))
    ensures WorksAt(Apply(w, a), lateness)
  {
  }

  lemma {:induction false} RunStaysAt(t: Traced, actions: seq<Action>, lateness: int)
    requires Invariant(t, lateness) && Legal(t.world, actions) && SlotsFrom(actions, lateness)
    ensures Invariant(Run(t, actions), lateness)
    decreases |actions|
  {
    if actions != [] {
      Fencing.StepKeepsInvariant(t, actions[0]);
      StepAt(t, actions[0], lateness);
      if actions[0].Claim? { LatestIsAt(actions[0].slot, lateness); }
      WorksStayAt(t.world, actions[0], lateness);
      assert forall i :: 0 <= i < |actions[1..]| ==> actions[1..][i] == actions[i + 1];
      RunStaysAt(Step(t, actions[0]), actions[1..], lateness);
    }
  }

  // ---------------------------------------------------------------- theorems

  /** The rule has a commit since its schedule was last set. */
  ghost predicate HasCommit(t: Traced, r: nat)
    requires r in t.log.schedules
  {
    exists i :: 0 <= i < |t.log.commits| && OfStretch(t.log, t.log.commits[i], r)
  }

  lemma CountsExactly(t: Traced, r: nat, lateness: int)
    requires Invariant(t, lateness) && r in t.world.db.rules && t.world.db.rules[r].nextDue.Some?
    ensures r in t.log.schedules
    ensures Fencing.CountsEverySlot(t, r) <==> At(t.log.schedules[r].base, lateness) || !HasCommit(t, r)
  {
    Fencing.CountingIsConserved(t, r);
    if At(t.log.schedules[r].base, lateness) || !HasCommit(t, r) {
      forall i | 0 <= i < |t.log.commits| && OfStretch(t.log, t.log.commits[i], r)
        ensures (t.log.commits[i].slot - t.log.commits[i].due) % CADENCE == 0
      {
        BothAt(t.log.commits[i].slot, t.log.commits[i].due, lateness);
      }
    } else if Fencing.CountsEverySlot(t, r) {
      var i :| 0 <= i < |t.log.commits| && OfStretch(t.log, t.log.commits[i], r);
      CountedFrom(t.log.schedules[r].base, t.world.db.rules[r].nextDue.value,
                  Fencing.Counted(t.log.commits, r, t.log.schedules[r].generation), lateness);
    }
  }

  lemma BothAt(slot: int, due: int, lateness: int)
    requires At(slot, lateness) && At(due, lateness)
    ensures (slot - due) % CADENCE == 0
  {
  }

  lemma CountedFrom(base: int, due: int, counted: int, lateness: int)
    requires CADENCE * counted == due - base && At(due, lateness)
    ensures At(base, lateness)
  {
  }

  /** In every run whose slots are latest complete slots, and whatever its due times are: the slots
      counted since a schedule was set are exactly the slots passed if and only if the due time it was
      set to is on the evaluator's grid, or nothing has been committed since. */
  lemma CountsExactlyFromTheGrid(actions: seq<Action>, r: nat, lateness: int)
    requires Legal(EMPTY, actions) && SlotsFrom(actions, lateness)
    requires var t := Run(START, actions); r in t.world.db.rules && t.world.db.rules[r].nextDue.Some?
    ensures var t := Run(START, actions);
            && r in t.log.schedules
            && (Fencing.CountsEverySlot(t, r) <==>
                  Slots.OnGrid(t.log.schedules[r].base, CADENCE, lateness) || !HasCommit(t, r))
  {
    RunStaysAt(START, actions, lateness);
    var t := Run(START, actions);
    CountsExactly(t, r, lateness);
    AtIsOnGrid(t.log.schedules[r].base, lateness);
  }

  // ---------------------------------------------------------------- one lateness for both

  ghost predicate ClientAt(c: Client, lateness: int) {
    match c
    case Claimed(work) => At(work.due, lateness) && At(work.slot, lateness)
    case Loaded(work, _) => At(work.due, lateness) && At(work.slot, lateness)
    case EditReadRule(edit) => At(edit.due, lateness)
    case EditReadState(edit, _) => At(edit.due, lateness)
    case _ => true
  }

  /** Every time in sight is on the grid. */
  ghost predicate AllAt(t: Traced, lateness: int) {
    && (forall r :: r in t.world.db.rules && t.world.db.rules[r].nextDue.Some? ==>
        At(t.world.db.rules[r].nextDue.value, lateness))
    && (forall r :: r in t.log.schedules ==> At(t.log.schedules[r].base, lateness))
    && (forall c :: c in t.world.clients ==> ClientAt(t.world.clients[c], lateness))
  }

  ghost predicate ComputedAt(a: Action, lateness: int) {
    match a
    case CreateRule(_, _, due) => At(due, lateness)
    case Reschedule(_, due) => At(due, lateness)
    case BeginEdit(_, edit) => At(edit.due, lateness)
    case Claim(_, _, _, _, _, slot) => At(slot, lateness)
    case _ => true
  }

  lemma CommitKeepsAllAt(t: Traced, a: Action, lateness: int)
    requires AllAt(t, lateness) && Enabled(t.world, a) && a.Commit?
    ensures AllAt(Step(t, a), lateness)
  {
    var l := t.world.clients[a.c];
    assert ClientAt(l, lateness) && At(l.work.slot + CADENCE, lateness);
  }

  lemma EditKeepsAllAt(t: Traced, a: Action, lateness: int)
    requires AllAt(t, lateness) && Enabled(t.world, a) && a.CommitEdit?
    ensures AllAt(Step(t, a), lateness)
  {
    assert ClientAt(t.world.clients[a.c], lateness);
  }

  lemma StepKeepsAllAt(t: Traced, a: Action, lateness: int)
    requires AllAt(t, lateness) && Enabled(t.world, a) && ComputedAt(a, lateness)
    ensures AllAt(Step(t, a), lateness)
  {
    if a.Commit? {
      CommitKeepsAllAt(t, a, lateness);
    } else if a.CommitEdit? {
      EditKeepsAllAt(t, a, lateness);
    } else {
      forall c | c in NextClients(t.world, a) ensures ClientAt(NextClients(t.world, a)[c], lateness) {
        if c in t.world.clients { assert ClientAt(t.world.clients[c], lateness); }
      }
    }
  }

  lemma {:induction false} RunKeepsAllAt(t: Traced, actions: seq<Action>, lateness: int)
    requires AllAt(t, lateness) && Legal(t.world, actions) && SlotsFrom(actions, lateness)
    requires DuesFrom(actions, lateness)
    ensures AllAt(Run(t, actions), lateness)
    decreases |actions|
  {
    if actions != [] {
      ComputedIsAt(actions[0], lateness);
      StepKeepsAllAt(t, actions[0], lateness);
      assert forall i :: 0 <= i < |actions[1..]| ==> actions[1..][i] == actions[i + 1];
      RunKeepsAllAt(Step(t, actions[0]), actions[1..], lateness);
    }
  }

  lemma ComputedIsAt(a: Action, lateness: int)
    requires SlotsFrom([a], lateness) && DuesFrom([a], lateness)
    ensures ComputedAt(a, lateness)
  {
    assert [a][0] == a;
    match a
    case CreateRule(_, _, due) => NextIsAt(due, lateness);
    case Reschedule(_, due) => NextIsAt(due, lateness);
    case BeginEdit(_, edit) => NextIsAt(edit.due, lateness);
    case Claim(_, _, _, _, _, slot) => LatestIsAt(slot, lateness);
    case _ =>
  }

  /** In every run whose due times and slots are computed with one allowed lateness, every rule that
      has a due time has every slot counted. */
  lemma OneLatenessCountsEverySlot(actions: seq<Action>, r: nat, lateness: int)
    requires Legal(EMPTY, actions) && SlotsFrom(actions, lateness) && DuesFrom(actions, lateness)
    requires var t := Run(START, actions); r in t.world.db.rules && t.world.db.rules[r].nextDue.Some?
    ensures var t := Run(START, actions); r in t.log.schedules && Fencing.CountsEverySlot(t, r)
  {
    CountsExactlyFromTheGrid(actions, r, lateness);
    RunKeepsAllAt(START, actions, lateness);
    AtIsOnGrid(Run(START, actions).log.schedules[r].base, lateness);
  }

  // ---------------------------------------------------------------- two latenesses

  const ROW := RuleRow(1, 1, true, false, 60, 0, [], None, None, 0, Some(45))
  const WORK := Work(7, 1, 1, 60, 0, [], 5, 1, 45, 100)

  lemma LateCommit(t: Traced)
    requires t.world.db == Db(map[7 := ROW.(owner := Some(5), leaseExpires := Some(150), epoch := 1)], map[], map[],
                              map[])
    requires t.world.clients == map[1 := Loaded(WORK, None)]
    requires t.log.schedules == map[7 := Schedule(0, 45)] && t.log.commits == []
    ensures var a := Commit(1, Sufficient, false, Some(1.0));
            && Enabled(t.world, a)
            && var u := Step(t, a);
               && 7 in u.world.db.rules && u.world.db.rules[7].nextDue == Some(160)
                  && u.log.schedules == map[7 := Schedule(0, 45)]
               && u.log.commits == [CommitRecord(7, Fence(1, 1), 0, 45, 100, 0)]
  {
    var d := DecisionOf(WORK, None, Sufficient, false, Some(1.0));
    assert d.event.None? && d.outboxes == [];
    assert CanCommit(t.world.db, WORK, None, d);
  }

  const CREATE := CreateRule(7, Settings(true, 60, 0, []), 45)
  const CLAIM := Claim(1, 7, 5, 120, 150, 100)

  /** Up to the point where the evaluator has read the state. */
  lemma ClaimedLate() returns (actions: seq<Action>)
    ensures actions == [CREATE, CLAIM, LoadState(1)] && Legal(EMPTY, actions)
    ensures var t := Run(START, actions);
            && t.world.db == Db(map[7 := ROW.(owner := Some(5), leaseExpires := Some(150), epoch := 1)], map[], map[],
                                map[])
            && t.world.clients == map[1 := Loaded(WORK, None)]
            && t.log.schedules == map[7 := Schedule(0, 45)] && t.log.commits == []
  {
    Fencing.RunSnoc(START, [], CREATE);
    var t1 := Run(START, [] + [CREATE]);
    assert t1.world.db.rules == map[7 := ROW];
    Fencing.RunSnoc(START, [] + [CREATE], CLAIM);
    var t2 := Run(START, [] + [CREATE] + [CLAIM]);
    assert t2.world.clients == map[1 := Claimed(WORK)];
    Fencing.RunSnoc(START, [] + [CREATE] + [CLAIM], LoadState(1));
    actions := [] + [CREATE] + [CLAIM] + [LoadState(1)];
  }

  lemma ComputedTimes(actions: seq<Action>)
    requires actions == [CREATE, CLAIM, LoadState(1), Commit(1, Sufficient, false, Some(1.0))]
    ensures DuesFrom(actions, 15) && SlotsFrom(actions, 20)
  {
    assert Slots.NextCompleteSlot(1, CADENCE, 15) == 45 && Slots.LatestCompleteSlot(120, CADENCE, 20) == 100;
    assert IsNext(45, 15) && IsLatest(100, 20);
  }

  /** Due times computed with 15 seconds and slots with 20: one commit, 115 seconds, one slot counted. */
  lemma TwoLatenessesLoseTime() returns (actions: seq<Action>)
    ensures Legal(EMPTY, actions) && DuesFrom(actions, 15) && SlotsFrom(actions, 20)
    ensures var t := Run(START, actions);
            && 7 in t.world.db.rules && t.world.db.rules[7].nextDue.Some? && 7 in t.log.schedules
            && !Fencing.CountsEverySlot(t, 7)
  {
    var claimed := ClaimedLate();
    var commit := Commit(1, Sufficient, false, Some(1.0));
    LateCommit(Run(START, claimed));
    Fencing.RunSnoc(START, claimed, commit);
    actions := claimed + [commit];
    ComputedTimes(actions);
    LostTime(Run(START, actions));
  }

  lemma LostTime(t: Traced)
    requires 7 in t.world.db.rules && t.world.db.rules[7].nextDue == Some(160)
    requires t.log.schedules == map[7 := Schedule(0, 45)]
    requires t.log.commits == [CommitRecord(7, Fence(1, 1), 0, 45, 100, 0)]
    ensures !Fencing.CountsEverySlot(t, 7)
  {
    Fencing.SumsSnoc([], t.log.commits[0], 7, 0);
    assert [] + [t.log.commits[0]] == t.log.commits;
  }
}
