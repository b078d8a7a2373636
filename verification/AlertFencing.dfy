/**
 Fencing of the evaluator: claims of a rule get strictly increasing fences, each fence commits at
 most once and only while it is the newest, and every slot of a schedule is counted once.
 */
module AlertFencing {
  import opened Wrappers
  import opened AlertDecide
  import opened AlertStore
  import opened AlertHistory
  import Incidents = AlertIncidents

  // ---------------------------------------------------------------- slot arithmetic

  /** Slots counted by the commits of one schedule generation: the evaluated ones and the missed. */
  function Counted(commits: seq<CommitRecord>, r: nat, g: nat): int {
    if commits == [] then 0
    else
      var last := commits[|commits| - 1];
      Counted(commits[..|commits| - 1], r, g) + (if last.rule == r && last.generation == g then 1 + last.missed else 0)
  }

  /** Time lost to slots that lie between grid points. */
  function Drift(commits: seq<CommitRecord>, r: nat, g: nat): int {
    if commits == [] then 0
    else
      var last := commits[|commits| - 1];
      Drift(commits[..|commits| - 1], r, g)
        + (if last.rule == r && last.generation == g then (last.slot - last.due) % CADENCE else 0)
  }

  lemma SumsSnoc(commits: seq<CommitRecord>, k: CommitRecord, r: nat, g: nat)
    ensures Counted(commits + [k], r, g) == Counted(commits, r, g)
              + (if k.rule == r && k.generation == g then 1 + k.missed else 0)
    ensures Drift(commits + [k], r, g) == Drift(commits, r, g)
              + (if k.rule == r && k.generation == g then (k.slot - k.due) % CADENCE else 0)
  {
    assert (commits + [k])[..|commits|] == commits;
  }

  lemma {:induction false} SumsOfOtherGeneration(commits: seq<CommitRecord>, r: nat, g: nat)
    requires forall i :: 0 <= i < |commits| && commits[i].rule == r ==> commits[i].generation != g
    ensures Counted(commits, r, g) == 0 && Drift(commits, r, g) == 0
    decreases |commits|
  {
    if commits != [] { SumsOfOtherGeneration(commits[..|commits| - 1], r, g); }
  }

  /** No drift exactly when every committed slot of the generation is on the grid of its due time. */
  lemma {:induction false} DriftIsOffGridTime(commits: seq<CommitRecord>, r: nat, g: nat)
    ensures Drift(commits, r, g) >= 0
    ensures Drift(commits, r, g) == 0 <==>
              forall i :: 0 <= i < |commits| && commits[i].rule == r && commits[i].generation == g ==>
                (commits[i].slot - commits[i].due) % CADENCE == 0
    decreases |commits|
  {
    if commits != [] {
      var most := commits[..|commits| - 1];
      DriftIsOffGridTime(most, r, g);
      forall i | 0 <= i < |commits| && i < |most| ensures commits[i] == most[i] {}
      if Drift(commits, r, g) != 0 && Drift(most, r, g) == 0 {
        assert (commits[|commits| - 1].slot - commits[|commits| - 1].due) % CADENCE != 0;
      }
    }
  }

  // ---------------------------------------------------------------- invariants

  /** What a claimed work still says about the rule it was claimed from. */
  ghost predicate WorkKnows(db: Db, log: Log, w: Work) {
    && w.id in db.rules && WorkFence(w).AtMost(RowFence(db.rules[w.id]))
    && w.due <= w.slot && w.slot > 0
    && ClaimRecord(w.id, WorkFence(w)) in log.claims
    && (WorkFence(w) == RowFence(db.rules[w.id]) && db.rules[w.id].owner == Some(w.owner)
        && w.id !in log.rescheduled ==>
          db.rules[w.id].nextDue == Some(w.due))
  }

  ghost predicate ClientKnows(db: Db, log: Log, c: Client) {
    c.Claimed? || c.Loaded? ==> WorkKnows(db, log, c.work)
  }

  ghost predicate ClaimsOrdered(db: Db, log: Log) {
    && (forall i :: 0 <= i < |log.claims| ==>
          log.claims[i].rule in db.rules && log.claims[i].fence.AtMost(RowFence(db.rules[log.claims[i].rule])))
    && (forall i, j :: 0 <= i < j < |log.claims| && log.claims[i].rule == log.claims[j].rule ==>
          log.claims[i].fence.Less(log.claims[j].fence))
  }

  ghost predicate CommitsOrdered(db: Db, log: Log) {
    && (forall i :: 0 <= i < |log.commits| ==>
          var k := log.commits[i];
          && k.rule in db.rules && k.fence.AtMost(RowFence(db.rules[k.rule]))
          && (k.fence == RowFence(db.rules[k.rule]) ==> db.rules[k.rule].owner.None?)
          && ClaimRecord(k.rule, k.fence) in log.claims)
    && (forall i, j :: 0 <= i < j < |log.commits| && log.commits[i].rule == log.commits[j].rule ==>
          log.commits[i].fence.Less(log.commits[j].fence))
  }

  ghost predicate SlotsOrdered(db: Db, log: Log) {
    && (forall i :: 0 <= i < |log.commits| && log.commits[i].rule in db.rules ==>
          var k := log.commits[i];
          && k.rule in log.schedules && k.generation <= log.schedules[k.rule].generation
          && (k.generation == log.schedules[k.rule].generation && db.rules[k.rule].nextDue.Some? ==>
                k.slot < db.rules[k.rule].nextDue.value))
    && (forall i, j :: 0 <= i < j < |log.commits| && SameStretch(log, i, j) ==>
        log.commits[i].slot < log.commits[j].slot)
  }

  /** Two commits of one rule within one stretch of its schedule. */
  ghost predicate SameStretch(log: Log, i: nat, j: nat)
    requires i < |log.commits| && j < |log.commits|
  {
    && log.commits[i].rule == log.commits[j].rule
    && log.commits[i].generation == log.commits[j].generation
  }

  /** The due time has moved from the start of the stretch by what its commits counted. */
  ghost predicate Conserves(due: int, log: Log, r: nat)
    requires r in log.schedules
  {
    var g := log.schedules[r].generation;
    due - log.schedules[r].base == CADENCE * Counted(log.commits, r, g) + Drift(log.commits, r, g)
  }

  /** The due time has moved by one cadence per counted slot, plus the off-grid time. */
  ghost predicate SlotsConserved(db: Db, log: Log) {
    forall r :: r in db.rules ==>
      && r in log.schedules
      && (db.rules[r].nextDue.Some? ==> Conserves(db.rules[r].nextDue.value, log, r))
  }

  /** Every event was opened at an earlier version, or at an earlier slot of this version. */
  ghost predicate EventsBehind(db: Db, log: Log) {
    && (forall r :: r in db.states ==> r in db.rules)
    && (forall e :: e in db.events ==>
          && e.rule in db.rules && e.version <= db.rules[e.rule].version
          && (e.rule !in log.rescheduled && e.version == db.rules[e.rule].version && db.rules[e.rule].nextDue.Some? ==>
                e.slot < db.rules[e.rule].nextDue.value))
  }

  ghost predicate Table(db: Db, log: Log) {
    ClaimsOrdered(db, log) && CommitsOrdered(db, log) && SlotsOrdered(db, log) && SlotsConserved(db, log)
    && EventsBehind(db, log)
  }

  ghost predicate Invariant(t: Traced) {
    && Incidents.Invariant(t.world) && Table(t.world.db, t.log)
    && forall c :: c in t.world.clients ==> ClientKnows(t.world.db, t.log, t.world.clients[c])
  }

  // ---------------------------------------------------------------- one rule row changes

  /** What any step may do to a rule's row: its fence never falls; while the fence stays the same a
      lease can only be given up, and while the lease is held the due time stays. */
  ghost predicate RowEvolves(row: RuleRow, row': RuleRow, rescheduled: bool) {
    && RowFence(row).AtMost(RowFence(row'))
    && (RowFence(row) == RowFence(row') ==>
          && (row'.owner == row.owner || row'.owner.None?)
          && (row'.owner.Some? && !rescheduled ==> row'.nextDue == row.nextDue))
  }

  ghost predicate Evolves(db: Db, log: Log, db': Db, log': Log) {
    && (forall r :: r in db.rules ==> r in db'.rules && RowEvolves(db.rules[r], db'.rules[r], r in log'.rescheduled))
    && log.rescheduled <= log'.rescheduled
    && (forall k :: k in log.claims ==> k in log'.claims)
  }

  lemma EvolvingKeepsWork(db: Db, log: Log, db': Db, log': Log, w: Work)
    requires Evolves(db, log, db', log') && WorkKnows(db, log, w)
    ensures WorkKnows(db', log', w)
  {
    assert RowEvolves(db.rules[w.id], db'.rules[w.id], w.id in log'.rescheduled);
  }

  /** Claims and commits stay ordered when rows only evolve and nothing is logged. */
  lemma OrderedAfterEvolution(db: Db, log: Log, db': Db, log': Log)
    requires ClaimsOrdered(db, log) && CommitsOrdered(db, log) && Evolves(db, log, db', log')
    requires log'.claims == log.claims && log'.commits == log.commits
    ensures ClaimsOrdered(db', log') && CommitsOrdered(db', log')
  {
    forall i | 0 <= i < |log.claims|
      ensures log.claims[i].rule in db'.rules && log.claims[i].fence.AtMost(RowFence(db'.rules[log.claims[i].rule]))
    {
      assert RowEvolves(db.rules[log.claims[i].rule], db'.rules[log.claims[i].rule],
                        log.claims[i].rule in log'.rescheduled);
    }
    forall i | 0 <= i < |log.commits|
      ensures var k := log.commits[i];
              && k.rule in db'.rules && k.fence.AtMost(RowFence(db'.rules[k.rule]))
              && (k.fence == RowFence(db'.rules[k.rule]) ==> db'.rules[k.rule].owner.None?)
    {
      var k := log.commits[i];
      assert RowEvolves(db.rules[k.rule], db'.rules[k.rule], k.rule in log'.rescheduled);
    }
  }

  // ---------------------------------------------------------------- claim

  lemma ClaimEvolves(db: Db, log: Log, r: nat, owner: nat, now: int, expires: int, slot: int, log': Log)
    requires CanClaim(db, r, owner, now, slot) && log'.rescheduled == log.rescheduled
    requires forall k :: k in log.claims ==> k in log'.claims
    ensures Evolves(db, log, AfterClaim(db, r, owner, expires), log')
  {
  }

  lemma ClaimKeepsOrder(db: Db, log: Log, r: nat, owner: nat, now: int, expires: int, slot: int, k: ClaimRecord)
    requires ClaimsOrdered(db, log) && CommitsOrdered(db, log) && CanClaim(db, r, owner, now, slot)
    requires k == ClaimRecord(r, WorkFence(ClaimedWork(db, r, owner, slot)))
    ensures var log' := log.(claims := log.claims + [k]);
            ClaimsOrdered(AfterClaim(db, r, owner, expires), log')
            && CommitsOrdered(AfterClaim(db, r, owner, expires), log')
  {
    var db' := AfterClaim(db, r, owner, expires);
    ClaimEvolves(db, log, r, owner, now, expires, slot, log);
    OrderedAfterEvolution(db, log, db', log);
    assert RowFence(db.rules[r]).Less(k.fence);
  }

  lemma ClaimKeeps(db: Db, log: Log, r: nat, owner: nat, now: int, expires: int, slot: int, k: ClaimRecord)
    requires Table(db, log) && CanClaim(db, r, owner, now, slot) && slot > 0
    requires k == ClaimRecord(r, WorkFence(ClaimedWork(db, r, owner, slot)))
    ensures var db' := AfterClaim(db, r, owner, expires);
            var log' := log.(claims := log.claims + [k]);
            Table(db', log') && Evolves(db, log, db', log') && WorkKnows(db', log', ClaimedWork(db, r, owner, slot))
  {
    var db' := AfterClaim(db, r, owner, expires);
    var log' := log.(claims := log.claims + [k]);
    assert k in log'.claims;
    ClaimEvolves(db, log, r, owner, now, expires, slot, log');
    ClaimKeepsOrder(db, log, r, owner, now, expires, slot, k);
    assert SlotsOrdered(db', log') by {
      forall i, j | 0 <= i < j < |log'.commits| && SameStretch(log', i, j)
        ensures log'.commits[i].slot < log'.commits[j].slot
      {
        assert SameStretch(log, i, j);
      }
    }
  }

  // ---------------------------------------------------------------- commit

  lemma CountOneCommit(due: int, slot: int)
    requires due <= slot
    ensures slot + CADENCE - due == CADENCE * (1 + MissedSlots(due, slot)) + (slot - due) % CADENCE
  {
  }

  ghost predicate CommitStep(db: Db, log: Log, w: Work, prior: Option<StateRow>, e: Evaluation, d: Decision) {
    Table(db, log) && WorkKnows(db, log, w) && Incidents.CommitStep(db, w, prior, e, d)
  }

  lemma CommitEvolves(db: Db, log: Log, w: Work, prior: Option<StateRow>, e: Evaluation, d: Decision, log': Log)
    requires CommitStep(db, log, w, prior, e, d) && log'.rescheduled == log.rescheduled && log'.claims == log.claims
    ensures Evolves(db, log, AfterCommit(db, w, prior, d), log')
  {
  }

  lemma CommitKeepsOrder(db: Db, log: Log, w: Work, prior: Option<StateRow>, e: Evaluation, d: Decision, log': Log)
    requires CommitStep(db, log, w, prior, e, d)
    requires log' == log.(commits := log.commits + [CommitOf(db, log, w)], openings := log'.openings,
                          schedules := log'.schedules)
    ensures ClaimsOrdered(AfterCommit(db, w, prior, d), log') && CommitsOrdered(AfterCommit(db, w, prior, d), log')
  {
    var db' := AfterCommit(db, w, prior, d);
    CommitEvolves(db, log, w, prior, e, d, log);
    OrderedAfterEvolution(db, log, db', log);
  }

  ghost predicate CommitLogged(db: Db, log: Log, w: Work, log': Log) {
    log' == log.(commits := log.commits + [CommitOf(db, log, w)], openings := log'.openings,
                 schedules := SchedulesAtCommit(db, log, w))
  }

  lemma CommitKeepsSlotOrder(db: Db, log: Log, w: Work, prior: Option<StateRow>, e: Evaluation, d: Decision, log': Log)
    requires CommitStep(db, log, w, prior, e, d) && CommitLogged(db, log, w, log')
    ensures SlotsOrdered(AfterCommit(db, w, prior, d), log')
  {
    forall i, j | 0 <= i < j < |log'.commits| && SameStretch(log', i, j)
      ensures log'.commits[i].slot < log'.commits[j].slot
    {
      if j < |log.commits| { assert SameStretch(log, i, j); }
    }
  }

  /** The committed rule: its stretch goes on from the due time it had, or a new one begins there. */
  lemma CommittedRuleConserves(db: Db, log: Log, w: Work, log': Log)
    requires w.id in db.rules && w.id in log.schedules && w.due <= w.slot && CommitLogged(db, log, w, log')
    requires db.rules[w.id].nextDue.Some? ==> Conserves(db.rules[w.id].nextDue.value, log, w.id)
    requires forall i :: 0 <= i < |log.commits| && log.commits[i].rule == w.id ==>
               log.commits[i].generation <= log.schedules[w.id].generation
    ensures w.id in log'.schedules && Conserves(w.slot + CADENCE, log', w.id)
  {
    var g := log'.schedules[w.id].generation;
    CountOneCommit(w.due, w.slot);
    SumsSnoc(log.commits, CommitOf(db, log, w), w.id, g);
    if log'.schedules[w.id] != log.schedules[w.id] {
      SumsOfOtherGeneration(log.commits, w.id, g);
    }
  }

  lemma OtherRuleConserves(db: Db, log: Log, w: Work, log': Log, r: nat, due: int)
    requires r != w.id && r in log.schedules && CommitLogged(db, log, w, log') && Conserves(due, log, r)
    ensures r in log'.schedules && Conserves(due, log', r)
  {
    SumsSnoc(log.commits, CommitOf(db, log, w), r, log.schedules[r].generation);
  }

  lemma CommitKeepsSlots(db: Db, log: Log, w: Work, prior: Option<StateRow>, e: Evaluation, d: Decision, log': Log)
    requires CommitStep(db, log, w, prior, e, d) && CommitLogged(db, log, w, log')
    ensures SlotsConserved(AfterCommit(db, w, prior, d), log')
  {
    var db' := AfterCommit(db, w, prior, d);
    CommittedRuleConserves(db, log, w, log');
    forall r | r in db'.rules && db'.rules[r].nextDue.Some? ensures Conserves(db'.rules[r].nextDue.value, log', r) {
      if r != w.id { OtherRuleConserves(db, log, w, log', r, db.rules[r].nextDue.value); }
    }
  }

  lemma CommitKeepsEvents(db: Db, log: Log, w: Work, prior: Option<StateRow>, e: Evaluation, d: Decision, log': Log)
    requires CommitStep(db, log, w, prior, e, d) && log'.rescheduled == log.rescheduled
    ensures EventsBehind(AfterCommit(db, w, prior, d), log')
  {
    DecisionShape(w.ToRule(), PriorState(prior), e, CADENCE);
  }

  // ---------------------------------------------------------------- edits, creation, backfill

  lemma EditEvolves(db: Db, log: Log, edit: Edit, prior: Option<StateRow>, log': Log)
    requires CanEdit(db, edit, prior) && log'.rescheduled == log.rescheduled && log'.claims == log.claims
    ensures Evolves(db, log, AfterEdit(db, edit, prior), log')
  {
    var db' := AfterEdit(db, edit, prior);
    assert RowFence(db.rules[edit.id]).Less(RowFence(db'.rules[edit.id]));
  }

  ghost predicate EditLogged(log: Log, edit: Edit, log': Log) {
    var edited := if RewritesState(edit) then NewSchedule(log, edit.id, edit.due) else log.schedules;
    log' == log.(schedules := if edit.replacing then edited[edit.replacement := Schedule(0, edit.due)] else edited)
  }

  lemma EditKeepsSlots(db: Db, log: Log, edit: Edit, prior: Option<StateRow>, log': Log)
    requires Table(db, log) && CanEdit(db, edit, prior) && EditLogged(log, edit, log')
    ensures SlotsOrdered(AfterEdit(db, edit, prior), log') && SlotsConserved(AfterEdit(db, edit, prior), log')
  {
    var db' := AfterEdit(db, edit, prior);
    forall i, j | 0 <= i < j < |log'.commits| && SameStretch(log', i, j)
      ensures log'.commits[i].slot < log'.commits[j].slot
    {
      assert SameStretch(log, i, j);
    }
    forall r | r in db'.rules
      ensures r in log'.schedules
      ensures db'.rules[r].nextDue.Some? ==> Conserves(db'.rules[r].nextDue.value, log', r)
    {
      if log'.schedules[r] != (if r in log.schedules then log.schedules[r] else Schedule(0, 0)) || r !in db.rules {
        SumsOfOtherGeneration(log.commits, r, log'.schedules[r].generation);
      }
    }
  }

  lemma EditKeepsEvents(db: Db, log: Log, edit: Edit, prior: Option<StateRow>, log': Log)
    requires EventsBehind(db, log) && CanEdit(db, edit, prior) && log'.rescheduled == log.rescheduled
    requires prior.Some? ==> edit.id in db.states
    ensures EventsBehind(AfterEdit(db, edit, prior), log')
  {
  }

  lemma CreateKeeps(db: Db, log: Log, r: nat, row: RuleRow, due: int)
    requires Table(db, log) && r !in db.rules && (row.nextDue.Some? ==> row.nextDue.value == due)
    ensures var db' := db.(rules := db.rules[r := row]);
            var log' := log.(schedules := NewSchedule(log, r, due));
            Table(db', log') && Evolves(db, log, db', log')
  {
    var db' := db.(rules := db.rules[r := row]);
    var log' := log.(schedules := NewSchedule(log, r, due));
    OrderedAfterEvolution(db, log, db', log');
    SumsOfOtherGeneration(log.commits, r, log'.schedules[r].generation);
    forall i, j | 0 <= i < j < |log'.commits| && SameStretch(log', i, j)
      ensures log'.commits[i].slot < log'.commits[j].slot
    {
      assert SameStretch(log, i, j);
    }
  }

  lemma RescheduleKeeps(db: Db, log: Log, r: nat, due: int)
    requires Table(db, log) && r in db.rules
    ensures var db' := db.(rules := db.rules[r := db.rules[r].(nextDue := Some(due))]);
            var log' := log.(schedules := NewSchedule(log, r, due), rescheduled := log.rescheduled + {r});
            Table(db', log') && Evolves(db, log, db', log')
  {
    var db' := db.(rules := db.rules[r := db.rules[r].(nextDue := Some(due))]);
    var log' := log.(schedules := NewSchedule(log, r, due), rescheduled := log.rescheduled + {r});
    assert Evolves(db, log, db', log');
    OrderedAfterEvolution(db, log, db', log');
    SumsOfOtherGeneration(log.commits, r, log'.schedules[r].generation);
    forall i, j | 0 <= i < j < |log'.commits| && SameStretch(log', i, j)
      ensures log'.commits[i].slot < log'.commits[j].slot
    {
      assert SameStretch(log, i, j);
    }
  }

  /** Steps that touch neither rules nor create events or states of unknown rules. */
  lemma SameRulesKeep(db: Db, log: Log, db': Db)
    requires Table(db, log) && db'.rules == db.rules
    requires db'.events.Keys == db.events.Keys && (forall r :: r in db'.states ==> r in db.rules)
    ensures Table(db', log) && Evolves(db, log, db', log)
  {
    assert Evolves(db, log, db', log);
    OrderedAfterEvolution(db, log, db', log);
  }

  // ---------------------------------------------------------------- every step

  ghost predicate StepKept(t: Traced, a: Action)
    requires Enabled(t.world, a)
  {
    Table(NextDb(t.world, a), NextLog(t, a)) && Evolves(t.world.db, t.log, NextDb(t.world, a), NextLog(t, a))
  }

  lemma CommitStepKeeps(t: Traced, a: Action)
    requires Invariant(t) && Enabled(t.world, a) && a.Commit?
    ensures StepKept(t, a)
  {
    var db, log, l := t.world.db, t.log, t.world.clients[a.c];
    var e := EvaluationOf(l.work, a.quality, a.breached, a.value);
    var d := DecisionOf(l.work, l.prior, a.quality, a.breached, a.value);
    assert Incidents.ClientKnows(db, l) && ClientKnows(db, log, l);
    if CanCommit(db, l.work, l.prior, d) {
      var log' := NextLog(t, a);
      CommitEvolves(db, log, l.work, l.prior, e, d, log');
      CommitKeepsOrder(db, log, l.work, l.prior, e, d, log');
      CommitKeepsSlotOrder(db, log, l.work, l.prior, e, d, log');
      CommitKeepsSlots(db, log, l.work, l.prior, e, d, log');
      CommitKeepsEvents(db, log, l.work, l.prior, e, d, log');
    } else {
      SameRulesKeep(db, log, db);
    }
  }

  lemma EditStepKeeps(t: Traced, a: Action)
    requires Invariant(t) && Enabled(t.world, a) && a.CommitEdit?
    ensures StepKept(t, a)
  {
    var db, log, q := t.world.db, t.log, t.world.clients[a.c];
    assert Incidents.ClientKnows(db, q);
    if CanEdit(db, q.edit, q.prior) {
      var log' := NextLog(t, a);
      EditEvolves(db, log, q.edit, q.prior, log');
      OrderedAfterEvolution(db, log, NextDb(t.world, a), log');
      EditKeepsSlots(db, log, q.edit, q.prior, log');
      EditKeepsEvents(db, log, q.edit, q.prior, log');
    } else {
      SameRulesKeep(db, log, db);
    }
  }

  lemma StepKeepsTable(t: Traced, a: Action)
    requires Invariant(t) && Enabled(t.world, a)
    ensures StepKept(t, a)
  {
    var db, log := t.world.db, t.log;
    if a.Commit? {
      CommitStepKeeps(t, a);
    } else if a.CommitEdit? {
      EditStepKeeps(t, a);
    } else if a.Claim? && CanClaim(db, a.r, a.owner, a.now, a.slot) {
      ClaimKeeps(db, log, a.r, a.owner, a.now, a.expires, a.slot,
                 ClaimRecord(a.r, WorkFence(ClaimedWork(db, a.r, a.owner, a.slot))));
    } else if a.CreateRule? && a.r !in db.rules {
      CreateKeeps(db, log, a.r, NewRule(a.settings, a.due), a.due);
    } else if a.Reschedule? && a.r in db.rules && db.rules[a.r].enabled && !db.rules[a.r].replaced {
      RescheduleKeeps(db, log, a.r, a.due);
    } else {
      if a.CommitResolve? { assert Incidents.ClientKnows(db, t.world.clients[a.c]); }
      SameRulesKeep(db, log, NextDb(t.world, a));
    }
  }

  lemma ClientStillKnows(t: Traced, a: Action, c: nat)
    requires Invariant(t) && Enabled(t.world, a) && StepKept(t, a) && c in NextClients(t.world, a)
    ensures ClientKnows(NextDb(t.world, a), NextLog(t, a), NextClients(t.world, a)[c])
  {
    var db', log', client := NextDb(t.world, a), NextLog(t, a), NextClients(t.world, a)[c];
    if client.Claimed? || client.Loaded? {
      if a.Claim? && a.c == c {
        ClaimKeeps(t.world.db, t.log, a.r, a.owner, a.now, a.expires, a.slot,
                   ClaimRecord(a.r, WorkFence(ClaimedWork(t.world.db, a.r, a.owner, a.slot))));
      } else {
        assert ClientKnows(t.world.db, t.log, t.world.clients[c]);
        EvolvingKeepsWork(t.world.db, t.log, db', log', client.work);
      }
    }
  }

  lemma StepKeepsInvariant(t: Traced, a: Action)
    requires Invariant(t) && Enabled(t.world, a)
    ensures Invariant(Step(t, a))
  {
    Incidents.StepKeepsInvariant(t.world, a);
    StepKeepsTable(t, a);
    forall c | c in NextClients(t.world, a)
      ensures ClientKnows(NextDb(t.world, a), NextLog(t, a), NextClients(t.world, a)[c])
    {
      ClientStillKnows(t, a, c);
    }
  }

  lemma {:induction false} RunKeepsInvariant(t: Traced, actions: seq<Action>)
    requires Invariant(t) && Legal(t.world, actions)
    ensures Invariant(Run(t, actions))
    decreases |actions|
  {
    if actions != [] {
      StepKeepsInvariant(t, actions[0]);
      RunKeepsInvariant(Step(t, actions[0]), actions[1..]);
    }
  }

  // ---------------------------------------------------------------- theorems

  /** In every run, whatever is edited, disabled or rescheduled in between: claims of a rule get
      strictly increasing fences, and so do its commits, so no fence commits twice and none commits
      after a newer claim has committed; every commit spends a fence that was claimed. */
  lemma FencesOnlyGrow(actions: seq<Action>)
    requires Legal(EMPTY, actions)
    ensures var log := Run(START, actions).log;
            && (forall i, j :: 0 <= i < j < |log.claims| && log.claims[i].rule == log.claims[j].rule ==>
                  log.claims[i].fence.Less(log.claims[j].fence))
            && (forall i, j :: 0 <= i < j < |log.commits| && log.commits[i].rule == log.commits[j].rule ==>
                  log.commits[i].fence.Less(log.commits[j].fence))
            && (forall i :: 0 <= i < |log.commits| ==>
                ClaimRecord(log.commits[i].rule, log.commits[i].fence) in log.claims)
  {
    RunKeepsInvariant(START, actions);
  }

  /** A commit can only succeed under the newest claim of its rule. */
  lemma StaleCommitIsRefused(actions: seq<Action>, w: Work, prior: Option<StateRow>, d: Decision)
    requires Legal(EMPTY, actions)
    requires CanCommit(Run(START, actions).world.db, w, prior, d)
    ensures forall k :: k in Run(START, actions).log.claims && k.rule == w.id ==> k.fence.AtMost(WorkFence(w))
  {
    RunKeepsInvariant(START, actions);
    var t := Run(START, actions);
    forall k | k in t.log.claims && k.rule == w.id ensures k.fence.AtMost(WorkFence(w)) {
      var i :| 0 <= i < |t.log.claims| && t.log.claims[i] == k;
    }
  }

  /** Within one stretch of schedule committed slots strictly increase. */
  lemma CommittedSlotsIncrease(actions: seq<Action>, i: nat, j: nat)
    requires Legal(EMPTY, actions) && i < j < |Run(START, actions).log.commits|
    requires SameStretch(Run(START, actions).log, i, j)
    ensures Run(START, actions).log.commits[i].slot < Run(START, actions).log.commits[j].slot
  {
    RunKeepsInvariant(START, actions);
  }

  ghost predicate CountsEverySlot(t: Traced, r: nat)
    requires r in t.world.db.rules && t.world.db.rules[r].nextDue.Some? && r in t.log.schedules
  {
    CADENCE * Counted(t.log.commits, r, t.log.schedules[r].generation)
      == t.world.db.rules[r].nextDue.value - t.log.schedules[r].base
  }

  ghost predicate CommitsOnGrid(t: Traced, r: nat)
    requires r in t.log.schedules
  {
    forall i :: 0 <= i < |t.log.commits| && t.log.commits[i].rule == r
                && t.log.commits[i].generation == t.log.schedules[r].generation ==>
      (t.log.commits[i].slot - t.log.commits[i].due) % CADENCE == 0
  }

  lemma CountingIsConserved(t: Traced, r: nat)
    requires Invariant(t) && r in t.world.db.rules && t.world.db.rules[r].nextDue.Some?
    ensures r in t.log.schedules && (CountsEverySlot(t, r) <==> CommitsOnGrid(t, r))
  {
    assert r in t.log.schedules;
    DriftIsOffGridTime(t.log.commits, r, t.log.schedules[r].generation);
  }

  /** Conservation, in every run and for every rule that has a due time: the slots counted since that
      schedule was set are exactly the slots passed, if and only if every slot committed since was on
      the grid.  Creating, editing or rescheduling a rule sets its schedule, and so does a commit that
      was claimed before a rescheduling. */
  lemma EverySlotCountedOnce(actions: seq<Action>, r: nat)
    requires Legal(EMPTY, actions)
    requires var t := Run(START, actions); r in t.world.db.rules && t.world.db.rules[r].nextDue.Some?
    ensures var t := Run(START, actions);
            r in t.log.schedules && (CountsEverySlot(t, r) <==> CommitsOnGrid(t, r))
  {
    RunKeepsInvariant(START, actions);
    CountingIsConserved(Run(START, actions), r);
  }

  ghost predicate Distinct(channels: seq<Channel>) {
    forall i, j :: 0 <= i < j < |channels| ==> channels[i] != channels[j]
  }

  lemma SortedChannelsDistinct(m: map<Channel, OutboxId>)
    ensures Distinct(SortedChannels(m))
  {
  }

  /** The event an opening of this work would create. */
  function OpeningEvent(w: Work): EventId { EventId(w.id, w.version, w.revision, w.slot) }

  /** In every run, for a rule with distinct channels: a commit succeeds exactly when it holds the lease
      of the current rule, has read the current state and, if it opens an incident, the event it would
      create is not there yet.  No other create-if-absent or still-unresolved condition ever refuses. */
  lemma FencedCommitLaw(actions: seq<Action>, c: nat, quality: Quality, breached: bool, value: Option<real>)
    requires Legal(EMPTY, actions)
    requires var w := Run(START, actions).world;
             c in w.clients && w.clients[c].Loaded? && Distinct(w.clients[c].work.channels)
    ensures var w := Run(START, actions).world; var l := w.clients[c];
            && Coherent(PriorState(l.prior))
            && var d := DecisionOf(l.work, l.prior, quality, breached, value);
               (CanCommit(w.db, l.work, l.prior, d) <==>
                  && FenceHolds(w.db, l.work) && StateHolds(w.db, l.work.id, l.prior)
                  && (d.Opens() ==> OpeningEvent(l.work) !in w.db.events))
  {
    RunKeepsInvariant(START, actions);
    var t := Run(START, actions);
    var db, l := t.world.db, t.world.clients[c];
    assert Incidents.ClientKnows(db, l);
    var e := EvaluationOf(l.work, quality, breached, value);
    DecisionShape(l.work.ToRule(), PriorState(l.prior), e, CADENCE);
    var d := DecisionOf(l.work, l.prior, quality, breached, value);
    if FenceHolds(db, l.work) && StateHolds(db, l.work.id, l.prior)
       && (d.Opens() ==> OpeningEvent(l.work) !in db.events) {
      FencedConditionsHold(db, l.work, l.prior, e);
    }
  }

  lemma FencedConditionsHold(db: Db, w: Work, prior: Option<StateRow>, e: Evaluation)
    requires Incidents.Incidents(db) && Incidents.Outboxes(db) && Incidents.Seen(db, w.id, prior)
    requires Coherent(PriorState(prior))
    requires Distinct(w.channels) && FenceHolds(db, w) && StateHolds(db, w.id, prior) && e.slot == w.slot
    requires Decide(w.ToRule(), PriorState(prior), e, CADENCE).Opens() ==> OpeningEvent(w) !in db.events
    ensures var d := Decide(w.ToRule(), PriorState(prior), e, CADENCE); EventHolds(db, d) && OutboxesHold(db, d)
  {
    var s := PriorState(prior);
    var d := Decide(w.ToRule(), s, e, CADENCE);
    DecisionShape(w.ToRule(), s, e, CADENCE);
    DecisionOutboxes(w.ToRule(), s, e, CADENCE);
    SortedChannelsDistinct(s.openingOutboxes);
    if s.mode == Active { assert Incidents.StateNamesIncident(db, w.id); }
    assert EventHolds(db, d);
    forall i | 0 <= i < |d.outboxes| ensures d.outboxes[i].id !in db.outboxes {
      assert d.outboxes[i].id in db.outboxes ==> Incidents.OutboxMatches(db, d.outboxes[i].id);
    }
  }

  /** While the schedule backfill has not rewritten the rule's due time, a fenced commit is never asked
      to create an event that exists, so holding lease and state is all it needs. */
  lemma FencedCommitSucceeds(actions: seq<Action>, c: nat, quality: Quality, breached: bool, value: Option<real>)
    requires Legal(EMPTY, actions)
    requires var w := Run(START, actions).world;
             c in w.clients && w.clients[c].Loaded? && Distinct(w.clients[c].work.channels)
    requires Run(START, actions).world.clients[c].work.id !in Run(START, actions).log.rescheduled
    ensures var w := Run(START, actions).world; var l := w.clients[c];
            && Coherent(PriorState(l.prior))
            && (CanCommit(w.db, l.work, l.prior, DecisionOf(l.work, l.prior, quality, breached, value)) <==>
                  FenceHolds(w.db, l.work) && StateHolds(w.db, l.work.id, l.prior))
  {
    FencedCommitLaw(actions, c, quality, breached, value);
    RunKeepsInvariant(START, actions);
    var t := Run(START, actions);
    assert ClientKnows(t.world.db, t.log, t.world.clients[c]);
  }

  // A rule without channels, its claims for slot 120, and the incident they open.
  const ROW := RuleRow(1, 1, true, false, 60, 0, [], None, None, 0, Some(120))
  const FIRST_WORK := Work(7, 1, 1, 60, 0, [], 5, 1, 120, 120)
  const SECOND_WORK := Work(7, 1, 1, 60, 0, [], 5, 2, 120, 120)
  const EVENT := EventId(7, 1, 1, 120)

  ghost predicate OpenedState(s: StateRow) {
    s.revision == 1 && s.state.mode == Active && s.state.activeEvent == Some(EVENT) && s.state.cooldownUntil == 120
  }

  lemma OpeningCommit(t: Traced)
    requires t.world.db.rules == map[7 := ROW.(owner := Some(5), leaseExpires := Some(130), epoch := 1)]
    requires t.world.db.states == map[] && t.world.db.events == map[] && t.world.db.outboxes == map[]
    requires t.world.clients == map[1 := Loaded(FIRST_WORK, None)]
    ensures var a := Commit(1, Sufficient, true, Some(1.0));
            && Enabled(t.world, a)
            && var w := Step(t, a).world;
               && w.db.rules == map[7 := ROW.(epoch := 1, nextDue := Some(180))]
               && w.db.events == map[EVENT := EventRow(Open, 1, None, true)] && w.clients == map[]
               && 7 in w.db.states && OpenedState(w.db.states[7])
  {
    var d := DecisionOf(FIRST_WORK, None, Sufficient, true, Some(1.0));
    assert d.transition == Opened && d.outboxes == [] && d.event == Some(EVENT);
    assert CanCommit(t.world.db, FIRST_WORK, None, d);
  }

  /** A run that opens one incident for slot 120 of rule 7. */
  lemma OpenedOnce() returns (actions: seq<Action>)
    ensures Legal(EMPTY, actions)
    ensures var w := Run(START, actions).world;
            && w.db.rules == map[7 := ROW.(epoch := 1, nextDue := Some(180))] && w.clients == map[]
            && w.db.events == map[EVENT := EventRow(Open, 1, None, true)] && 7 in w.db.states
               && OpenedState(w.db.states[7])
  {
    var create, claim := CreateRule(7, Settings(true, 60, 0, []), 120), Claim(1, 7, 5, 100, 130, 120);
    RunSnoc(START, [], create);
    var t1 := Run(START, [] + [create]);
    assert t1.world.db.rules == map[7 := ROW];
    RunSnoc(START, [] + [create], claim);
    var t2 := Run(START, [] + [create] + [claim]);
    assert t2.world.clients == map[1 := Claimed(FIRST_WORK)];
    RunSnoc(START, [] + [create] + [claim], LoadState(1));
    var t3 := Run(START, [] + [create] + [claim] + [LoadState(1)]);
    assert t3.world.clients == map[1 := Loaded(FIRST_WORK, None)];
    OpeningCommit(t3);
    RunSnoc(START, [] + [create] + [claim] + [LoadState(1)], Commit(1, Sufficient, true, Some(1.0)));
    actions := [] + [create] + [claim] + [LoadState(1)] + [Commit(1, Sufficient, true, Some(1.0))];
  }

  /** The incident is resolved by hand. */
  lemma ResolvedByHand(t: Traced) returns (actions: seq<Action>)
    requires t.world.db.events == map[EVENT := EventRow(Open, 1, None, true)]
    requires 7 in t.world.db.states && OpenedState(t.world.db.states[7])
    ensures Legal(t.world, actions)
    ensures var w := Run(t, actions).world;
            && w.db.rules == t.world.db.rules && EVENT in w.db.events
            && 7 in w.db.states && w.db.states[7].state.mode == Healthy && w.db.states[7].state.cooldownUntil == 120
  {
    RunSnoc(t, [], ReadEvent(1, EVENT, 1));
    var one := [] + [ReadEvent(1, EVENT, 1)];
    assert Run(t, one).world.clients[1] == ResolveReadEvent(EVENT, 1);
    RunSnoc(t, one, ReadState(1));
    var two := one + [ReadState(1)];
    assert Run(t, two).world.clients[1] == ResolveReadState(EVENT, 1, Some(t.world.db.states[7]));
    RunSnoc(t, two, CommitResolve(1));
    actions := two + [CommitResolve(1)];
  }

  /** The rule is made due for the same slot again and claimed for it. */
  lemma ClaimedAgain(t: Traced) returns (actions: seq<Action>)
    requires t.world.db.rules == map[7 := ROW.(epoch := 1, nextDue := Some(180))] && 7 in t.world.db.states
    ensures Legal(t.world, actions)
    ensures var w := Run(t, actions).world;
            && w.db.rules == map[7 := ROW.(owner := Some(5), leaseExpires := Some(230), epoch := 2)]
            && w.db.states == t.world.db.states && w.db.events == t.world.db.events
            && 1 in w.clients && w.clients[1] == Loaded(SECOND_WORK, Some(t.world.db.states[7]))
  {
    RunSnoc(t, [], Reschedule(7, 120));
    var one := [] + [Reschedule(7, 120)];
    assert Run(t, one).world.db.rules == map[7 := ROW.(epoch := 1)];
    RunSnoc(t, one, Claim(1, 7, 5, 200, 230, 120));
    var two := one + [Claim(1, 7, 5, 200, 230, 120)];
    assert Run(t, two).world.clients[1] == Claimed(SECOND_WORK);
    RunSnoc(t, two, LoadState(1));
    actions := two + [LoadState(1)];
  }

  /** A fenced commit with a current state, refused only because its event exists. */
  ghost predicate RefusedByItsEvent(w: World, c: nat) {
    && c in w.clients && w.clients[c].Loaded? && Distinct(w.clients[c].work.channels)
       && Coherent(PriorState(w.clients[c].prior))
    && FenceHolds(w.db, w.clients[c].work) && StateHolds(w.db, w.clients[c].work.id, w.clients[c].prior)
    && !CanCommit(w.db, w.clients[c].work, w.clients[c].prior,
                  DecisionOf(w.clients[c].work, w.clients[c].prior, Sufficient, true, Some(1.0)))
  }

  lemma SecondOpeningIsRefused(w: World)
    requires w.db.rules == map[7 := ROW.(owner := Some(5), leaseExpires := Some(230), epoch := 2)]
    requires EVENT in w.db.events && 7 in w.db.states
    requires w.db.states[7].state.mode == Healthy && w.db.states[7].state.cooldownUntil == 120
    requires 1 in w.clients && w.clients[1] == Loaded(SECOND_WORK, Some(w.db.states[7]))
    ensures RefusedByItsEvent(w, 1)
  {
    var d := DecisionOf(SECOND_WORK, Some(w.db.states[7]), Sufficient, true, Some(1.0));
    assert d.Opens() && d.event == Some(EVENT);
  }

  /** After a rescheduling the law's last condition is needed: an incident opened for a slot is resolved
      by hand, the rule is made due for that slot again, and the evaluator that claims it holds its lease
      and the current state, yet cannot open the event a second time. */
  lemma RescheduledSlotIsRefused() returns (actions: seq<Action>)
    ensures Legal(EMPTY, actions) && RefusedByItsEvent(Run(START, actions).world, 1)
  {
    var opening := OpenedOnce();
    var t1 := Run(START, opening);
    var resolving := ResolvedByHand(t1);
    var t2 := Run(t1, resolving);
    var claiming := ClaimedAgain(t2);
    RunJoin(t1, resolving, claiming);
    RunJoin(START, opening, resolving + claiming);
    actions := opening + (resolving + claiming);
    SecondOpeningIsRefused(Run(t2, claiming).world);
  }

  lemma RunSnoc(t: Traced, xs: seq<Action>, a: Action)
    requires Legal(t.world, xs) && Enabled(Run(t, xs).world, a)
    ensures Legal(t.world, xs + [a]) && Run(t, xs + [a]) == Step(Run(t, xs), a)
  {
    var last := Run(t, xs);
    assert Legal(last.world, [a]) && Run(last, [a]) == Step(last, a) by {
      RunOne(last, a, []);
      assert [a] + [] == [a];
    }
    RunJoin(t, xs, [a]);
  }

  /** Epochs alone do not grow: disabling a rule removes its epoch, so a claim before and a claim
      after can carry the same one.  Only the version tells them apart. */
  lemma EpochRepeatsAfterDisable() returns (actions: seq<Action>)
    ensures Legal(EMPTY, actions)
    ensures Run(START, actions).log.claims == [ClaimRecord(7, Fence(1, 1)), ClaimRecord(7, Fence(3, 1))]
  {
    var settings := Settings(true, 60, 60, [Email]);
    var create := CreateRule(7, settings, 120);
    var first, second := Claim(1, 7, 5, 100, 130, 120), Claim(1, 7, 5, 200, 230, 180);
    var off := Edit(7, 1, 1, true, true, false, Changes(Some(false), None, None, None), 120, 0, settings);
    var on := Edit(7, 2, 2, false, true, false, Changes(Some(true), None, None, None), 180, 0, settings);
    RunOne(START, create, []);
    var t0 := Run(START, [create] + []);
    assert t0.world.db.rules[7] == NewRule(settings, 120);
    RunOne(t0, first, []);
    var t1 := Run(t0, [first] + []);
    assert t1.log.claims == [ClaimRecord(7, Fence(1, 1))];
    var disable := EditAlone(t1, off);
    var t2 := Run(t1, disable);
    var enable := EditAlone(t2, on);
    var t3 := Run(t2, enable);
    RunOne(t3, second, []);
    RunJoin(t2, enable, [second] + []);
    RunJoin(t1, disable, enable + ([second] + []));
    RunJoin(t0, [first] + [], disable + (enable + ([second] + [])));
    RunJoin(START, [create] + [], [first] + [] + (disable + (enable + ([second] + []))));
    actions := [create] + [] + ([first] + [] + (disable + (enable + ([second] + []))));
  }

  /** A semantic edit of a rule without state, run without interruption, takes effect. */
  lemma EditAlone(t: Traced, edit: Edit) returns (actions: seq<Action>)
    requires edit.id in t.world.db.rules && t.world.db.rules[edit.id].version == edit.expectedVersion
    requires !t.world.db.rules[edit.id].replaced && edit.id !in t.world.db.states && edit.semantic && !edit.replacing
    ensures Legal(t.world, actions)
    ensures var t' := Run(t, actions);
            && t'.log.claims == t.log.claims && t'.world.db.states == t.world.db.states
            && t'.world.db.rules == t.world.db.rules[edit.id := EditedRule(t.world.db.rules[edit.id], edit)]
  {
    var t1 := Step(t, BeginEdit(2, edit));
    var t2 := Step(t1, ReadEditState(2));
    assert t2.world.clients[2] == EditReadState(edit, None);
    RunOne(t2, CommitEdit(2), []);
    RunOne(t1, ReadEditState(2), [CommitEdit(2)] + []);
    RunOne(t, BeginEdit(2, edit), [ReadEditState(2)] + ([CommitEdit(2)] + []));
    actions := [BeginEdit(2, edit)] + ([ReadEditState(2)] + ([CommitEdit(2)] + []));
  }

  lemma RunOne(t: Traced, a: Action, rest: seq<Action>)
    requires Enabled(t.world, a) && Legal(Step(t, a).world, rest)
    ensures Legal(t.world, [a] + rest) && Run(t, [a] + rest) == Run(Step(t, a), rest)
  {
    assert ([a] + rest)[1..] == rest;
  }

  lemma {:induction false} RunJoin(t: Traced, xs: seq<Action>, ys: seq<Action>)
    requires Legal(t.world, xs) && Legal(Run(t, xs).world, ys)
    ensures Legal(t.world, xs + ys) && Run(t, xs + ys) == Run(Run(t, xs), ys)
    decreases |xs|
  {
    if xs == [] {
      assert xs + ys == ys;
    } else {
      RunJoin(Step(t, xs[0]), xs[1..], ys);
      assert (xs + ys)[1..] == xs[1..] + ys;
    }
  }
}
