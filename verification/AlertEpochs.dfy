/**
 Lease epochs on their own.  A claim raises a rule's epoch by one; an edit that takes the rule off its
 schedule removes the epoch, which then reads as zero.  Between two claims of a rule these edits decide
 whether the epoch has grown.
 */
module AlertEpochs {
  import opened AlertStore
  import opened AlertHistory

  datatype LeaseEvent = ClaimedAt(rule: nat, epoch: int) | ScheduleRemoved(rule: nat)

  /** Replacing or disabling a rule removes its schedule fields, the epoch among them. */
  predicate RemovesSchedule(edit: Edit) { edit.replacing || (edit.semantic && !Schedules(edit)) }

  /** The claims and removals a step adds. */
  function LeaseEventsOf(w: World, a: Action): seq<LeaseEvent>
    requires Enabled(w, a)
  {
    match a
    case Claim(_, r, owner, now, _, slot) =>
      if CanClaim(w.db, r, owner, now, slot) then [ClaimedAt(r, ClaimedWork(w.db, r, owner, slot).epoch)] else []
    case CommitEdit(c) =>
      var q := w.clients[c];
      if CanEdit(w.db, q.edit, q.prior) && RemovesSchedule(q.edit) then [ScheduleRemoved(q.edit.id)] else []
    case _ => []
  }

  function LeaseEvents(w: World, actions: seq<Action>): seq<LeaseEvent>
    requires Legal(w, actions)
    decreases |actions|
  {
    if actions == [] then [] else LeaseEventsOf(w, actions[0]) + LeaseEvents(Apply(w, actions[0]), actions[1..])
  }

  /** The epoch a rule has after these events. */
  function EpochAfter(events: seq<LeaseEvent>, r: nat): int {
    if events == [] then 0
    else
      var last, before := events[|events| - 1], EpochAfter(events[..|events| - 1], r);
      if last.rule != r then before else if last.ClaimedAt? then before + 1 else 0
  }

  lemma EpochSnoc(events: seq<LeaseEvent>, last: LeaseEvent, r: nat)
    ensures EpochAfter(events + [last], r) ==
              if last.rule != r then EpochAfter(events, r) else if last.ClaimedAt? then EpochAfter(events, r) + 1 else 0
  {
    assert (events + [last])[..|events|] == events;
  }

  lemma {:induction false} NoEventsNoEpoch(events: seq<LeaseEvent>, r: nat)
    requires forall i :: 0 <= i < |events| ==> events[i].rule != r
    ensures EpochAfter(events, r) == 0
  {
    if events != [] { NoEventsNoEpoch(events[..|events| - 1], r); }
  }

  // ---------------------------------------------------------------- every run

  ghost predicate Recorded(db: Db, events: seq<LeaseEvent>) {
    && (forall r :: r in db.rules ==> db.rules[r].epoch == EpochAfter(events, r))
    && (forall i :: 0 <= i < |events| ==> events[i].rule in db.rules)
    && (forall i :: 0 <= i < |events| && events[i].ClaimedAt? ==>
        events[i].epoch == EpochAfter(events[..i], events[i].rule) + 1)
  }

  lemma RecordOne(db: Db, events: seq<LeaseEvent>, last: LeaseEvent, db': Db)
    requires Recorded(db, events) && last.rule in db.rules
    requires last.ClaimedAt? ==> last.epoch == db.rules[last.rule].epoch + 1
    requires forall r :: r in db.rules ==> r in db'.rules
    requires forall r :: r in db'.rules && r in db.rules && r != last.rule ==> db'.rules[r].epoch == db.rules[r].epoch
    requires forall r :: r in db'.rules && r !in db.rules ==> db'.rules[r].epoch == 0
    requires db'.rules[last.rule].epoch == if last.ClaimedAt? then last.epoch else 0
    ensures Recorded(db', events + [last])
  {
    var more := events + [last];
    forall r | r in db'.rules ensures db'.rules[r].epoch == EpochAfter(more, r) {
      EpochSnoc(events, last, r);
      if r !in db.rules { NoEventsNoEpoch(events, r); }
    }
    forall i | 0 <= i < |more| && more[i].ClaimedAt? ensures more[i].epoch == EpochAfter(more[..i], more[i].rule) + 1 {
      if i < |events| { assert more[..i] == events[..i]; } else { assert more[..i] == events; }
    }
  }

  lemma RecordNothing(db: Db, events: seq<LeaseEvent>, db': Db)
    requires Recorded(db, events)
    requires forall r :: r in db.rules ==> r in db'.rules && db'.rules[r].epoch == db.rules[r].epoch
    requires forall r :: r in db'.rules && r !in db.rules ==> db'.rules[r].epoch == 0
    ensures Recorded(db', events)
  {
    forall r | r in db'.rules && r !in db.rules ensures EpochAfter(events, r) == 0 {
      NoEventsNoEpoch(events, r);
    }
  }

  lemma StepIsRecorded(w: World, events: seq<LeaseEvent>, a: Action)
    requires Recorded(w.db, events) && Enabled(w, a)
    ensures Recorded(NextDb(w, a), events + LeaseEventsOf(w, a))
  {
    var more := LeaseEventsOf(w, a);
    if more == [] {
      assert events + more == events;
      RecordNothing(w.db, events, NextDb(w, a));
    } else {
      RecordOne(w.db, events, more[0], NextDb(w, a));
      assert more == [more[0]];
    }
  }

  lemma {:induction false} RunIsRecorded(w: World, events: seq<LeaseEvent>, actions: seq<Action>)
    requires Recorded(w.db, events) && Legal(w, actions)
    ensures Recorded(Exec(w, actions).db, events + LeaseEvents(w, actions))
    decreases |actions|
  {
    if actions == [] {
      assert events + LeaseEvents(w, actions) == events;
    } else {
      var one, next := LeaseEventsOf(w, actions[0]), Apply(w, actions[0]);
      assert Recorded(next.db, events + one) by { StepIsRecorded(w, events, actions[0]); }
      RunIsRecorded(next, events + one, actions[1..]);
      Regroup(events, one, LeaseEvents(next, actions[1..]), LeaseEvents(w, actions));
    }
  }

  lemma Regroup(xs: seq<LeaseEvent>, ys: seq<LeaseEvent>, zs: seq<LeaseEvent>, all: seq<LeaseEvent>)
    requires all == ys + zs
    ensures xs + ys + zs == xs + all
  {
  }

  // ---------------------------------------------------------------- theorems

  predicate ClaimOf(events: seq<LeaseEvent>, i: int, r: nat) {
    0 <= i < |events| && events[i].ClaimedAt? && events[i].rule == r
  }

  ghost predicate RemovedBetween(events: seq<LeaseEvent>, i: int, j: int, r: nat) {
    exists k :: i < k < j && 0 <= k < |events| && events[k] == ScheduleRemoved(r)
  }

  /** Two claims of a rule with no claim of it between them. */
  ghost predicate Consecutive(events: seq<LeaseEvent>, i: int, j: int, r: nat) {
    ClaimOf(events, i, r) && ClaimOf(events, j, r) && i < j && forall k :: i < k < j ==> !ClaimOf(events, k, r)
  }

  /** What the epoch is between a claim and the next one. */
  lemma {:induction false} EpochSince(events: seq<LeaseEvent>, i: nat, n: nat, r: nat)
    requires i < n <= |events| && ClaimOf(events, i, r) && events[i].epoch == EpochAfter(events[..i], r) + 1
    requires forall k :: i < k < n ==> !ClaimOf(events, k, r)
    ensures EpochAfter(events[..n], r) == if RemovedBetween(events, i, n, r) then 0 else events[i].epoch
    decreases n
  {
    assert events[..n] == events[..n - 1] + [events[n - 1]];
    EpochSnoc(events[..n - 1], events[n - 1], r);
    if n > i + 1 {
      EpochSince(events, i, n - 1, r);
      assert !ClaimOf(events, n - 1, r);
      assert RemovedBetween(events, i, n, r) <==>
               RemovedBetween(events, i, n - 1, r) || events[n - 1] == ScheduleRemoved(r);
    }
  }

  lemma {:induction false} EpochsArePositive(events: seq<LeaseEvent>, r: nat)
    ensures EpochAfter(events, r) >= 0
  {
    if events != [] { EpochsArePositive(events[..|events| - 1], r); }
  }

  /** The exact law, in every run: the next claim of a rule continues its epoch, or starts again at one
      when an edit took the rule off its schedule in between.  So epochs of consecutive claims increase
      if and only if no such edit was committed between them. */
  lemma EpochsGrowExactlyWithoutRemoval(actions: seq<Action>, i: nat, j: nat, r: nat)
    requires Legal(EMPTY, actions) && Consecutive(LeaseEvents(EMPTY, actions), i, j, r)
    ensures var events := LeaseEvents(EMPTY, actions);
            && events[j].epoch == (if RemovedBetween(events, i, j, r) then 1 else events[i].epoch + 1)
            && (events[i].epoch < events[j].epoch <==> !RemovedBetween(events, i, j, r))
  {
    var events := LeaseEvents(EMPTY, actions);
    ClaimsAreRecorded(actions, i);
    ClaimsAreRecorded(actions, j);
    EpochSince(events, i, j, r);
    EpochsArePositive(events[..i], r);
  }

  lemma {:induction false} EpochNeverFalls(events: seq<LeaseEvent>, i: nat, n: nat, r: nat)
    requires i <= n <= |events| && !RemovedBetween(events, i - 1, n, r)
    ensures EpochAfter(events[..n], r) >= EpochAfter(events[..i], r)
    decreases n
  {
    if i < n {
      assert events[..n] == events[..n - 1] + [events[n - 1]];
      EpochSnoc(events[..n - 1], events[n - 1], r);
      EpochNeverFalls(events, i, n - 1, r);
    }
  }

  lemma LaterClaimIsHigher(events: seq<LeaseEvent>, i: nat, j: nat, r: nat)
    requires i < j && ClaimOf(events, i, r) && ClaimOf(events, j, r) && !RemovedBetween(events, i, j, r)
    requires events[i].epoch == EpochAfter(events[..i], r) + 1 && events[j].epoch == EpochAfter(events[..j], r) + 1
    ensures events[i].epoch < events[j].epoch
  {
    assert events[..i + 1] == events[..i] + [events[i]];
    EpochSnoc(events[..i], events[i], r);
    EpochNeverFalls(events, i + 1, j, r);
  }

  lemma ClaimsAreRecorded(actions: seq<Action>, i: nat)
    requires Legal(EMPTY, actions) && i < |LeaseEvents(EMPTY, actions)| && LeaseEvents(EMPTY, actions)[i].ClaimedAt?
    ensures var events := LeaseEvents(EMPTY, actions); events[i].epoch == EpochAfter(events[..i], events[i].rule) + 1
  {
    RunIsRecorded(EMPTY, [], actions);
    assert [] + LeaseEvents(EMPTY, actions) == LeaseEvents(EMPTY, actions);
  }

  /** Any two claims of a rule between which its schedule was never removed carry increasing epochs. */
  lemma EpochsGrowWhileScheduled(actions: seq<Action>, i: nat, j: nat, r: nat)
    requires Legal(EMPTY, actions)
    requires var events := LeaseEvents(EMPTY, actions);
             i < j && ClaimOf(events, i, r) && ClaimOf(events, j, r) && !RemovedBetween(events, i, j, r)
    ensures LeaseEvents(EMPTY, actions)[i].epoch < LeaseEvents(EMPTY, actions)[j].epoch
  {
    ClaimsAreRecorded(actions, i);
    ClaimsAreRecorded(actions, j);
    LaterClaimIsHigher(LeaseEvents(EMPTY, actions), i, j, r);
  }

  // ---------------------------------------------------------------- the same claims as in the fence log

  function ClaimsIn(events: seq<LeaseEvent>): seq<(nat, int)> {
    if events == [] then []
    else
      var last := events[|events| - 1];
      ClaimsIn(events[..|events| - 1]) + (if last.ClaimedAt? then [(last.rule, last.epoch)] else [])
  }

  function Epochs(claims: seq<ClaimRecord>): seq<(nat, int)> {
    seq(|claims|, i requires 0 <= i < |claims| => (claims[i].rule, claims[i].fence.epoch))
  }

  lemma {:induction false} ClaimsInJoin(xs: seq<LeaseEvent>, ys: seq<LeaseEvent>)
    ensures ClaimsIn(xs + ys) == ClaimsIn(xs) + ClaimsIn(ys)
    decreases |ys|
  {
    if ys == [] {
      assert xs + ys == xs;
    } else {
      var n := |ys| - 1;
      assert (xs + ys)[..|xs + ys| - 1] == xs + ys[..n];
      ClaimsInJoin(xs, ys[..n]);
    }
  }

  lemma OneEvent(e: LeaseEvent)
    ensures ClaimsIn([e]) == if e.ClaimedAt? then [(e.rule, e.epoch)] else []
  {
    assert [e][..0] == [];
  }

  lemma EpochsSnoc(claims: seq<ClaimRecord>, k: ClaimRecord)
    ensures Epochs(claims + [k]) == Epochs(claims) + [(k.rule, k.fence.epoch)]
  {
  }

  lemma StepFollowsLog(t: Traced, a: Action)
    requires Enabled(t.world, a)
    ensures Epochs(Step(t, a).log.claims) == Epochs(t.log.claims) + ClaimsIn(LeaseEventsOf(t.world, a))
  {
    var db := t.world.db;
    if a.Claim? && CanClaim(db, a.r, a.owner, a.now, a.slot) {
      var k := ClaimRecord(a.r, WorkFence(ClaimedWork(db, a.r, a.owner, a.slot)));
      EpochsSnoc(t.log.claims, k);
      OneEvent(ClaimedAt(a.r, k.fence.epoch));
    } else {
      if a.CommitEdit? { OneEvent(ScheduleRemoved(t.world.clients[a.c].edit.id)); }
      assert Step(t, a).log.claims == t.log.claims && ClaimsIn(LeaseEventsOf(t.world, a)) == [];
    }
  }

  lemma {:induction false} ClaimsFollowLog(t: Traced, actions: seq<Action>)
    requires Legal(t.world, actions)
    ensures Epochs(Run(t, actions).log.claims) == Epochs(t.log.claims) + ClaimsIn(LeaseEvents(t.world, actions))
    decreases |actions|
  {
    if actions != [] {
      var next, rest := Step(t, actions[0]), actions[1..];
      StepFollowsLog(t, actions[0]);
      ClaimsFollowLog(next, rest);
      ClaimsInJoin(LeaseEventsOf(t.world, actions[0]), LeaseEvents(next.world, rest));
    }
  }

  /** The claims of a run are the ones its fence log records, in the same order. */
  lemma SameClaims(actions: seq<Action>)
    requires Legal(EMPTY, actions)
    ensures Epochs(Run(START, actions).log.claims) == ClaimsIn(LeaseEvents(EMPTY, actions))
  {
    ClaimsFollowLog(START, actions);
  }
}
