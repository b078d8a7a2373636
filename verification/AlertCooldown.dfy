/**
 Cooldown of notified incidents: notified openings of a rule keep their distance, everything opened
 in between is suppressed under the last notified event, and suppressed incidents notify nobody.
 */
module AlertCooldown {
  import opened Wrappers
  import opened AlertDecide
  import opened AlertStore
  import opened AlertHistory
  import Incidents = AlertIncidents
  import Fencing = AlertFencing

  /** The most recent notified opening of a rule. */
  function LastNotified(openings: seq<OpeningRecord>, r: nat): Option<OpeningRecord> {
    if openings == [] then None
    else
      var last := openings[|openings| - 1];
      if last.event.rule == r && last.notified then Some(last) else LastNotified(openings[..|openings| - 1], r)
  }

  lemma LastNotifiedSnoc(openings: seq<OpeningRecord>, o: OpeningRecord, r: nat)
    ensures LastNotified(openings + [o], r) == if o.event.rule == r && o.notified then Some(o)
              else LastNotified(openings, r)
  {
    assert (openings + [o])[..|openings|] == openings;
  }

  /** One opening against the openings before it. */
  ghost predicate Spaced(openings: seq<OpeningRecord>, k: nat)
    requires k < |openings|
  {
    var o, p := openings[k], LastNotified(openings[..k], openings[k].event.rule);
    && (o.notified <==> p.None? || p.value.slot + p.value.cooldown <= o.slot)
    && (!o.notified ==> o.source == Some(p.value.event))
  }

  ghost predicate OpeningsSpaced(log: Log) { forall k :: 0 <= k < |log.openings| ==> Spaced(log.openings, k) }

  /** Every opening is a stored event of its own, with the recorded source. */
  ghost predicate OpeningsStored(db: Db, log: Log) {
    && (forall k :: 0 <= k < |log.openings| ==>
          log.openings[k].event in db.events && db.events[log.openings[k].event].source == log.openings[k].source)
    && (forall j, k :: 0 <= j < k < |log.openings| ==> log.openings[j].event != log.openings[k].event)
  }

  /** The stored state remembers the last notified opening, across recoveries and resets. */
  ghost predicate StateRemembers(db: Db, log: Log, r: nat) {
    var p := LastNotified(log.openings, r);
    && (p.Some? ==> r in db.states)
    && (r in db.states ==>
          && db.states[r].state.cooldownUntil == (if p.None? then 0 else p.value.slot + p.value.cooldown)
          && db.states[r].state.lastNotified == (if p.None? then None else Some(p.value.event)))
  }

  ghost predicate NotifiedOpening(log: Log, e: EventId) {
    exists k :: 0 <= k < |log.openings| && log.openings[k].event == e && log.openings[k].notified
  }

  ghost predicate OutboxesNotified(db: Db, log: Log) {
    forall o :: o in db.outboxes ==> NotifiedOpening(log, o.event)
  }

  ghost predicate Table(db: Db, log: Log) {
    && OpeningsSpaced(log) && OpeningsStored(db, log) && OutboxesNotified(db, log)
    && forall r: nat :: StateRemembers(db, log, r)
  }

  ghost predicate Invariant(t: Traced) { Fencing.Invariant(t) && Table(t.world.db, t.log) }

  // ---------------------------------------------------------------- commit

  /** Only a notified opening of the rule moves its last notified opening. */
  lemma OpeningMovesLast(openings: seq<OpeningRecord>, w: Work, d: Decision, r: nat)
    requires d.Opens() ==> d.event.Some?
    ensures LastNotified(openings + OpeningOf(w, d), r) ==
              if d.transition == Opened && d.event.value.rule == r then Some(OpeningOf(w, d)[0])
              else LastNotified(openings, r)
  {
    if d.Opens() {
      LastNotifiedSnoc(openings, OpeningOf(w, d)[0], r);
    } else {
      assert openings + [] == openings;
    }
  }

  /** The cooldown a decision leaves. */
  lemma DecisionCooldown(rule: Rule, s: State, e: Evaluation, d: Decision)
    requires Coherent(s) && d == Decide(rule, s, e, CADENCE)
    ensures d.Opens() ==> d.event == Some(EventId(rule.id, rule.version, rule.revision, e.slot))
    ensures d.transition == Opened ==> d.next.lastNotified == d.event && d.next.cooldownUntil == e.slot + rule.cooldown
    ensures d.transition != Opened ==> d.next.lastNotified == s.lastNotified && d.next.cooldownUntil == s.cooldownUntil
  {
    DecisionShape(rule, s, e, CADENCE);
  }

  lemma CommitKeepsState(db: Db, log: Log, w: Work, prior: Option<StateRow>, e: Evaluation, d: Decision, r: nat)
    requires Incidents.CommitStep(db, w, prior, e, d) && StateRemembers(db, log, r) && StateRemembers(db, log, w.id)
    ensures StateRemembers(AfterCommit(db, w, prior, d), log.(openings := log.openings + OpeningOf(w, d)), r)
  {
    Incidents.CommitSeesStoredState(db, w, prior, e, d);
    DecisionCooldown(w.ToRule(), PriorState(prior), e, d);
    OpeningMovesLast(log.openings, w, d, r);
  }

  lemma CommitKeepsSpacing(db: Db, log: Log, w: Work, prior: Option<StateRow>, e: Evaluation, d: Decision, log': Log)
    requires Incidents.CommitStep(db, w, prior, e, d) && StateRemembers(db, log, w.id) && OpeningsSpaced(log)
    requires w.slot > 0
    requires log'.openings == log.openings + OpeningOf(w, d)
    ensures OpeningsSpaced(log')
  {
    Incidents.CommitSeesStoredState(db, w, prior, e, d);
    DecisionShape(w.ToRule(), PriorState(prior), e, CADENCE);
    forall k | 0 <= k < |log'.openings| ensures Spaced(log'.openings, k) {
      if k < |log.openings| {
        assert Spaced(log.openings, k) && log'.openings[..k] == log.openings[..k];
      } else {
        assert log'.openings[..k] == log.openings;
      }
    }
  }

  lemma CommitKeepsStored(db: Db, log: Log, w: Work, prior: Option<StateRow>, e: Evaluation, d: Decision, log': Log)
    requires Incidents.CommitStep(db, w, prior, e, d) && OpeningsStored(db, log)
    requires log'.openings == log.openings + OpeningOf(w, d)
    ensures OpeningsStored(AfterCommit(db, w, prior, d), log')
  {
    DecisionShape(w.ToRule(), PriorState(prior), e, CADENCE);
  }

  lemma CommitKeepsNotified(db: Db, log: Log, w: Work, prior: Option<StateRow>, e: Evaluation, d: Decision, log': Log)
    requires Incidents.Incidents(db) && Incidents.Outboxes(db) && Incidents.CommitStep(db, w, prior, e, d)
    requires OutboxesNotified(db, log) && log'.openings == log.openings + OpeningOf(w, d)
    ensures OutboxesNotified(AfterCommit(db, w, prior, d), log')
  {
    var db' := AfterCommit(db, w, prior, d);
    Incidents.PutOutboxesContents(db.outboxes, d.outboxes);
    forall o | o in db'.outboxes ensures NotifiedOpening(log', o.event) {
      if o in db.outboxes {
        OlderOpening(log, log', o.event);
      } else {
        var i :| 0 <= i < |d.outboxes| && d.outboxes[i].id == o;
        Incidents.AddedOutbox(db, w, prior, e, d, i);
        if d.transition == Opened {
          DecisionShape(w.ToRule(), PriorState(prior), e, CADENCE);
          assert log'.openings[|log.openings|].event == o.event;
        } else {
          assert OutboxId(o.event, o.channel, Opening) in db.outboxes;
          OlderOpening(log, log', o.event);
        }
      }
    }
  }

  lemma OlderOpening(log: Log, log': Log, e: EventId)
    requires NotifiedOpening(log, e) && log.openings <= log'.openings
    ensures NotifiedOpening(log', e)
  {
    var k :| 0 <= k < |log.openings| && log.openings[k].event == e && log.openings[k].notified;
    assert log'.openings[k].event == e;
  }

  // ---------------------------------------------------------------- every other step

  /** Steps that open nothing keep what the state remembers: resets and edits leave the cooldown
      and the last notified event alone. */
  ghost predicate Quiet(db: Db, db': Db) {
    && db'.outboxes == db.outboxes && db'.states.Keys == db.states.Keys
    && (forall r :: r in db.states ==>
          && db'.states[r].state.cooldownUntil == db.states[r].state.cooldownUntil
          && db'.states[r].state.lastNotified == db.states[r].state.lastNotified)
    && (forall e :: e in db.events ==> e in db'.events && db'.events[e].source == db.events[e].source)
  }

  lemma QuietKeeps(db: Db, log: Log, db': Db, log': Log)
    requires Table(db, log) && Quiet(db, db') && log'.openings == log.openings
    ensures Table(db', log')
  {
    forall r: nat ensures StateRemembers(db', log', r) { assert StateRemembers(db, log, r); }
    forall o | o in db'.outboxes ensures NotifiedOpening(log', o.event) { OlderOpening(log, log', o.event); }
  }

  lemma EditIsQuiet(db: Db, edit: Edit, prior: Option<StateRow>)
    requires Incidents.Seen(db, edit.id, prior) && CanEdit(db, edit, prior)
    ensures Quiet(db, AfterEdit(db, edit, prior))
  {
    var db' := AfterEdit(db, edit, prior);
    if RewritesState(edit) && prior.Some? && AdminWrites(prior.value) {
      assert db.states[edit.id] == prior.value;
      assert db'.states == db.states[edit.id := StateRow(prior.value.revision + 1, ResetState(prior.value.state))];
    }
  }

  lemma ResolveIsQuiet(db: Db, e: EventId, version: int, op: Option<StateRow>)
    requires Incidents.ClientKnows(db, ResolveReadState(e, version, op)) && CanResolve(db, e, version, op)
    ensures Quiet(db, AfterResolve(db, e, op))
  {
  }

  lemma ResolveStepIsQuiet(t: Traced, a: Action)
    requires Fencing.Invariant(t) && Enabled(t.world, a) && a.CommitResolve?
    ensures Quiet(t.world.db, NextDb(t.world, a))
  {
    var db, q := t.world.db, t.world.clients[a.c];
    assert Incidents.ClientKnows(db, q);
    if CanResolve(db, q.event, q.version, q.op) { ResolveIsQuiet(db, q.event, q.version, q.op); }
  }

  lemma EditStepIsQuiet(t: Traced, a: Action)
    requires Fencing.Invariant(t) && Enabled(t.world, a) && a.CommitEdit?
    ensures Quiet(t.world.db, NextDb(t.world, a))
  {
    var db, q := t.world.db, t.world.clients[a.c];
    assert Incidents.ClientKnows(db, q);
    if CanEdit(db, q.edit, q.prior) { EditIsQuiet(db, q.edit, q.prior); }
  }

  lemma OtherStepsLogNothing(t: Traced, a: Action)
    requires Enabled(t.world, a) && !a.Commit?
    ensures NextLog(t, a).openings == t.log.openings
  {
  }

  lemma PlainStepIsQuiet(w: World, a: Action)
    requires Enabled(w, a) && !a.Commit? && !a.CommitResolve? && !a.CommitEdit?
    ensures Quiet(w.db, NextDb(w, a))
  {
    assert NextDb(w, a).states == w.db.states && NextDb(w, a).outboxes == w.db.outboxes;
  }

  lemma OtherStepsAreQuiet(t: Traced, a: Action)
    requires Fencing.Invariant(t) && Enabled(t.world, a) && !a.Commit?
    ensures Quiet(t.world.db, NextDb(t.world, a)) && NextLog(t, a).openings == t.log.openings
  {
    OtherStepsLogNothing(t, a);
    if a.CommitResolve? {
      ResolveStepIsQuiet(t, a);
    } else if a.CommitEdit? {
      EditStepIsQuiet(t, a);
    } else {
      PlainStepIsQuiet(t.world, a);
    }
  }

  lemma StepKeepsInvariant(t: Traced, a: Action)
    requires Invariant(t) && Enabled(t.world, a)
    ensures Invariant(Step(t, a))
  {
    Fencing.StepKeepsInvariant(t, a);
    var db, log, db', log' := t.world.db, t.log, NextDb(t.world, a), NextLog(t, a);
    if !a.Commit? {
      OtherStepsAreQuiet(t, a);
      QuietKeeps(db, log, db', log');
    } else {
      var l := t.world.clients[a.c];
      assert Incidents.ClientKnows(db, l) && Fencing.ClientKnows(db, log, l);
      CommitActionKeeps(db, log, l.work, l.prior, EvaluationOf(l.work, a.quality, a.breached, a.value),
                        DecisionOf(l.work, l.prior, a.quality, a.breached, a.value), db', log');
    }
  }

  lemma CommitActionKeeps(db: Db, log: Log, w: Work, prior: Option<StateRow>, e: Evaluation, d: Decision, db': Db,
                          log': Log)
    requires Incidents.Incidents(db) && Incidents.Outboxes(db) && Table(db, log) && w.slot > 0 && w.id in db.rules
    requires CanCommit(db, w, prior, d) ==> Incidents.CommitStep(db, w, prior, e, d)
    requires db' == if CanCommit(db, w, prior, d) then AfterCommit(db, w, prior, d) else db
    requires log'.openings == log.openings + if CanCommit(db, w, prior, d) then OpeningOf(w, d) else []
    ensures Table(db', log')
  {
    if CanCommit(db, w, prior, d) {
      assert StateRemembers(db, log, w.id);
      CommitKeepsSpacing(db, log, w, prior, e, d, log');
      CommitKeepsStored(db, log, w, prior, e, d, log');
      CommitKeepsNotified(db, log, w, prior, e, d, log');
      forall r: nat ensures StateRemembers(db', log', r) {
        assert StateRemembers(db, log, r);
        CommitKeepsState(db, log, w, prior, e, d, r);
      }
    } else {
      QuietKeeps(db, log, db', log');
    }
  }

  lemma {:induction false} RunKeepsInvariant(t: Traced, actions: seq<Action>)
    requires Invariant(t) && Legal(t.world, actions)
    ensures Invariant(Run(t, actions))
    decreases |actions|
  {
    if actions != [] {
      StepKeepsInvariant(t, actions[0]);
      RunKeepsInvariant(Step(t, actions[0]), actions[1..]);
    }
  }

  // ---------------------------------------------------------------- theorems

  lemma {:induction false} LastNotifiedIsLast(openings: seq<OpeningRecord>, r: nat)
    ensures LastNotified(openings, r).None? ==>
              forall i :: 0 <= i < |openings| && openings[i].event.rule == r ==> !openings[i].notified
    ensures LastNotified(openings, r).Some? ==>
              exists i :: 0 <= i < |openings| && openings[i] == LastNotified(openings, r).value && openings[i].notified
                && openings[i].event.rule == r
                && forall j :: i < j < |openings| && openings[j].event.rule == r ==> !openings[j].notified
    decreases |openings|
  {
    if openings != [] {
      var most, last := openings[..|openings| - 1], openings[|openings| - 1];
      if last.event.rule == r && last.notified {
        assert openings[|openings| - 1] == LastNotified(openings, r).value;
      } else {
        LastNotifiedIsLast(most, r);
        if LastNotified(most, r).Some? {
          var i :| 0 <= i < |most| && most[i] == LastNotified(most, r).value && most[i].notified
              && most[i].event.rule == r
                && forall j :: i < j < |most| && most[j].event.rule == r ==> !most[j].notified;
          assert openings[i] == most[i];
          forall j | i < j < |openings| && openings[j].event.rule == r ensures !openings[j].notified {
            if j < |most| { assert most[j] == openings[j]; }
          }
        } else {
          forall i | 0 <= i < |openings| && openings[i].event.rule == r ensures !openings[i].notified {
            if i < |most| { assert most[i] == openings[i]; }
          }
        }
      }
    }
  }

  /** Spacing between neighbours gives spacing between any two notified openings. */
  lemma {:induction false} NotifiedApart(log: Log, i: nat, j: nat)
    requires OpeningsSpaced(log) && i < j < |log.openings|
    requires log.openings[i].event.rule == log.openings[j].event.rule && log.openings[i].notified
    requires log.openings[j].notified
    ensures log.openings[i].slot + log.openings[i].cooldown <= log.openings[j].slot
    decreases j
  {
    var r := log.openings[j].event.rule;
    var before := log.openings[..j];
    assert Spaced(log.openings, j);
    LastNotifiedIsLast(before, r);
    assert before[i] == log.openings[i];
    var k :| 0 <= k < |before| && before[k] == LastNotified(before, r).value && before[k].notified
        && before[k].event.rule == r
          && forall m :: k < m < |before| && before[m].event.rule == r ==> !before[m].notified;
    assert i <= k && before[k] == log.openings[k];
    if i < k { NotifiedApart(log, i, k); }
  }

  /** In every run, including across manual resolutions and rule edits, two notified openings of a
      rule are at least the first one's cooldown apart. */
  lemma CooldownIsKept(actions: seq<Action>, i: nat, j: nat)
    requires Legal(EMPTY, actions) && i < j < |Run(START, actions).log.openings|
    requires var os := Run(START, actions).log.openings;
             os[i].event.rule == os[j].event.rule && os[i].notified && os[j].notified
    ensures var os := Run(START, actions).log.openings; os[i].slot + os[i].cooldown <= os[j].slot
  {
    RunKeepsInvariant(START, actions);
    NotifiedApart(Run(START, actions).log, i, j);
  }

  /** The k-th opening was suppressed by its rule's last notified opening, whose cooldown still ran. */
  ghost predicate SuppressedBy(t: Traced, k: nat, i: nat)
    requires k < |t.log.openings|
  {
    var os := t.log.openings;
    && i < k && os[i].event.rule == os[k].event.rule && os[i].notified
    && (forall m :: i < m < k && os[m].event.rule == os[k].event.rule ==> !os[m].notified)
    && os[k].event in t.world.db.events && t.world.db.events[os[k].event].source == Some(os[i].event)
    && os[k].slot < os[i].slot + os[i].cooldown
  }

  lemma SuppressionHasASource(t: Traced, k: nat) returns (i: nat)
    requires Invariant(t) && k < |t.log.openings| && !t.log.openings[k].notified
    ensures SuppressedBy(t, k, i)
  {
    var os := t.log.openings;
    var r := os[k].event.rule;
    assert Spaced(os, k);
    LastNotifiedIsLast(os[..k], r);
    i :| 0 <= i < |os[..k]| && os[..k][i] == LastNotified(os[..k], r).value && os[..k][i].notified
        && os[..k][i].event.rule == r
         && forall m :: i < m < |os[..k]| && os[..k][m].event.rule == r ==> !os[..k][m].notified;
    assert os[i] == os[..k][i];
    forall m | i < m < k && os[m].event.rule == r ensures !os[m].notified { assert os[..k][m] == os[m]; }
  }

  lemma SuppressionIsSilent(t: Traced, k: nat)
    requires Invariant(t) && k < |t.log.openings| && !t.log.openings[k].notified
    ensures forall o :: o in t.world.db.outboxes ==> o.event != t.log.openings[k].event
  {
    var os := t.log.openings;
    forall o | o in t.world.db.outboxes ensures o.event != os[k].event {
      assert NotifiedOpening(t.log, o.event);
      var m :| 0 <= m < |os| && os[m].event == o.event && os[m].notified;
      assert m != k;
      assert m < k || k < m;
    }
  }

  /** In every run an incident that was not notified was opened inside the cooldown of the last
      notified one, names it as its source, and has no outbox, neither opening nor recovery. */
  lemma SuppressedIncidentsAreSilent(actions: seq<Action>, k: nat)
    requires Legal(EMPTY, actions) && k < |Run(START, actions).log.openings|
    requires !Run(START, actions).log.openings[k].notified
    ensures exists i :: SuppressedBy(Run(START, actions), k, i)
    ensures var t := Run(START, actions);
            forall o :: o in t.world.db.outboxes ==> o.event != t.log.openings[k].event
  {
    RunKeepsInvariant(START, actions);
    var i := SuppressionHasASource(Run(START, actions), k);
    SuppressionIsSilent(Run(START, actions), k);
  }
}
