/**
 What every interleaving of evaluators, users and rule edits keeps: one unresolved event per rule,
 named by the stored state, and notification outboxes that match their incident.
 */
module AlertIncidents {
  import opened Wrappers
  import opened AlertDecide
  import opened AlertStore

  // ---------------------------------------------------------------- invariant of the table

  /** An active state names an unresolved event of its rule and agrees with it on suppression; any
      other state names none. */
  ghost predicate StateNamesIncident(db: Db, r: nat)
    requires r in db.states
  {
    var s := db.states[r].state;
    if s.mode == Active then
      && s.activeEvent.Some? && s.activeEvent.value.rule == r && Unresolved(db, s.activeEvent.value)
      && (db.events[s.activeEvent.value].status == Suppressed <==> s.activeStatus == Some(Suppressed))
    else s.activeEvent.None? && s.openingOutboxes == map[]
  }

  ghost predicate EventIsNamed(db: Db, e: EventId) {
    Unresolved(db, e) ==>
      e.rule in db.states && db.states[e.rule].state.mode == Active && db.states[e.rule].state.activeEvent == Some(e)
  }

  ghost predicate Incidents(db: Db) {
    && (forall r :: r in db.states ==> StateNamesIncident(db, r))
    && (forall e :: e in db.events ==> EventIsNamed(db, e))
  }

  ghost predicate OutboxMatches(db: Db, o: OutboxId)
    requires o in db.outboxes
  {
    && o.event in db.events
    && (o.kind == Recovery ==>
          && db.events[o.event].status == Resolved
          && db.outboxes[o].dependsOn == Some(OutboxId(o.event, o.channel, Opening))
          && OutboxId(o.event, o.channel, Opening) in db.outboxes)
  }

  ghost predicate StateOutboxes(db: Db, r: nat)
    requires r in db.states
  {
    var s := db.states[r].state;
    s.mode == Active && s.activeEvent.Some? ==>
      && (forall c :: c in s.openingOutboxes ==>
            s.openingOutboxes[c] == OutboxId(s.activeEvent.value, c, Opening) && s.openingOutboxes[c] in db.outboxes)
      && (s.activeStatus == Some(Suppressed) ==> s.openingOutboxes == map[])
  }

  ghost predicate Outboxes(db: Db) {
    && (forall o :: o in db.outboxes ==> OutboxMatches(db, o))
    && (forall r :: r in db.states ==> StateOutboxes(db, r))
  }

  // ---------------------------------------------------------------- invariant of a caller

  /** A state row that was read is either still stored or has a smaller revision. */
  ghost predicate Seen(db: Db, r: nat, prior: Option<StateRow>) {
    prior.Some? ==>
      && r in db.states && prior.value.revision <= db.states[r].revision
      && (prior.value.revision == db.states[r].revision ==> prior.value == db.states[r])
  }

  ghost predicate ClientKnows(db: Db, c: Client) {
    match c
    case Claimed(_) => true
    case Loaded(work, prior) => Seen(db, work.id, prior) && Coherent(PriorState(prior))
    case ResolveReadEvent(e, _) => e in db.events
    case ResolveReadState(e, _, op) =>
      && e in db.events && Seen(db, e.rule, op)
      && (op.None? ==> db.events[e].status == Resolved)
      && (op.Some? ==> op.value.state.mode == Active && op.value.state.activeEvent == Some(e))
    case EditReadRule(_) => true
    case EditReadState(edit, prior) => Seen(db, edit.id, prior)
  }

  ghost predicate Invariant(w: World) {
    && Incidents(w.db) && Outboxes(w.db)
    && forall c :: c in w.clients ==> ClientKnows(w.db, w.clients[c])
  }

  /** What no step undoes: state revisions only grow, events stay, and resolved is final. */
  ghost predicate Evolves(db: Db, db': Db) {
    && (forall r :: r in db.states ==>
          r in db'.states && (db.states[r] == db'.states[r] || db.states[r].revision < db'.states[r].revision))
    && (forall e :: e in db.events ==>
          e in db'.events && (db.events[e].status == Resolved ==> db'.events[e].status == Resolved))
  }

  lemma EvolvingKeepsClients(db: Db, db': Db, c: Client)
    requires Evolves(db, db') && ClientKnows(db, c)
    ensures ClientKnows(db', c)
  {
  }

  // ---------------------------------------------------------------- the evaluator's commit

  ghost predicate CommitStep(db: Db, w: Work, prior: Option<StateRow>, e: Evaluation, d: Decision) {
    && Coherent(PriorState(prior)) && Seen(db, w.id, prior)
    && d == Decide(w.ToRule(), PriorState(prior), e, CADENCE) && e.slot == w.slot
    && CanCommit(db, w, prior, d)
  }

  /** A fenced commit decides on exactly the stored state. */
  lemma CommitSeesStoredState(db: Db, w: Work, prior: Option<StateRow>, e: Evaluation, d: Decision)
    requires CommitStep(db, w, prior, e, d)
    ensures PriorState(prior) == if w.id in db.states then db.states[w.id].state else ZERO_STATE
  {
  }

  lemma CommitEvolves(db: Db, w: Work, prior: Option<StateRow>, e: Evaluation, d: Decision)
    requires CommitStep(db, w, prior, e, d)
    ensures Evolves(db, AfterCommit(db, w, prior, d))
  {
    DecisionShape(w.ToRule(), PriorState(prior), e, CADENCE);
  }

  lemma CommitKeepsIncidents(db: Db, w: Work, prior: Option<StateRow>, e: Evaluation, d: Decision)
    requires Incidents(db) && CommitStep(db, w, prior, e, d)
    ensures Incidents(AfterCommit(db, w, prior, d))
  {
    var s := PriorState(prior);
    CommitSeesStoredState(db, w, prior, e, d);
    DecisionShape(w.ToRule(), s, e, CADENCE);
    var db' := AfterCommit(db, w, prior, d);
    assert s.mode != Active ==> s.activeEvent.None? && s.openingOutboxes == map[] by {
      if w.id in db.states { assert StateNamesIncident(db, w.id); }
    }
    assert s.mode == Active ==> w.id in db.states && StateNamesIncident(db, w.id);
    assert StateNamesIncident(db', w.id);
    forall r | r in db'.states && r != w.id ensures StateNamesIncident(db', r) {
      assert StateNamesIncident(db, r);
    }
    forall x | x in db'.events ensures EventIsNamed(db', x) {
      if x in db.events { assert EventIsNamed(db, x); }
    }
  }

  lemma {:induction false} PutOutboxesContents(outboxes: map<OutboxId, OutboxRow>, puts: seq<OutboxDecision>)
    requires forall i, j :: 0 <= i < j < |puts| ==> puts[i].id != puts[j].id
    requires forall i :: 0 <= i < |puts| ==> puts[i].id !in outboxes
    ensures var all := PutOutboxes(outboxes, puts);
            && (forall o :: o in outboxes ==> o in all && all[o] == outboxes[o])
            && (forall i :: 0 <= i < |puts| ==>
                puts[i].id in all && all[puts[i].id] == OutboxRow(puts[i].status, puts[i].dependsOn))
            && (forall o :: o in all ==> o in outboxes || exists i :: 0 <= i < |puts| && puts[i].id == o)
    decreases |puts|
  {
    if puts != [] {
      var most := puts[..|puts| - 1];
      PutOutboxesContents(outboxes, most);
      var all := PutOutboxes(outboxes, puts);
      forall i | 0 <= i < |puts|
        ensures puts[i].id in all && all[puts[i].id] == OutboxRow(puts[i].status, puts[i].dependsOn)
      {
        if i < |puts| - 1 { assert most[i] == puts[i]; }
      }
      forall o | o in all && o !in outboxes ensures exists i :: 0 <= i < |puts| && puts[i].id == o {
        if o != puts[|puts| - 1].id {
          var i :| 0 <= i < |most| && most[i].id == o;
          assert puts[i].id == o;
        }
      }
    }
  }

  lemma CommitKeepsStateOutboxes(db: Db, w: Work, prior: Option<StateRow>, e: Evaluation, d: Decision)
    requires Incidents(db) && Outboxes(db) && CommitStep(db, w, prior, e, d)
    ensures forall r :: r in AfterCommit(db, w, prior, d).states ==> StateOutboxes(AfterCommit(db, w, prior, d), r)
  {
    var s := PriorState(prior);
    CommitSeesStoredState(db, w, prior, e, d);
    DecisionShape(w.ToRule(), s, e, CADENCE);
    DecisionOutboxes(w.ToRule(), s, e, CADENCE);
    PutOutboxesContents(db.outboxes, d.outboxes);
    var db' := AfterCommit(db, w, prior, d);
    forall r | r in db'.states ensures StateOutboxes(db', r) {
      if r != w.id || d.transition == NoTransition {
        if r in db.states { assert StateOutboxes(db, r); }
      } else if d.transition == Opened {
        OpeningStoresOutboxes(w.ToRule(), s, e, d, db.outboxes);
      }
    }
  }

  lemma OpeningStoresOutboxes(rule: Rule, s: State, e: Evaluation, d: Decision, outboxes: map<OutboxId, OutboxRow>)
    requires Coherent(s) && d == Decide(rule, s, e, CADENCE) && d.transition == Opened
    requires forall i, j :: 0 <= i < j < |d.outboxes| ==> d.outboxes[i].id != d.outboxes[j].id
    requires forall i :: 0 <= i < |d.outboxes| ==> d.outboxes[i].id !in outboxes
    ensures forall c :: c in d.next.openingOutboxes ==> d.next.openingOutboxes[c] in PutOutboxes(outboxes, d.outboxes)
  {
    DecisionShape(rule, s, e, CADENCE);
    DecisionOutboxes(rule, s, e, CADENCE);
    PutOutboxesContents(outboxes, d.outboxes);
    forall c | c in d.next.openingOutboxes ensures d.next.openingOutboxes[c] in PutOutboxes(outboxes, d.outboxes) {
      var i :| 0 <= i < |rule.channels| && rule.channels[i] == c;
      assert d.outboxes[i].id == OutboxId(d.event.value, c, Opening);
    }
  }

  /** Each outbox a commit adds is an opening of the event it creates, or a recovery of the event
      it resolves that depends on that event's stored opening. */
  lemma AddedOutbox(db: Db, w: Work, prior: Option<StateRow>, e: Evaluation, d: Decision, i: nat)
    requires Incidents(db) && Outboxes(db) && CommitStep(db, w, prior, e, d) && i < |d.outboxes|
    ensures d.transition == Opened || d.transition == Recovered
    ensures d.transition == Opened ==> d.outboxes[i].id.kind == Opening && d.outboxes[i].id.event == d.event.value
    ensures d.transition == Recovered ==>
              var o := d.outboxes[i];
              && o.id.kind == Recovery && o.id.event == d.resolved.value
              && o.dependsOn == Some(OutboxId(o.id.event, o.id.channel, Opening)) && o.dependsOn.value in db.outboxes
  {
    var s := PriorState(prior);
    DecisionShape(w.ToRule(), s, e, CADENCE);
    DecisionOutboxes(w.ToRule(), s, e, CADENCE);
    if d.transition == Recovered {
      CommitSeesStoredState(db, w, prior, e, d);
      assert StateOutboxes(db, w.id) && SortedChannels(s.openingOutboxes)[i] in s.openingOutboxes;
    }
  }

  lemma CommitKeepsOutboxes(db: Db, w: Work, prior: Option<StateRow>, e: Evaluation, d: Decision)
    requires Incidents(db) && Outboxes(db) && CommitStep(db, w, prior, e, d)
    ensures Outboxes(AfterCommit(db, w, prior, d))
  {
    CommitEvolves(db, w, prior, e, d);
    PutOutboxesContents(db.outboxes, d.outboxes);
    var db' := AfterCommit(db, w, prior, d);
    forall o | o in db'.outboxes ensures OutboxMatches(db', o) {
      if o in db.outboxes {
        assert OutboxMatches(db, o);
      } else {
        var i :| 0 <= i < |d.outboxes| && d.outboxes[i].id == o;
        AddedOutbox(db, w, prior, e, d, i);
        assert d.transition == Opened ==> d.event.value in db'.events by {
          DecisionShape(w.ToRule(), PriorState(prior), e, CADENCE);
        }
      }
    }
    CommitKeepsStateOutboxes(db, w, prior, e, d);
  }

  // ---------------------------------------------------------------- acknowledge, resolve, edit

  lemma AcknowledgeKeeps(db: Db, e: EventId, version: int)
    requires Incidents(db) && Outboxes(db) && CanAcknowledge(db, e, version)
    ensures var db' := AfterAcknowledge(db, e); Incidents(db') && Outboxes(db') && Evolves(db, db')
  {
    var db' := AfterAcknowledge(db, e);
    forall r | r in db'.states ensures StateNamesIncident(db', r) && StateOutboxes(db', r) {
      assert StateNamesIncident(db, r) && StateOutboxes(db, r);
    }
    forall x | x in db'.events ensures EventIsNamed(db', x) { assert EventIsNamed(db, x); }
    forall o | o in db'.outboxes ensures OutboxMatches(db', o) { assert OutboxMatches(db, o); }
  }

  /** Closing the incident of one rule: its event resolved and its state reset, together. */
  ghost predicate Closes(db: Db, db': Db, r: nat, e: EventId) {
    && r in db.states && db.states[r].state.mode == Active && db.states[r].state.activeEvent == Some(e)
    && Unresolved(db, e)
    && db'.outboxes == db.outboxes
    && db'.events == db.events[e := ResolvedEvent(db.events[e])]
    && db'.states == db.states[r := StateRow(db.states[r].revision + 1, ResetState(db.states[r].state))]
  }

  lemma ClosingKeeps(db: Db, db': Db, r: nat, e: EventId)
    requires Incidents(db) && Outboxes(db) && Closes(db, db', r, e)
    ensures Incidents(db') && Outboxes(db') && Evolves(db, db')
  {
    assert StateNamesIncident(db, r);
    forall x | x in db'.states ensures StateNamesIncident(db', x) && StateOutboxes(db', x) {
      assert StateNamesIncident(db, x) && StateOutboxes(db, x);
    }
    forall x | x in db'.events ensures EventIsNamed(db', x) { assert EventIsNamed(db, x); }
    forall o | o in db'.outboxes ensures OutboxMatches(db', o) { assert OutboxMatches(db, o); }
  }

  /** A resolution that writes no state never takes effect: the state it read did not name the
      event, so the event was already resolved by then, and resolved is final. */
  lemma ResolveKeeps(db: Db, e: EventId, version: int, op: Option<StateRow>)
    requires Incidents(db) && Outboxes(db) && ClientKnows(db, ResolveReadState(e, version, op))
    requires CanResolve(db, e, version, op)
    ensures op.Some?
    ensures var db' := AfterResolve(db, e, op); Incidents(db') && Outboxes(db') && Evolves(db, db')
  {
    ClosingKeeps(db, AfterResolve(db, e, op), e.rule, e);
  }

  lemma ReadStateKnows(db: Db, e: EventId, version: int)
    requires Incidents(db) && e in db.events
    ensures ClientKnows(db, ResolveReadState(e, version, StateToResolve(db, e)))
  {
    assert EventIsNamed(db, e);
  }

  /** Replacing a pending state by its reset form touches no incident. */
  lemma ResettingKeeps(db: Db, db': Db, r: nat)
    requires Incidents(db) && Outboxes(db) && r in db.states && db.states[r].state.mode == Pending
    requires db'.events == db.events && db'.outboxes == db.outboxes
    requires db'.states == db.states[r := StateRow(db.states[r].revision + 1, ResetState(db.states[r].state))]
    ensures Incidents(db') && Outboxes(db') && Evolves(db, db')
  {
    assert StateNamesIncident(db, r);
    forall x | x in db'.states ensures StateNamesIncident(db', x) && StateOutboxes(db', x) {
      assert StateNamesIncident(db, x) && StateOutboxes(db, x);
    }
    forall x | x in db'.events ensures EventIsNamed(db', x) { assert EventIsNamed(db, x); }
    forall o | o in db'.outboxes ensures OutboxMatches(db', o) { assert OutboxMatches(db, o); }
  }

  lemma SameRowsKeep(db: Db, db': Db)
    requires Incidents(db) && Outboxes(db)
    requires db'.states == db.states && db'.events == db.events && db'.outboxes == db.outboxes
    ensures Incidents(db') && Outboxes(db') && Evolves(db, db')
  {
    forall x | x in db'.states ensures StateNamesIncident(db', x) && StateOutboxes(db', x) {
      assert StateNamesIncident(db, x) && StateOutboxes(db, x);
    }
    forall x | x in db'.events ensures EventIsNamed(db', x) { assert EventIsNamed(db, x); }
    forall o | o in db'.outboxes ensures OutboxMatches(db', o) { assert OutboxMatches(db, o); }
  }

  lemma AdminKeeps(db: Db, r: nat, prior: Option<StateRow>, seenRevision: int)
    requires Incidents(db) && Outboxes(db) && Seen(db, r, prior) && AdminHolds(db, r, prior, seenRevision)
    ensures var db' := AfterAdmin(db, r, prior); Incidents(db') && Outboxes(db') && Evolves(db, db')
  {
    var db' := AfterAdmin(db, r, prior);
    if prior.None? || !AdminWrites(prior.value) {
    } else if prior.value.state.mode == Pending {
      ResettingKeeps(db, db', r);
    } else {
      ClosingKeeps(db, db', r, prior.value.state.activeEvent.value);
    }
  }

  lemma EditKeeps(db: Db, edit: Edit, prior: Option<StateRow>)
    requires Incidents(db) && Outboxes(db) && Seen(db, edit.id, prior) && CanEdit(db, edit, prior)
    ensures var db' := AfterEdit(db, edit, prior); Incidents(db') && Outboxes(db') && Evolves(db, db')
  {
    var next := if RewritesState(edit) then AfterAdmin(db, edit.id, prior) else db;
    if RewritesState(edit) { AdminKeeps(db, edit.id, prior, edit.seenRevision); }
    SameRowsKeep(next, AfterEdit(db, edit, prior));
  }

  lemma IndexKeeps(db: Db, e: EventId)
    requires Incidents(db) && Outboxes(db) && e in db.events
    ensures var db' := db.(events := db.events[e := db.events[e].(indexed := true)]);
            Incidents(db') && Outboxes(db') && Evolves(db, db')
  {
    var db' := db.(events := db.events[e := db.events[e].(indexed := true)]);
    forall x | x in db'.states ensures StateNamesIncident(db', x) && StateOutboxes(db', x) {
      assert StateNamesIncident(db, x) && StateOutboxes(db, x);
    }
    forall x | x in db'.events ensures EventIsNamed(db', x) { assert EventIsNamed(db, x); }
    forall o | o in db'.outboxes ensures OutboxMatches(db', o) { assert OutboxMatches(db, o); }
  }

  // ---------------------------------------------------------------- every step

  lemma StepKeepsTable(w: World, a: Action)
    requires Invariant(w) && Enabled(w, a)
    ensures var db' := NextDb(w, a); Incidents(db') && Outboxes(db') && Evolves(w.db, db')
  {
    var db, db' := w.db, NextDb(w, a);
    if db' == db || a.CreateRule? || a.Reschedule? || a.Claim? {
      SameRowsKeep(db, db');
    } else if a.Commit? {
      var l := w.clients[a.c];
      var e := EvaluationOf(l.work, a.quality, a.breached, a.value);
      var d := DecisionOf(l.work, l.prior, a.quality, a.breached, a.value);
      CommitKeepsIncidents(db, l.work, l.prior, e, d);
      CommitKeepsOutboxes(db, l.work, l.prior, e, d);
      CommitEvolves(db, l.work, l.prior, e, d);
    } else if a.Acknowledge? {
      AcknowledgeKeeps(db, a.e, a.version);
    } else if a.CommitResolve? {
      ResolveKeeps(db, w.clients[a.c].event, w.clients[a.c].version, w.clients[a.c].op);
    } else if a.CommitEdit? {
      EditKeeps(db, w.clients[a.c].edit, w.clients[a.c].prior);
    } else if a.IndexEvent? {
      IndexKeeps(db, a.e);
    }
  }

  lemma LoadedStateIsCoherent(db: Db, r: nat)
    requires Incidents(db)
    ensures Coherent(PriorState(StateOf(db, r)))
  {
    if r in db.states { assert StateNamesIncident(db, r); }
  }

  lemma StepKeepsInvariant(w: World, a: Action)
    requires Invariant(w) && Enabled(w, a)
    ensures Invariant(Apply(w, a)) && Evolves(w.db, Apply(w, a).db)
  {
    StepKeepsTable(w, a);
    var db', clients' := NextDb(w, a), NextClients(w, a);
    forall c | c in clients' ensures ClientKnows(db', clients'[c]) {
      if c in w.clients && clients'[c] == w.clients[c] {
        EvolvingKeepsClients(w.db, db', w.clients[c]);
      } else {
        NewClientKnows(w, a, c);
      }
    }
  }

  /** A step that reads changes no row, and what it read is what is stored. */
  lemma NewClientKnows(w: World, a: Action, c: nat)
    requires Invariant(w) && Enabled(w, a) && c in NextClients(w, a)
    requires !(c in w.clients && NextClients(w, a)[c] == w.clients[c])
    ensures ClientKnows(NextDb(w, a), NextClients(w, a)[c])
  {
    if a.LoadState? {
      LoadedStateIsCoherent(w.db, w.clients[c].work.id);
    } else if a.ReadState? {
      assert ClientKnows(w.db, w.clients[c]);
      ReadStateKnows(w.db, w.clients[c].event, w.clients[c].version);
    }
  }

  lemma {:induction false} RunKeepsInvariant(w: World, actions: seq<Action>)
    requires Invariant(w) && Legal(w, actions)
    ensures Invariant(Exec(w, actions)) && Evolves(w.db, Exec(w, actions).db)
    decreases |actions|
  {
    if actions != [] {
      StepKeepsInvariant(w, actions[0]);
      RunKeepsInvariant(Apply(w, actions[0]), actions[1..]);
    }
  }

  // ---------------------------------------------------------------- theorems

  /** In every run: a rule has at most one unresolved event; the stored state is active exactly when
      that event exists, names it, and says suppressed exactly when the event does. */
  lemma OneIncidentPerRule(actions: seq<Action>, r: nat, e: EventId)
    requires Legal(EMPTY, actions) && e.rule == r
    ensures var db := Exec(EMPTY, actions).db;
            && (Unresolved(db, e) <==>
                  r in db.states && db.states[r].state.mode == Active && db.states[r].state.activeEvent == Some(e))
            && (forall other: EventId :: Unresolved(db, e) && Unresolved(db, other) && other.rule == r ==> other == e)
            && (Unresolved(db, e) ==>
                  (db.events[e].status == Suppressed <==> db.states[r].state.activeStatus == Some(Suppressed)))
            && (r in db.states && db.states[r].state.mode == Active ==>
                  db.states[r].state.activeEvent.Some? && Unresolved(db, db.states[r].state.activeEvent.value))
  {
    RunKeepsInvariant(EMPTY, actions);
    var db := Exec(EMPTY, actions).db;
    if r in db.states { assert StateNamesIncident(db, r); }
    forall x | x in db.events ensures EventIsNamed(db, x) {}
  }

  /** In every run: each event and channel has at most one opening and one recovery outbox by
      identity, a recovery outbox exists only for a resolved event, and it depends on an opening
      outbox of the same event and channel that is already stored. */
  lemma RecoveryFollowsOpening(actions: seq<Action>, o: OutboxId)
    requires Legal(EMPTY, actions) && o in Exec(EMPTY, actions).db.outboxes
    ensures var db := Exec(EMPTY, actions).db;
            && o.event in db.events
            && (o.kind == Recovery ==>
                  && db.events[o.event].status == Resolved
                  && db.outboxes[o].dependsOn == Some(OutboxId(o.event, o.channel, Opening))
                  && OutboxId(o.event, o.channel, Opening) in db.outboxes)
  {
    RunKeepsInvariant(EMPTY, actions);
    assert OutboxMatches(Exec(EMPTY, actions).db, o);
  }

  /** A manual resolution whose state read did not match is always refused at commit. */
  lemma UnmatchedResolveIsRefused(actions: seq<Action>, c: nat)
    requires Legal(EMPTY, actions)
    requires var w := Exec(EMPTY, actions); c in w.clients && w.clients[c].ResolveReadState? && w.clients[c].op.None?
    ensures var w := Exec(EMPTY, actions); !CanResolve(w.db, w.clients[c].event, w.clients[c].version, None)
  {
    RunKeepsInvariant(EMPTY, actions);
    assert ClientKnows(Exec(EMPTY, actions).db, Exec(EMPTY, actions).clients[c]);
  }
}
