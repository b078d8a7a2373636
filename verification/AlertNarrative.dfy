/**
 The whole-history law of `Decide`, carried through the store: in every run, with claims, commits,
 resolutions and edits of any rules interleaved, the stored state of a rule summarises exactly the
 evaluations committed for it and the resets it went through.
 */
module AlertNarrative {
  import opened Wrappers
  import opened AlertDecide
  import opened AlertStore
  import opened AlertHistory
  import Incidents = AlertIncidents
  import Cooldown = AlertCooldown

  /** A committed evaluation, with the slots its rule required at the time, or a reset. */
  datatype Entry = Evaluated(e: Evaluation, required: int) | WasReset

  type Narrative = map<nat, seq<Entry>>

  function StoryOf(n: Narrative, r: nat): seq<Entry> { if r in n then n[r] else [] }

  function Told(n: Narrative, r: nat, x: Entry): Narrative { n[r := StoryOf(n, r) + [x]] }

  function NextNarrative(w: World, n: Narrative, a: Action): Narrative
    requires Enabled(w, a)
  {
    match a
    case Commit(c, quality, breached, value) =>
      var l := w.clients[c];
      var d := DecisionOf(l.work, l.prior, quality, breached, value);
      if CanCommit(w.db, l.work, l.prior, d)
      then Told(n, l.work.id,
                Evaluated(EvaluationOf(l.work, quality, breached, value), RequiredSlots(l.work.duration, CADENCE)))
      else n
    case CommitResolve(c) =>
      var q := w.clients[c];
      if CanResolve(w.db, q.event, q.version, q.op) && q.op.Some? then Told(n, q.event.rule, WasReset) else n
    case CommitEdit(c) =>
      var q := w.clients[c];
      if CanEdit(w.db, q.edit, q.prior) && RewritesState(q.edit) then Told(n, q.edit.id, WasReset) else n
    case _ => n
  }

  function NarrativeOf(w: World, n: Narrative, actions: seq<Action>): Narrative
    requires Legal(w, actions)
    decreases |actions|
  {
    if actions == [] then n else NarrativeOf(Apply(w, actions[0]), NextNarrative(w, n, actions[0]), actions[1..])
  }

  // ---------------------------------------------------------------- the specification

  function ItemOf(x: Entry): Item {
    match x case Evaluated(e, _) => Evaluate(e) case WasReset => Reset
  }

  function Items(story: seq<Entry>): (items: seq<Item>)
    ensures |items| == |story|
  {
    seq(|story|, i requires 0 <= i < |story| => ItemOf(story[i]))
  }

  /** Whether the story leaves an incident open: a confirmed run opened one, and no determinate
      non-breach and no reset has come since. */
  ghost predicate StoryActive(story: seq<Entry>) {
    if story == [] then false
    else
      var before := StoryActive(story[..|story| - 1]);
      match story[|story| - 1]
      case WasReset => false
      case Evaluated(e, required) =>
        if !e.IsDeterminate() then before
        else e.breached && (before || EndsInRun(Relevant(Items(story)), required, CADENCE))
  }

  lemma ItemsSnoc(story: seq<Entry>, x: Entry)
    ensures Items(story + [x]) == Items(story) + [ItemOf(x)]
    ensures Relevant(Items(story + [x])) == Relevant(Items(story)) + (if Silent(ItemOf(x)) then [] else [ItemOf(x)])
  {
    assert Items(story + [x]) == Items(story) + [ItemOf(x)];
    RelevantSnoc(Items(story), ItemOf(x));
  }

  lemma ActiveSnoc(story: seq<Entry>, x: Entry)
    ensures StoryActive(story + [x]) <==>
              if x.WasReset? then false
              else if !x.e.IsDeterminate() then StoryActive(story)
              else x.e.breached && (StoryActive(story) || EndsInRun(Relevant(Items(story + [x])), x.required, CADENCE))
  {
    assert (story + [x])[..|story + [x]| - 1] == story;
  }

  /** How a state sums up a story. */
  ghost predicate SumsUp(story: seq<Entry>, s: State) {
    && Summarises(Relevant(Items(story)), StoryActive(story), CADENCE, s)
    && (s.mode == Pending ==> s.lastBreachSlot != 0)
  }

  lemma EmptyStory()
    ensures SumsUp([], ZERO_STATE)
  {
    assert Items([]) == [];
  }

  lemma ResetSumsUp(story: seq<Entry>, s: State)
    requires SumsUp(story, s)
    ensures SumsUp(story + [WasReset], ResetState(s))
  {
    ItemsSnoc(story, WasReset);
    ActiveSnoc(story, WasReset);
  }

  /** One evaluation, with the required slots of its own time. */
  lemma EvaluationSumsUp(rule: Rule, story: seq<Entry>, s: State, e: Evaluation)
    requires Coherent(s) && SumsUp(story, s) && e.slot > 0
    ensures var x := Evaluated(e, RequiredSlots(rule.duration, CADENCE));
            var d := Decide(rule, s, e, CADENCE);
            && SumsUp(story + [x], d.next)
            && (d.Opens() <==>
                  && Breach(Evaluate(e)) && !StoryActive(story)
                  && EndsInRun(Relevant(Items(story + [x])), RequiredSlots(rule.duration, CADENCE), CADENCE))
  {
    var x := Evaluated(e, RequiredSlots(rule.duration, CADENCE));
    ItemsSnoc(story, x);
    ActiveSnoc(story, x);
    if Breach(Evaluate(e)) && s.mode != Active {
      BreachSummarises(rule, CADENCE, Relevant(Items(story)), s, e);
      DecideOnBreach(rule, CADENCE, s, e);
    } else {
      QuietSummarises(rule, CADENCE, Relevant(Items(story)), StoryActive(story), s, e);
      QuietKeepsBreachSlot(rule, s, e);
    }
  }

  lemma QuietKeepsBreachSlot(rule: Rule, s: State, e: Evaluation)
    requires Coherent(s) && (s.mode == Active || !Breach(Evaluate(e)))
    ensures var next := Decide(rule, s, e, CADENCE).next;
            next.mode == Pending ==> s.mode == Pending && next.lastBreachSlot == s.lastBreachSlot
  {
  }

  // ---------------------------------------------------------------- every run

  function StateAt(db: Db, r: nat): State { PriorState(StateOf(db, r)) }

  ghost predicate StoriesHold(db: Db, n: Narrative) { forall r: nat :: SumsUp(StoryOf(n, r), StateAt(db, r)) }

  ghost predicate SlotsPositive(w: World) {
    forall c :: c in w.clients && (w.clients[c].Claimed? || w.clients[c].Loaded?) ==> w.clients[c].work.slot > 0
  }

  ghost predicate Invariant(w: World, n: Narrative) {
    Incidents.Invariant(w) && SlotsPositive(w) && StoriesHold(w.db, n)
  }

  lemma SlotsStayPositive(w: World, a: Action)
    requires SlotsPositive(w) && Enabled(w, a)
    ensures SlotsPositive(Apply(w, a))
  {
  }

  /** A step that changes the state of one rule and tells one entry about it. */
  lemma OneStoryGoesOn(db: Db, n: Narrative, r: nat, x: Entry, db': Db)
    requires StoriesHold(db, n) && SumsUp(StoryOf(n, r) + [x], StateAt(db', r))
    requires forall q: nat :: q != r ==> StateOf(db', q) == StateOf(db, q)
    ensures StoriesHold(db', Told(n, r, x))
  {
    forall q: nat ensures SumsUp(StoryOf(Told(n, r, x), q), StateAt(db', q)) {
      assert SumsUp(StoryOf(n, q), StateAt(db, q));
    }
  }

  lemma CommitGoesOn(w: World, n: Narrative, a: Action)
    requires Invariant(w, n) && Enabled(w, a) && a.Commit?
    ensures StoriesHold(NextDb(w, a), NextNarrative(w, n, a))
  {
    var l := w.clients[a.c];
    var e := EvaluationOf(l.work, a.quality, a.breached, a.value);
    var d := DecisionOf(l.work, l.prior, a.quality, a.breached, a.value);
    assert Incidents.ClientKnows(w.db, l);
    if CanCommit(w.db, l.work, l.prior, d) {
      Incidents.CommitSeesStoredState(w.db, l.work, l.prior, e, d);
      assert SumsUp(StoryOf(n, l.work.id), StateAt(w.db, l.work.id));
      EvaluationSumsUp(l.work.ToRule(), StoryOf(n, l.work.id), PriorState(l.prior), e);
      OneStoryGoesOn(w.db, n, l.work.id, Evaluated(e, RequiredSlots(l.work.duration, CADENCE)), NextDb(w, a));
    }
  }

  lemma ResolveGoesOn(w: World, n: Narrative, a: Action)
    requires Invariant(w, n) && Enabled(w, a) && a.CommitResolve?
    ensures StoriesHold(NextDb(w, a), NextNarrative(w, n, a))
  {
    var q := w.clients[a.c];
    assert Incidents.ClientKnows(w.db, q);
    if CanResolve(w.db, q.event, q.version, q.op) && q.op.Some? {
      assert SumsUp(StoryOf(n, q.event.rule), StateAt(w.db, q.event.rule));
      ResetSumsUp(StoryOf(n, q.event.rule), StateAt(w.db, q.event.rule));
      OneStoryGoesOn(w.db, n, q.event.rule, WasReset, NextDb(w, a));
    }
  }

  /** What an edit that rewrites the state leaves behind for every rule. */
  lemma EditResets(db: Db, edit: Edit, prior: Option<StateRow>)
    requires Incidents.Incidents(db) && Incidents.Seen(db, edit.id, prior) && CanEdit(db, edit, prior)
    requires RewritesState(edit)
    ensures StateAt(AfterEdit(db, edit, prior), edit.id) == ResetState(StateAt(db, edit.id))
    ensures forall q: nat :: q != edit.id ==> StateOf(AfterEdit(db, edit, prior), q) == StateOf(db, q)
  {
    if edit.id in db.states { assert Incidents.StateNamesIncident(db, edit.id); }
  }

  lemma EditGoesOn(w: World, n: Narrative, a: Action)
    requires Invariant(w, n) && Enabled(w, a) && a.CommitEdit?
    ensures StoriesHold(NextDb(w, a), NextNarrative(w, n, a))
  {
    var q := w.clients[a.c];
    assert Incidents.ClientKnows(w.db, q);
    if CanEdit(w.db, q.edit, q.prior) {
      EditTold(w.db, n, q.edit, q.prior);
    }
  }

  lemma EditTold(db: Db, n: Narrative, edit: Edit, prior: Option<StateRow>)
    requires StoriesHold(db, n) && Incidents.Incidents(db) && Incidents.Seen(db, edit.id, prior)
    requires CanEdit(db, edit, prior)
    ensures StoriesHold(AfterEdit(db, edit, prior), if RewritesState(edit) then Told(n, edit.id, WasReset) else n)
  {
    assert SumsUp(StoryOf(n, edit.id), StateAt(db, edit.id));
    if RewritesState(edit) {
      EditResets(db, edit, prior);
      ResetSumsUp(StoryOf(n, edit.id), StateAt(db, edit.id));
      OneStoryGoesOn(db, n, edit.id, WasReset, AfterEdit(db, edit, prior));
    } else {
      SameStatesSameStories(db, AfterEdit(db, edit, prior), n);
    }
  }

  lemma SameStatesSameStories(db: Db, db': Db, n: Narrative)
    requires StoriesHold(db, n) && db'.states == db.states
    ensures StoriesHold(db', n)
  {
    forall r: nat ensures SumsUp(StoryOf(n, r), StateAt(db', r)) {
      assert SumsUp(StoryOf(n, r), StateAt(db, r));
    }
  }

  lemma StepGoesOn(w: World, n: Narrative, a: Action)
    requires Invariant(w, n) && Enabled(w, a)
    ensures Invariant(Apply(w, a), NextNarrative(w, n, a))
  {
    Incidents.StepKeepsInvariant(w, a);
    SlotsStayPositive(w, a);
    if a.Commit? {
      CommitGoesOn(w, n, a);
    } else if a.CommitResolve? {
      ResolveGoesOn(w, n, a);
    } else if a.CommitEdit? {
      EditGoesOn(w, n, a);
    } else {
      OtherStepsTellNothing(w, n, a);
    }
  }

  lemma OtherStepsTellNothing(w: World, n: Narrative, a: Action)
    requires StoriesHold(w.db, n) && Enabled(w, a) && !a.Commit? && !a.CommitResolve? && !a.CommitEdit?
    ensures StoriesHold(NextDb(w, a), NextNarrative(w, n, a))
  {
    SameStatesSameStories(w.db, NextDb(w, a), n);
  }

  lemma {:induction false} RunGoesOn(w: World, n: Narrative, actions: seq<Action>)
    requires Invariant(w, n) && Legal(w, actions)
    ensures Invariant(Exec(w, actions), NarrativeOf(w, n, actions))
    decreases |actions|
  {
    if actions != [] {
      StepGoesOn(w, n, actions[0]);
      RunGoesOn(Apply(w, actions[0]), NextNarrative(w, n, actions[0]), actions[1..]);
    }
  }

  lemma EmptyIsTold()
    ensures Invariant(EMPTY, map[])
  {
    EmptyStory();
  }

  // ---------------------------------------------------------------- theorems

  /** In every run the stored state of every rule sums up the evaluations committed for it and its
      resets: it is active exactly when they leave an incident open, and a pending counter is the longest
      run of breaches they end in. */
  lemma StoredStateSumsUpItsStory(actions: seq<Action>, r: nat)
    requires Legal(EMPTY, actions)
    ensures SumsUp(StoryOf(NarrativeOf(EMPTY, map[], actions), r), StateAt(Exec(EMPTY, actions).db, r))
  {
    EmptyIsTold();
    RunGoesOn(EMPTY, map[], actions);
  }

  /** In every run a commit that takes effect opens an incident if and only if the rule's story has none
      open and, with this evaluation, ends in the run of breaches the rule requires. */
  lemma CommitOpensExactlyWhenConfirmed(actions: seq<Action>, c: nat, quality: Quality, breached: bool,
                                        value: Option<real>)
    requires Legal(EMPTY, actions)
    requires var w := Exec(EMPTY, actions);
             c in w.clients && w.clients[c].Loaded? && Coherent(PriorState(w.clients[c].prior))
    requires var w := Exec(EMPTY, actions); var l := w.clients[c];
             CanCommit(w.db, l.work, l.prior, DecisionOf(l.work, l.prior, quality, breached, value))
    ensures var l := Exec(EMPTY, actions).clients[c];
            var story := StoryOf(NarrativeOf(EMPTY, map[], actions), l.work.id);
            var e := EvaluationOf(l.work, quality, breached, value);
            var required := RequiredSlots(l.work.duration, CADENCE);
            (DecisionOf(l.work, l.prior, quality, breached, value).Opens() <==>
               && Breach(Evaluate(e)) && !StoryActive(story)
               && EndsInRun(Relevant(Items(story + [Evaluated(e, required)])), required, CADENCE))
  {
    EmptyIsTold();
    RunGoesOn(EMPTY, map[], actions);
    OpensExactly(Exec(EMPTY, actions), NarrativeOf(EMPTY, map[], actions), c, quality, breached, value);
  }

  lemma OpensExactly(w: World, n: Narrative, c: nat, quality: Quality, breached: bool, value: Option<real>)
    requires Invariant(w, n) && c in w.clients && w.clients[c].Loaded? && Coherent(PriorState(w.clients[c].prior))
    requires var l := w.clients[c];
             CanCommit(w.db, l.work, l.prior, DecisionOf(l.work, l.prior, quality, breached, value))
    ensures var l := w.clients[c];
            var story := StoryOf(n, l.work.id);
            var e := EvaluationOf(l.work, quality, breached, value);
            var required := RequiredSlots(l.work.duration, CADENCE);
            (DecisionOf(l.work, l.prior, quality, breached, value).Opens() <==>
               && Breach(Evaluate(e)) && !StoryActive(story)
               && EndsInRun(Relevant(Items(story + [Evaluated(e, required)])), required, CADENCE))
  {
    var l := w.clients[c];
    var e := EvaluationOf(l.work, quality, breached, value);
    assert Incidents.ClientKnows(w.db, l);
    Incidents.CommitSeesStoredState(w.db, l.work, l.prior, e, DecisionOf(l.work, l.prior, quality, breached, value));
    assert SumsUp(StoryOf(n, l.work.id), StateAt(w.db, l.work.id));
    EvaluationSumsUp(l.work.ToRule(), StoryOf(n, l.work.id), PriorState(l.prior), e);
  }

  /** In every run the story of a rule leaves an incident open exactly when the rule has an unresolved
      event. */
  lemma StoryActiveMeansUnresolved(actions: seq<Action>, r: nat)
    requires Legal(EMPTY, actions)
    ensures StoryActive(StoryOf(NarrativeOf(EMPTY, map[], actions), r)) <==>
              exists e: EventId :: e.rule == r && Unresolved(Exec(EMPTY, actions).db, e)
  {
    StoredStateSumsUpItsStory(actions, r);
    var db := Exec(EMPTY, actions).db;
    if StoryActive(StoryOf(NarrativeOf(EMPTY, map[], actions), r)) {
      Incidents.OneIncidentPerRule(actions, r, EventId(r, 0, 0, 0));
      var e := db.states[r].state.activeEvent.value;
      EmptyIsTold();
      RunGoesOn(EMPTY, map[], actions);
      assert Incidents.StateNamesIncident(db, r);
    } else {
      forall e: EventId | e.rule == r ensures !Unresolved(db, e) {
        Incidents.OneIncidentPerRule(actions, r, e);
      }
    }
  }

  // ---------------------------------------------------------------- openings on record

  /** Every opening but the newest of its rule is resolved. */
  ghost predicate EarlierResolved(db: Db, openings: seq<OpeningRecord>) {
    forall i, j :: 0 <= i < j < |openings| && openings[i].event.rule == openings[j].event.rule ==>
      openings[i].event in db.events && db.events[openings[i].event].status == Resolved
  }

  ghost predicate OpeningsStored(db: Db, openings: seq<OpeningRecord>) {
    forall i :: 0 <= i < |openings| ==> openings[i].event in db.events
  }

  ghost predicate OpeningsOk(t: Traced) {
    Incidents.Invariant(t.world) && OpeningsStored(t.world.db, t.log.openings)
    && EarlierResolved(t.world.db, t.log.openings)
  }

  lemma OpeningCommitResolvesTheRest(db: Db, w: Work, prior: Option<StateRow>, e: Evaluation, d: Decision,
                                     openings: seq<OpeningRecord>)
    requires Incidents.Incidents(db) && Incidents.CommitStep(db, w, prior, e, d)
    requires OpeningsStored(db, openings) && EarlierResolved(db, openings)
    ensures var db' := AfterCommit(db, w, prior, d);
            OpeningsStored(db', openings + OpeningOf(w, d)) && EarlierResolved(db', openings + OpeningOf(w, d))
  {
    Incidents.CommitSeesStoredState(db, w, prior, e, d);
    DecisionShape(w.ToRule(), PriorState(prior), e, CADENCE);
    Incidents.CommitEvolves(db, w, prior, e, d);
    forall i | 0 <= i < |openings| && d.Opens() && openings[i].event.rule == w.id
      ensures db.events[openings[i].event].status == Resolved
    {
      assert Incidents.EventIsNamed(db, openings[i].event);
    }
  }

  lemma StepKeepsOpenings(t: Traced, a: Action)
    requires OpeningsOk(t) && Enabled(t.world, a)
    ensures OpeningsOk(Step(t, a))
  {
    Incidents.StepKeepsInvariant(t.world, a);
    if a.Commit? {
      var l := t.world.clients[a.c];
      var d := DecisionOf(l.work, l.prior, a.quality, a.breached, a.value);
      assert Incidents.ClientKnows(t.world.db, l);
      if CanCommit(t.world.db, l.work, l.prior, d) {
        OpeningCommitResolvesTheRest(t.world.db, l.work, l.prior, EvaluationOf(l.work, a.quality, a.breached, a.value),
                                     d, t.log.openings);
      }
    } else {
      Cooldown.OtherStepsLogNothing(t, a);
    }
  }

  lemma {:induction false} RunKeepsOpenings(t: Traced, actions: seq<Action>)
    requires OpeningsOk(t) && Legal(t.world, actions)
    ensures OpeningsOk(Run(t, actions))
    decreases |actions|
  {
    if actions != [] {
      StepKeepsOpenings(t, actions[0]);
      RunKeepsOpenings(Step(t, actions[0]), actions[1..]);
    }
  }

  /** In every run, an opening on record that is not resolved is the newest of its rule, and it is the
      incident the stored state is active for. */
  lemma UnresolvedOpeningIsNewest(actions: seq<Action>, i: nat)
    requires Legal(EMPTY, actions) && i < |Run(START, actions).log.openings|
    requires Unresolved(Run(START, actions).world.db, Run(START, actions).log.openings[i].event)
    ensures var t := Run(START, actions); var e := t.log.openings[i].event;
            && (forall j :: i < j < |t.log.openings| ==> t.log.openings[j].event.rule != e.rule)
            && e.rule in t.world.db.states && t.world.db.states[e.rule].state.mode == Active
            && t.world.db.states[e.rule].state.activeEvent == Some(e)
  {
    RunKeepsOpenings(START, actions);
    var e := Run(START, actions).log.openings[i].event;
    RunIsExec(START, actions);
    Incidents.OneIncidentPerRule(actions, e.rule, e);
  }
}
