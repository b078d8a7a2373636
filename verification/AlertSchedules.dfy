/**
 Whether an enabled rule has a due time.  `update_rule` decides about the schedule from the rule it has
 read, but writes only the fields it was asked to change; with a stale read the two can part.
 */
module AlertSchedules {
  import opened Wrappers
  import opened AlertDecide
  import opened AlertStore
  import opened AlertHistory
  import Fencing = AlertFencing

  /** An active rule that is stored as enabled and that no evaluator will ever find due. */
  predicate Stranded(row: RuleRow) { row.enabled && !row.replaced && row.nextDue.None? }

  predicate StrandedIn(db: Db, r: nat) { r in db.rules && Stranded(db.rules[r]) }

  /** How `update_rule` computes whether a change is semantic, as far as the enabled flag goes. */
  predicate WellComputed(edit: Edit) {
    edit.changes.enabled.Some? && edit.changes.enabled.value != edit.seenEnabled ==> edit.semantic
  }

  /** An update strands the rule: it changes what the rule means, believing the rule disabled while it is
      enabled; or it enables the rule, believing that it already was. */
  predicate Strands(row: RuleRow, edit: Edit) {
    if edit.semantic then edit.changes.enabled.None? && !edit.seenEnabled && row.enabled
    else edit.changes.enabled == Some(true) && !row.enabled && row.nextDue.None?
  }

  lemma UpdateStrandsExactly(row: RuleRow, edit: Edit)
    requires !Stranded(row) && !row.replaced && !edit.replacing
    ensures Stranded(EditedRule(row, edit)) <==> Strands(row, edit)
    ensures WellComputed(edit) && Strands(row, edit) ==> edit.seenEnabled != row.enabled
  {
  }

  /** The step commits an update that strands the rule. */
  predicate StrandingStep(w: World, a: Action, r: nat)
    requires Enabled(w, a)
  {
    && a.CommitEdit? && w.clients[a.c].edit.id == r && !w.clients[a.c].edit.replacing
    && CanEdit(w.db, w.clients[a.c].edit, w.clients[a.c].prior) && Strands(w.db.rules[r], w.clients[a.c].edit)
  }

  lemma EditStrandsExactly(db: Db, edit: Edit, prior: Option<StateRow>, r: nat)
    requires CanEdit(db, edit, prior) && !StrandedIn(db, r)
    ensures StrandedIn(AfterEdit(db, edit, prior), r) <==>
              edit.id == r && !edit.replacing && Strands(db.rules[r], edit)
  {
    if edit.id == r && !edit.replacing { UpdateStrandsExactly(db.rules[r], edit); }
  }

  /** The exact law, for every step of every run: a rule that was not stranded is afterwards if and only if
      the step commits an update of that kind. */
  lemma StepStrandsExactly(w: World, a: Action, r: nat)
    requires Enabled(w, a) && !StrandedIn(w.db, r)
    ensures StrandedIn(NextDb(w, a), r) <==> StrandingStep(w, a, r)
  {
    if a.CommitEdit? {
      var q := w.clients[a.c];
      if CanEdit(w.db, q.edit, q.prior) { EditStrandsExactly(w.db, q.edit, q.prior, r); }
    }
  }

  /** Every update that takes effect was computed from the enabled flag the rule still has. */
  predicate ReadsFresh(w: World, actions: seq<Action>)
    requires Legal(w, actions)
    decreases |actions|
  {
    actions == [] || (StepReadsFresh(w, actions[0]) && ReadsFresh(Apply(w, actions[0]), actions[1..]))
  }

  predicate StepReadsFresh(w: World, a: Action)
    requires Enabled(w, a)
  {
    a.CommitEdit? ==>
      var q := w.clients[a.c];
      CanEdit(w.db, q.edit, q.prior) ==> WellComputed(q.edit) && q.edit.seenEnabled == w.db.rules[q.edit.id].enabled
  }

  lemma {:induction false} RunStrandsNothing(w: World, actions: seq<Action>)
    requires Legal(w, actions) && ReadsFresh(w, actions) && forall r: nat :: !StrandedIn(w.db, r)
    ensures forall r: nat :: !StrandedIn(Exec(w, actions).db, r)
    decreases |actions|
  {
    if actions != [] {
      forall r: nat ensures !StrandedIn(NextDb(w, actions[0]), r) {
        StepStrandsExactly(w, actions[0], r);
      }
      RunStrandsNothing(Apply(w, actions[0]), actions[1..]);
    }
  }

  /** In every run whose updates read the enabled flag they overwrite, each active rule that is enabled
      has a due time. */
  lemma FreshReadsKeepSchedules(actions: seq<Action>, r: nat)
    requires Legal(EMPTY, actions) && ReadsFresh(EMPTY, actions)
    ensures var db := Exec(EMPTY, actions).db;
            r in db.rules && db.rules[r].enabled && !db.rules[r].replaced ==> db.rules[r].nextDue.Some?
  {
    RunStrandsNothing(EMPTY, actions);
    assert !StrandedIn(Exec(EMPTY, actions).db, r);
  }

  /** A rule is created disabled and then enabled; a change of its duration, computed from the rule as
      it was before, takes the enabled rule off its schedule. */
  lemma StaleUpdateStrandsARule() returns (actions: seq<Action>)
    ensures Legal(EMPTY, actions) && StrandedIn(Exec(EMPTY, actions).db, 7)
  {
    var settings := Settings(false, 60, 60, [Email]);
    var create := CreateRule(7, settings, 120);
    var enable := Edit(7, 1, 1, false, true, false, Changes(Some(true), None, None, None), 120, 0, settings);
    var stale := Edit(7, 2, 1, false, true, false, Changes(None, Some(120), None, None), 180, 0, settings);
    Fencing.RunOne(START, create, []);
    var t0 := Run(START, [create] + []);
    assert t0.world.db.rules == map[7 := NewRule(settings, 120)] && t0.world.db.states == map[];
    var first := Fencing.EditAlone(t0, enable);
    var t1 := Run(t0, first);
    var second := Fencing.EditAlone(t1, stale);
    UpdateStrandsExactly(t1.world.db.rules[7], stale);
    Fencing.RunJoin(t0, first, second);
    Fencing.RunJoin(START, [create] + [], first + second);
    actions := [create] + [] + (first + second);
    RunIsExec(START, actions);
  }
}
