/**
 How a delivery comes to be permanently failed.  In every run of the workers that end is earned: the
 provider refused the message for good, or it refused five times, and no earlier call is in doubt.
 */
module DeliveryEnds {
  import opened Wrappers
  import opened DeliveryStates
  import opened DeliveryPolicy
  import opened DeliveryStore
  import opened DeliveryWorker

  /** An answer that ends the delivery: a permanent refusal, or a refusal of the last allowed call. */
  ghost predicate RefusedForGood(reply: SendResult, attemptCount: nat) {
    && !Confirmed(reply)
    && (|| DispositionOf(ErrorOf(reply).category) == SendPermanent
        || (DispositionOf(ErrorOf(reply).category) == SendRetryable && attemptCount >= MAX_PROVIDER_CALLS))
  }

  /** What a request to fail the delivery rests on. */
  ghost predicate Earned(s: Store, seen: Row, c: Completion) {
    c.nextState == PermanentFailed ==>
      && c.attempt in s.replies && s.replies[c.attempt].Some?
      && RefusedForGood(s.replies[c.attempt].value, seen.attemptCount)
      && !seen.possiblyAccepted
  }

  ghost predicate RequestEarned(s: Store, pc: Pc) {
    match pc
    case Completing(row, c, _) => Earned(s, row, c)
    case Reconciling(row, c, _) => Earned(s, row, c)
    case Beside(row, c, _, _) => Earned(s, row, c)
    case _ => true
  }

  /** While a live delivery is not in doubt, an attempt no feedback spoke of is open or was declined. */
  ghost predicate NotInDoubt(s: Store, spoken: set<nat>) {
    !Terminal(s.row.state) && !s.row.possiblyAccepted ==>
      forall a :: a in s.attempts && a !in spoken ==> s.attempts[a] in {Started, AttemptRetryable}
  }

  ghost predicate EndsInv(w: World, spoken: set<nat>) {
    && Inv(w) && NotInDoubt(w.store, spoken)
    && forall id :: id in w.workers ==> RequestEarned(w.store, w.workers[id])
  }

  /** The attempts that feedback has spoken of. */
  function Spoken(actions: seq<Action>): set<nat> {
    if actions == [] then {} else SpokenBy(actions[0]) + Spoken(actions[1..])
  }

  function SpokenBy(a: Action): set<nat> { if a.Feedback? then {a.attempt} else {} }

  // ---------------------------------------------------------------- requests

  /** Answers on record are never changed. */
  ghost predicate KeepsReplies(s: Store, t: Store) {
    forall a :: a in s.replies ==> a in t.replies && t.replies[a] == s.replies[a]
  }

  lemma OthersStayEarned(s: Store, t: Store, pc: Pc)
    requires RequestEarned(s, pc) && KeepsReplies(s, t)
    ensures RequestEarned(t, pc)
  {
  }

  lemma StepKeepsReplies(s: Store, pc: Pc, step: Step)
    requires PcOk(s, pc) && Enabled(s, pc, step)
    ensures KeepsReplies(s, StepOf(s, pc, step).store)
  {
    if !Calls(step) { assert StepOf(s, pc, step).store.replies == s.replies; }
  }

  lemma AnswerIsEarned(s: Store, row: Row, attempt: nat, result: SendResult, at: int, fraction: real)
    ensures var n := OnSend(s, row, attempt, result, at, fraction);
            RequestEarned(n.store, n.pc)
  {
    FinishEndsExactly(s.channel, row, attempt, at, result, fraction);
  }

  lemma ReloadIsEarned(s: Store, row: Row, c: Completion, d: Decision)
    requires Earned(s, row, c) && ValidOutcome(c)
    ensures RequestEarned(s, OnReload(s, row, c, d))
  {
  }

  lemma StepStaysEarned(s: Store, pc: Pc, step: Step)
    requires PcOk(s, pc) && RequestEarned(s, pc) && Enabled(s, pc, step)
    ensures var n := StepOf(s, pc, step);
            RequestEarned(n.store, n.pc)
  {
    match step
    case SendEmail(result, at, fraction) => AnswerIsEarned(s, pc.row, pc.attempt, result, at, fraction);
    case SendTelegram(response, at, fraction) =>
      AnswerIsEarned(s, pc.row, pc.attempt, Classify(response), at, fraction);
    case Reload => ReloadIsEarned(s, pc.row, pc.completion, pc.decision);
    case _ =>
  }

  // ---------------------------------------------------------------- doubt

  /** A completion that leaves the delivery alive and free of doubt was declined. */
  lemma CompletionCastsDoubt(s: Store, seen: Row, c: Completion, d: Decision, answered: bool, spoken: set<nat>)
    requires NotInDoubt(s, spoken) && RequestOk(s, seen, c, d)
    ensures NotInDoubt(OnComplete(s, seen, c, d, answered).store, spoken)
  {
  }

  lemma WorkerKeepsDoubt(s: Store, pc: Pc, step: Step, spoken: set<nat>)
    requires RowOk(s) && PcOk(s, pc) && NotInDoubt(s, spoken) && Enabled(s, pc, step)
    ensures NotInDoubt(StepOf(s, pc, step).store, spoken)
  {
    if step.Complete? {
      CompletionCastsDoubt(s, pc.row, pc.completion, pc.decision, step.answered, spoken);
    }
  }

  lemma EventKeepsDoubt(s: Store, a: Action, spoken: set<nat>)
    requires !a.Worker? && NotInDoubt(s, spoken)
    requires a.Feedback? ==> a.attempt in s.attempts && AcceptsFeedback(s.row.state)
    requires a.Relay? ==> s.row.state in {WaitingDependency, Pending}
    ensures NotInDoubt(AfterEvent(s, a), spoken + SpokenBy(a))
  {
    if a.Feedback? { FeedbackMovesOn(s.row, a.event, a.acceptedElsewhere, a.recorded); }
  }

  // ---------------------------------------------------------------- runs

  lemma ActionKeepsEnds(w: World, a: Action, spoken: set<nat>)
    requires EndsInv(w, spoken) && Possible(w, a)
    ensures EndsInv(Apply(w, a), spoken + SpokenBy(a))
  {
    ActionKeepsInv(w, a);
    var v := Apply(w, a);
    if a.Worker? {
      assert PcOk(w.store, w.workers[a.id]);
      StepKeepsReplies(w.store, w.workers[a.id], a.step);
      StepStaysEarned(w.store, w.workers[a.id], a.step);
      WorkerKeepsDoubt(w.store, w.workers[a.id], a.step, spoken);
      assert spoken + SpokenBy(a) == spoken;
    } else {
      EventKeepsDoubt(w.store, a, spoken);
    }
    forall id | id in v.workers ensures RequestEarned(v.store, v.workers[id]) {
      if !a.Worker? || id != a.id { OthersStayEarned(w.store, v.store, w.workers[id]); }
    }
  }

  lemma {:induction false} RunKeepsEnds(w: World, actions: seq<Action>, spoken: set<nat>)
    requires EndsInv(w, spoken) && Legal(w, actions)
    ensures EndsInv(Exec(w, actions), spoken + Spoken(actions))
    decreases |actions|
  {
    if actions == [] {
      assert spoken + Spoken(actions) == spoken;
    } else {
      ActionKeepsEnds(w, actions[0], spoken);
      RunKeepsEnds(Apply(w, actions[0]), actions[1..], spoken + SpokenBy(actions[0]));
      assert spoken + SpokenBy(actions[0]) + Spoken(actions[1..]) == spoken + Spoken(actions);
    }
  }

  /** Every attempt but one, unless feedback spoke of it, was answered with a refusal on record. */
  ghost predicate OthersDeclined(s: Store, but: Option<nat>, spoken: set<nat>) {
    forall a :: a in s.attempts && but != Some(a) && a !in spoken ==>
      a in s.replies && Declined(s.channel, s.replies[a])
  }

  lemma CompletionIsEarned(s: Store, pc: Pc, spoken: set<nat>)
    requires RowOk(s) && PcOk(s, pc) && RequestEarned(s, pc) && NotInDoubt(s, spoken)
    requires pc.Completing? && pc.completion.nextState == PermanentFailed && CanComplete(s, pc.row, pc.completion)
    ensures !s.row.possiblyAccepted && OthersDeclined(s, Some(pc.completion.attempt), spoken)
  {
  }

  lemma PreflightIsEarned(s: Store, pc: Pc, spoken: set<nat>)
    requires RowOk(s) && PcOk(s, pc) && NotInDoubt(s, spoken)
    requires pc.Preflighting? && pc.plan.nextState == PermanentFailed && Fenced(s.row, pc.row)
    ensures !s.row.possiblyAccepted && OthersDeclined(s, None, spoken)
  {
  }

  /** What the step that ends a delivery as permanently failed rests on. */
  ghost predicate FailureIsEarned(w: World, a: Action, spoken: set<nat>)
    requires Possible(w, a)
  {
    var s := w.store;
    match a
    case Feedback(_, event, owns, acceptedElsewhere, _) => owns && event == Rejected && !acceptedElsewhere
    case Relay(_) => false
    case Worker(id, step) =>
      && !s.row.possiblyAccepted
      && (step.Complete? || step.CommitPreflight?)
      && (step.CommitPreflight? ==> OthersDeclined(s, None, spoken))
      && (step.Complete? ==>
            var attempt := w.workers[id].completion.attempt;
            && OthersDeclined(s, Some(attempt), spoken)
            && attempt in s.replies && s.replies[attempt].Some?
            && RefusedForGood(s.replies[attempt].value, s.row.attemptCount))
  }

  lemma WorkerFailureIsEarned(w: World, a: Action, spoken: set<nat>)
    requires EndsInv(w, spoken) && Possible(w, a) && a.Worker?
    requires w.store.row.state != PermanentFailed && Apply(w, a).store.row.state == PermanentFailed
    ensures FailureIsEarned(w, a, spoken)
  {
    var s, pc := w.store, w.workers[a.id];
    assert PcOk(s, pc) && RequestEarned(s, pc);
    OnlyTwoStepsFail(s, pc, a.step);
    if a.step.Complete? {
      CompletionIsEarned(s, pc, spoken);
    } else {
      PreflightIsEarned(s, pc, spoken);
    }
  }

  lemma OnlyTwoStepsFail(s: Store, pc: Pc, step: Step)
    requires Enabled(s, pc, step) && s.row.state != PermanentFailed
    requires StepOf(s, pc, step).store.row.state == PermanentFailed
    ensures step.Complete? || step.CommitPreflight?
    ensures step.Complete? ==> CanComplete(s, pc.row, pc.completion) && pc.completion.nextState == PermanentFailed
    ensures step.CommitPreflight? ==> Fenced(s.row, pc.row) && pc.plan.nextState == PermanentFailed
  {
  }

  lemma AnyFailureIsEarned(w: World, a: Action, spoken: set<nat>)
    requires EndsInv(w, spoken) && Possible(w, a)
    requires w.store.row.state != PermanentFailed && Apply(w, a).store.row.state == PermanentFailed
    ensures FailureIsEarned(w, a, spoken)
  {
    if a.Worker? {
      WorkerFailureIsEarned(w, a, spoken);
    }
  }

  /** In every run, a delivery becomes permanently failed only in one of three ways: feedback that owns
      the delivery reports a rejection; a worker records an answer that was a permanent refusal, or a
      refusal of the fifth call; or a worker gives up before a call.  In the last two, nothing sent before
      may have been accepted: every other attempt, unless feedback spoke of it, was declined on record. */
  lemma PermanentFailureIsEarned(w: World, actions: seq<Action>, a: Action)
    requires Fresh(w) && Legal(w, actions) && Possible(Exec(w, actions), a)
    requires Exec(w, actions).store.row.state != PermanentFailed
    requires Apply(Exec(w, actions), a).store.row.state == PermanentFailed
    ensures FailureIsEarned(Exec(w, actions), a, Spoken(actions))
  {
    FreshIsOk(w);
    RunKeepsEnds(w, actions, {});
    assert {} + Spoken(actions) == Spoken(actions);
    AnyFailureIsEarned(Exec(w, actions), a, Spoken(actions));
  }
}
