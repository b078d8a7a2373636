/**
 What every run of the delivery workers keeps: how often the provider is called, when a Telegram
 message may be sent again, when a queue message may be deleted, and that no worker ever asks the
 store for something the store's own checks would turn down.
 */
module DeliveryWorker {
  import opened Wrappers
  import opened DeliveryStates
  import opened DeliveryPolicy
  import opened DeliveryStore

  // What holds of the row and its attempts

  ghost predicate AttemptsCounted(s: Store) {
    && |s.attempts| == s.row.attemptCount <= MAX_PROVIDER_CALLS
    && (s.row.lastAttempt.Some? ==> s.row.lastAttempt.value in s.attempts)
    && (s.row.state in {WaitingDependency, Pending, Queued} ==> s.attempts == map[])
  }

  /** Only the last attempt of a claimed delivery can be open; a terminal delivery may leave one behind. */
  ghost predicate OpenAttempt(s: Store) {
    forall a :: a in s.attempts && s.attempts[a] == Started ==>
      Terminal(s.row.state) || (s.row.state == Processing && s.row.lastAttempt == Some(a))
  }

  ghost predicate TelegramClean(s: Store) {
    s.channel == Telegram && !Terminal(s.row.state) ==>
      !s.row.possiblyAccepted && forall a :: a in s.attempts ==> s.attempts[a] in {Started, AttemptRetryable}
  }

  /** The answer was an error that says the provider did not take the message. */
  ghost predicate Declined(channel: Channel, reply: Option<SendResult>) {
    && reply.Some?
    && !Confirmed(reply.value)
    && DispositionOf(ErrorOf(reply.value).category) in {SendRetryable, SendFatal}
    && (channel == Telegram ==>
          reply.value.Failed? && DispositionOf(reply.value.error.category) in {SendRetryable, SendFatal})
  }

  ghost predicate RetriesDeclined(s: Store) {
    forall a :: a in s.attempts && s.attempts[a] == AttemptRetryable ==>
      a in s.replies && Declined(s.channel, s.replies[a])
  }

  ghost predicate ExhaustedIsAmbiguous(s: Store) { s.row.ambiguousExhausted ==> s.row.possiblyAccepted }

  ghost predicate RowOk(s: Store) {
    AttemptsCounted(s) && OpenAttempt(s) && TelegramClean(s) && RetriesDeclined(s) && ExhaustedIsAmbiguous(s)
  }

  /** Each call of the provider is for an attempt of its own. */
  ghost predicate SendsOk(s: Store) {
    && |s.replies| == |s.sends|
    && (forall a :: a in s.replies <==> a in s.sends)
    && (forall a :: a in s.replies ==> a in s.attempts)
  }

  ghost predicate Settled(s: Store, a: nat) { a in s.attempts && s.attempts[a] == AttemptRetryable }

  ghost predicate EarlierSettled(s: Store) {
    s.channel == Telegram ==> forall i :: 0 <= i < |s.sends| - 1 ==> Settled(s, s.sends[i])
  }

  // What a worker knows

  ghost predicate Same(a: Row, b: Row) { a.(leaseExpires := None) == b.(leaseExpires := None) }

  /** A row a worker read is never newer than the stored one, and an equal revision means nothing but
      the lease was renewed since. */
  ghost predicate Snap(row: Row, seen: Row) {
    && seen.revision <= row.revision && (seen.revision == row.revision ==> Same(seen, row))
    && (seen.ambiguousExhausted ==> seen.possiblyAccepted)
  }

  ghost predicate NoneOpen(attempts: map<nat, AttemptOutcome>) { forall a :: a in attempts ==> attempts[a] != Started }

  ghost predicate Quiet(s: Store, seen: Row) { seen.revision == s.row.revision ==> NoneOpen(s.attempts) }

  ghost predicate StartOk(s: Store, seen: Row, started: Option<nat>) {
    match started
    case None => Quiet(s, seen)
    case Some(a) => seen.state == Processing && seen.lastAttempt == Some(a) && a in s.attempts
  }

  ghost predicate RequestOk(s: Store, seen: Row, c: Completion, d: Decision) {
    && Snap(s.row, seen) && seen.state == Processing
    && ValidCompletion(s.channel, seen, c)
    && c.attempt in s.attempts
    && (c.ambiguousExhausted ==> c.possiblyAccepted)
    && (d.action == Delete <==> Terminal(c.nextState))
    && (c.outcome == AttemptRetryable ==> c.attempt in s.replies && Declined(s.channel, s.replies[c.attempt]))
    && (s.channel == Telegram ==>
          Terminal(c.nextState) || (c.outcome == AttemptRetryable && !c.possiblyAccepted))
  }

  ghost predicate PlanOk(s: Store, seen: Row, now: int, p: Plan) {
    && Snap(s.row, seen) && seen.state == Processing && Quiet(s, seen)
    && ValidPreflight(seen, now, p)
    && (p.ambiguousExhausted ==> p.possiblyAccepted)
    && (p.decision.action == Delete <==> Terminal(p.nextState))
    && (!seen.possiblyAccepted ==> !p.possiblyAccepted)
  }

  ghost predicate PcOk(s: Store, pc: Pc) {
    match pc
    case Idle => true
    case Seen(row, _) => Snap(s.row, row) && row.state in {Queued, RetryableFailed, Processing}
    case Ready(row, _, started) =>
      Snap(s.row, row) && row.state in {Queued, RetryableFailed, Processing} && StartOk(s, row, started)
    case Claimed(row, started) => Snap(s.row, row) && row.state == Processing && StartOk(s, row, started)
    case Reconciled(row) => Snap(s.row, row) && row.state == Processing && Quiet(s, row)
    case Sending(row, a) =>
      && Snap(s.row, row) && row.state == Processing && row.lastAttempt == Some(a)
      && a in s.attempts && a !in s.replies
      && (s.channel == Telegram ==> !row.possiblyAccepted && forall i :: 0 <= i < |s.sends| ==> Settled(s, s.sends[i]))
    case Completing(row, c, d) => RequestOk(s, row, c, d)
    case Reconciling(row, c, d) => RequestOk(s, row, c, d)
    case Beside(row, c, d, _) => RequestOk(s, row, c, d) && Terminal(s.row.state)
    case Preflighting(row, now, p) => PlanOk(s, row, now, p)
    case Rechecking(_) => true
    case Done(d) => d.action == Delete ==> Terminal(s.row.state)
  }

  /** Workers about to call the provider hold different attempts, and for Telegram there is only one. */
  ghost predicate Apart(s: Store, p: Pc, q: Pc) {
    p.Sending? && q.Sending? ==> s.channel == Email && p.attempt != q.attempt
  }

  ghost predicate Inv(w: World) {
    && RowOk(w.store) && SendsOk(w.store) && EarlierSettled(w.store)
    && (forall id :: id in w.workers ==> PcOk(w.store, w.workers[id]))
    && (forall i, j :: i in w.workers && j in w.workers && i != j ==> Apart(w.store, w.workers[i], w.workers[j]))
  }

  // How the store may move under a worker's feet

  /** A change of the row and its attempts that no worker's knowledge is hurt by. */
  ghost predicate Evolves(s: Store, t: Store) {
    && t.channel == s.channel && t.sends == s.sends && t.replies == s.replies
    && s.row.revision <= t.row.revision
    && (s.row.revision == t.row.revision ==> Same(s.row, t.row) && (NoneOpen(s.attempts) ==> NoneOpen(t.attempts)))
    && (Terminal(s.row.state) ==> Terminal(t.row.state))
    && (forall a :: a in s.attempts ==> a in t.attempts)
    && (s.channel == Telegram ==> forall a :: Settled(s, a) ==> Settled(t, a))
  }

  ghost predicate StepOk(s: Store, n: Next) {
    RowOk(n.store) && Evolves(s, n.store) && PcOk(n.store, n.pc)
  }

  lemma OthersKeep(s: Store, t: Store, pc: Pc)
    requires PcOk(s, pc) && Evolves(s, t)
    ensures PcOk(t, pc)
  {
  }

  /** A write that moves the row one revision on. */
  lemma WriteEvolves(s: Store, t: Store)
    requires t.channel == s.channel && t.sends == s.sends && t.replies == s.replies
    requires t.row.revision == s.row.revision + 1 && !Terminal(s.row.state)
    requires forall a :: a in s.attempts ==> a in t.attempts
    requires forall a :: Settled(s, a) ==> Settled(t, a)
    ensures Evolves(s, t)
  {
  }

  // One lemma per write: the row stays well formed

  lemma ClaimKeeps(s: Store, seen: Row, now: int, started: Option<nat>, owner: nat, expires: int, answered: bool)
    requires RowOk(s) && Snap(s.row, seen) && seen.state in {Queued, RetryableFailed, Processing}
    requires StartOk(s, seen, started)
    ensures var n := OnClaim(s, seen, now, started, owner, expires, answered);
            StepOk(s, n)
  {
    var n := OnClaim(s, seen, now, started, owner, expires, answered);
    if CanClaim(s.row, seen, now) {
      WriteEvolves(s, n.store);
    }
  }

  lemma RepairKeeps(s: Store, now: int)
    requires RowOk(s)
    ensures var n := OnRepair(s, now);
            RowOk(n.store) && Evolves(s, n.store) && PcOk(n.store, n.pc)
  {
    if s.row.state == Pending {
      WriteEvolves(s, OnRepair(s, now).store);
    }
  }

  lemma LoadKeeps(s: Store, seen: Row, now: int)
    requires RowOk(s) && Snap(s.row, seen) && seen.state in {Queued, RetryableFailed, Processing}
    ensures PcOk(s, OnLoadAttempt(s, seen, now))
  {
  }

  /** A row that gives the claim back. */
  ghost predicate Releasable(s: Store, row: Row) {
    && row.revision == s.row.revision + 1 && row.attemptCount == s.row.attemptCount
    && row.lastAttempt == s.row.lastAttempt
    && (row.state == RetryableFailed || Terminal(row.state))
    && (row.state == RetryableFailed ==> NoneOpen(s.attempts) && (s.channel == Telegram ==> !row.possiblyAccepted))
    && (row.ambiguousExhausted ==> row.possiblyAccepted)
  }

  lemma ReleaseKeeps(s: Store, seen: Row, row: Row)
    requires RowOk(s) && Fenced(s.row, seen) && Releasable(s, row)
    ensures RowOk(s.(row := row)) && Evolves(s, s.(row := row))
  {
    WriteEvolves(s, s.(row := row));
  }

  lemma BeginKeeps(s: Store, seen: Row, attempt: nat, requiredUntil: int, answered: bool)
    requires RowOk(s) && SendsOk(s) && PcOk(s, Reconciled(seen)) && MaySend(seen)
    ensures var n := OnBegin(s, seen, attempt, requiredUntil, answered);
            StepOk(s, n)
  {
    var n := OnBegin(s, seen, attempt, requiredUntil, answered);
    if CanBegin(s, seen, attempt, requiredUntil) {
      assert |n.store.attempts| == |s.attempts| + 1;
      WriteEvolves(s, n.store);
      AllSettled(s);
    }
  }

  /** With no attempt open, every Telegram call so far was declined and is recorded as such. */
  lemma AllSettled(s: Store)
    requires RowOk(s) && SendsOk(s) && NoneOpen(s.attempts) && !Terminal(s.row.state)
    ensures s.channel == Telegram ==> forall a :: a in s.attempts ==> Settled(s, a) && a in s.replies
    ensures s.channel == Telegram ==> forall i :: 0 <= i < |s.sends| ==> Settled(s, s.sends[i])
  {
  }

  lemma CompleteKeeps(s: Store, seen: Row, c: Completion, d: Decision, answered: bool)
    requires RowOk(s) && RequestOk(s, seen, c, d)
    ensures var n := OnComplete(s, seen, c, d, answered);
            StepOk(s, n)
  {
    var n := OnComplete(s, seen, c, d, answered);
    if CanComplete(s, seen, c) {
      assert n.store.attempts.Keys == s.attempts.Keys;
      assert |n.store.attempts| == |s.attempts| by {
        SameKeysSameSize(s.attempts, n.store.attempts);
      }
      WriteEvolves(s, n.store);
    }
  }

  lemma SameKeysSameSize(a: map<nat, AttemptOutcome>, b: map<nat, AttemptOutcome>)
    requires a.Keys == b.Keys
    ensures |a| == |b|
  {
    assert |a| == |a.Keys| && |b| == |b.Keys|;
  }

  /** An attempt's own row may be completed once the delivery has ended. */
  lemma OutcomeKeeps(s: Store, t: Store, a: nat, o: AttemptOutcome)
    requires RowOk(s) && Terminal(s.row.state) && a in s.attempts && s.attempts[a] == Started && o != Started
    requires o == AttemptRetryable ==> a in s.replies && Declined(s.channel, s.replies[a])
    requires t == s.(attempts := s.attempts[a := o])
    ensures RowOk(t) && Evolves(s, t)
  {
    SameKeysSameSize(s.attempts, t.attempts);
  }

  lemma BesideKeeps(s: Store, pc: Pc)
    requires RowOk(s) && PcOk(s, pc) && pc.Beside?
    ensures StepOk(s, OnFinishBeside(s, pc))
  {
    var n, c := OnFinishBeside(s, pc), pc.completion;
    if n.store != s {
      OutcomeKeeps(s, n.store, c.attempt, c.outcome);
    }
  }

  lemma FeedbackOnAttemptKeeps(s: Store, t: Store, a: nat, e: ProviderOutcome)
    requires RowOk(s) && s.channel == Email && a in s.attempts
    requires t == s.(attempts := s.attempts[a := AttemptAfterFeedback(s.attempts[a], e)])
    ensures RowOk(t) && Evolves(s, t)
  {
    SameKeysSameSize(s.attempts, t.attempts);
  }

  /** A row that moves on by one revision and keeps its attempts, its ambiguity and, if it has one, its end. */
  ghost predicate MovesOn(row: Row, next: Row) {
    && next.revision == row.revision + 1 && next.attemptCount == row.attemptCount && next.lastAttempt == row.lastAttempt
    && next.possiblyAccepted == row.possiblyAccepted && (next.ambiguousExhausted ==> row.ambiguousExhausted)
    && (next.state == row.state || Terminal(next.state)) && (Terminal(row.state) ==> Terminal(next.state))
  }

  lemma FeedbackMovesOn(row: Row, e: ProviderOutcome, elsewhere: bool, recorded: Option<ProviderOutcome>)
    requires AcceptsFeedback(row.state)
    ensures MovesOn(row, AfterFeedback(row, e, elsewhere, recorded))
  {
  }

  lemma MovingOnKeeps(s: Store, t: Store)
    requires RowOk(s) && s.channel == Email && MovesOn(s.row, t.row) && t == s.(row := t.row)
    ensures RowOk(t) && Evolves(s, t)
  {
  }

  lemma FeedbackKeeps(s: Store, a: Action)
    requires RowOk(s) && a.Feedback? && s.channel == Email && a.attempt in s.attempts && AcceptsFeedback(s.row.state)
    ensures RowOk(AfterEvent(s, a)) && Evolves(s, AfterEvent(s, a))
  {
    var t := s.(attempts := s.attempts[a.attempt := AttemptAfterFeedback(s.attempts[a.attempt], a.event)]);
    FeedbackOnAttemptKeeps(s, t, a.attempt, a.event);
    if a.owns {
      FeedbackMovesOn(s.row, a.event, a.acceptedElsewhere, a.recorded);
      MovingOnKeeps(t, AfterEvent(s, a));
      EvolvesChains(s, t, AfterEvent(s, a));
    }
  }

  lemma EvolvesChains(s: Store, t: Store, u: Store)
    requires Evolves(s, t) && Evolves(t, u)
    ensures Evolves(s, u)
  {
  }

  lemma RelayKeeps(s: Store, next: DeliveryState)
    requires RowOk(s) && s.row.state in {WaitingDependency, Pending} && next in Successors(s.row.state)
    ensures RowOk(AfterEvent(s, Relay(next))) && Evolves(s, AfterEvent(s, Relay(next)))
  {
    WriteEvolves(s, AfterEvent(s, Relay(next)));
  }

  // Every step of one worker that does not call the provider

  predicate Calls(step: Step) { step.SendEmail? || step.SendTelegram? || step.SendUnanswered? }

  predicate Reads(step: Step) {
    step.Read? || step.LoadAttempt? || step.TakeOver? || step.Proceed? || step.Refresh? || step.Recheck?
    || step.Refused? || step.Reload? || step.Resubmit? || step.Stop?
  }

  predicate Releases(step: Step) { step.Finalize? || step.Defer? || step.Cancel? || step.CommitPreflight? }

  lemma RefreshKeeps(s: Store, pc: Pc)
    requires RowOk(s) && PcOk(s, pc) && pc.Claimed? && pc.started.None?
    ensures PcOk(s, OnRefresh(s, pc.row, pc))
  {
  }

  lemma TakeOverKeeps(s: Store, pc: Pc, at: int, fraction: real)
    requires RowOk(s) && PcOk(s, pc) && pc.Claimed? && pc.started.Some?
    ensures var o := Interrupted(s.channel, pc.row, pc.started.value, at, fraction);
            PcOk(s, Completing(pc.row, o.completion, o.decision))
  {
    InterruptedIsSound(s.channel, pc.row, pc.started.value, at, fraction);
  }

  lemma ReadingStepKeeps(s: Store, pc: Pc, step: Step)
    requires RowOk(s) && PcOk(s, pc) && Enabled(s, pc, step)
    requires Reads(step)
    ensures StepOk(s, StepOf(s, pc, step))
  {
    match step
    case LoadAttempt => LoadKeeps(s, pc.row, pc.now);
    case TakeOver(at, fraction) => TakeOverKeeps(s, pc, at, fraction);
    case Refresh => RefreshKeeps(s, pc);
    case _ =>
  }

  lemma PreflightKeeps(s: Store, pc: Pc, step: Step)
    requires RowOk(s) && PcOk(s, pc) && Enabled(s, pc, step) && step.Preflight?
    ensures StepOk(s, StepOf(s, pc, step))
  {
    PreflightIsSound(pc.row, step.result, step.at, step.fraction);
  }

  lemma OnReleaseKeeps(s: Store, seen: Row, row: Row, after: Pc, refused: Pc)
    requires RowOk(s) && (Fenced(s.row, seen) ==> Releasable(s, row) && PcOk(s.(row := row), after)) && PcOk(s, refused)
    ensures StepOk(s, OnRelease(s, seen, row, after, refused))
  {
    if Fenced(s.row, seen) {
      ReleaseKeeps(s, seen, row);
    }
  }

  lemma FinalizeKeeps(s: Store, pc: Pc, step: Step)
    requires RowOk(s) && PcOk(s, pc) && Enabled(s, pc, step) && step.Finalize?
    ensures StepOk(s, StepOf(s, pc, step))
  {
    OnReleaseKeeps(s, pc.row, AfterFinalize(s.row, pc.row), if step.answered then Done(Decision(Delete, 0)) else Idle,
                   Idle);
  }

  lemma DeferKeeps(s: Store, pc: Pc, step: Step)
    requires RowOk(s) && PcOk(s, pc) && Enabled(s, pc, step) && step.Defer?
    ensures StepOk(s, StepOf(s, pc, step))
  {
    OnReleaseKeeps(s, pc.row, Released(s.row, pc.row, RetryableFailed, Some(step.next)), Idle, Idle);
  }

  lemma CancelKeeps(s: Store, pc: Pc, step: Step)
    requires RowOk(s) && PcOk(s, pc) && Enabled(s, pc, step) && step.Cancel?
    ensures StepOk(s, StepOf(s, pc, step))
  {
    OnReleaseKeeps(s, pc.row, AfterCancel(s.row, pc.row), if step.answered then Done(Decision(Delete, 0)) else Idle,
                   Idle);
  }

  lemma CommitPreflightKeeps(s: Store, pc: Pc, step: Step)
    requires RowOk(s) && PcOk(s, pc) && Enabled(s, pc, step) && step.CommitPreflight?
    ensures StepOk(s, StepOf(s, pc, step))
  {
    OnReleaseKeeps(s, pc.row, AfterPreflight(s.row, pc.row, pc.plan),
                   if step.answered then Done(pc.plan.decision) else Rechecking(pc.plan.decision),
                   Rechecking(pc.plan.decision));
  }

  lemma ReleasingStepKeeps(s: Store, pc: Pc, step: Step)
    requires RowOk(s) && PcOk(s, pc) && Enabled(s, pc, step)
    requires Releases(step)
    ensures StepOk(s, StepOf(s, pc, step))
  {
    match step
    case Finalize(_) => FinalizeKeeps(s, pc, step);
    case Defer(_) => DeferKeeps(s, pc, step);
    case Cancel(_) => CancelKeeps(s, pc, step);
    case CommitPreflight(_) => CommitPreflightKeeps(s, pc, step);
  }

  lemma RenewKeeps(s: Store, pc: Pc, step: Step)
    requires RowOk(s) && PcOk(s, pc) && Enabled(s, pc, step) && step.Renew?
    ensures StepOk(s, StepOf(s, pc, step))
  {
  }

  lemma WritingStepKeeps(s: Store, pc: Pc, step: Step)
    requires RowOk(s) && SendsOk(s) && PcOk(s, pc) && Enabled(s, pc, step)
    requires !Calls(step) && !Reads(step) && !Releases(step)
    ensures StepOk(s, StepOf(s, pc, step))
  {
    match step
    case Repair(now) => RepairKeeps(s, now);
    case Claim(owner, expires, answered) => ClaimKeeps(s, pc.row, pc.now, pc.started, owner, expires, answered);
    case Renew(_) => RenewKeeps(s, pc, step);
    case Preflight(_, _, _) => PreflightKeeps(s, pc, step);
    case Begin(attempt, requiredUntil, answered) => BeginKeeps(s, pc.row, attempt, requiredUntil, answered);
    case Complete(answered) => CompleteKeeps(s, pc.row, pc.completion, pc.decision, answered);
    case FinishBeside => BesideKeeps(s, pc);
  }

  lemma QuietStepKeeps(s: Store, pc: Pc, step: Step)
    requires RowOk(s) && SendsOk(s) && PcOk(s, pc) && Enabled(s, pc, step) && !Calls(step)
    ensures StepOk(s, StepOf(s, pc, step))
  {
    if Reads(step) {
      ReadingStepKeeps(s, pc, step);
    } else if Releases(step) {
      ReleasingStepKeeps(s, pc, step);
    } else {
      WritingStepKeeps(s, pc, step);
    }
  }

  lemma SendsCarryOver(s: Store, t: Store)
    requires SendsOk(s) && EarlierSettled(s) && Evolves(s, t)
    ensures SendsOk(t) && EarlierSettled(t)
  {
  }

  lemma OnlyBeginLeadsToSending(s: Store, pc: Pc, step: Step)
    requires Enabled(s, pc, step) && !Calls(step) && !step.Begin? && !step.Renew?
    ensures !StepOf(s, pc, step).pc.Sending?
  {
  }

  /** A new sender holds an attempt nobody else has, and for Telegram nobody else is about to send. */
  lemma NewAttemptIsApart(s: Store, seen: Row, attempt: nat, requiredUntil: int, answered: bool, other: Pc)
    requires RowOk(s) && SendsOk(s) && PcOk(s, Reconciled(seen)) && PcOk(s, other)
    ensures var n := OnBegin(s, seen, attempt, requiredUntil, answered);
            Apart(n.store, n.pc, other) && Apart(n.store, other, n.pc)
  {
    if CanBegin(s, seen, attempt, requiredUntil) && other.Sending? {
      AllSettled(s);
    }
  }

  /** Beginning an attempt is the only way to reach the sender, and it excludes everyone else. */
  lemma NewSenderIsApart(s: Store, pc: Pc, step: Step, other: Pc)
    requires RowOk(s) && SendsOk(s) && PcOk(s, pc) && PcOk(s, other) && Enabled(s, pc, step) && !Calls(step)
    ensures var n := StepOf(s, pc, step);
            Apart(n.store, n.pc, other) && Apart(n.store, other, n.pc)
  {
    if step.Begin? {
      NewAttemptIsApart(s, pc.row, step.attempt, step.requiredUntil, step.answered, other);
    } else if !step.Renew? {
      OnlyBeginLeadsToSending(s, pc, step);
    }
  }

  lemma QuietKeepsInv(w: World, id: nat, n: Next)
    requires Inv(w) && id in w.workers && StepOk(w.store, n)
    requires forall k :: k in w.workers && k != id ==>
               Apart(n.store, n.pc, w.workers[k]) && Apart(n.store, w.workers[k], n.pc)
    ensures Inv(World(n.store, w.workers[id := n.pc]))
  {
    var s, v := w.store, World(n.store, w.workers[id := n.pc]);
    SendsCarryOver(s, n.store);
    forall k | k in v.workers ensures PcOk(v.store, v.workers[k]) {
      if k != id {
        OthersKeep(s, n.store, w.workers[k]);
      }
    }
    forall i, j | i in v.workers && j in v.workers && i != j ensures Apart(v.store, v.workers[i], v.workers[j]) {
      assert i != id && j != id ==> Apart(s, w.workers[i], w.workers[j]);
    }
  }

  lemma QuietStepKeepsInv(w: World, id: nat, step: Step)
    requires Inv(w) && Possible(w, Worker(id, step)) && !Calls(step)
    ensures Inv(Apply(w, Worker(id, step)))
  {
    var s, pc := w.store, w.workers[id];
    var n := StepOf(s, pc, step);
    QuietStepKeeps(s, pc, step);
    forall k | k in w.workers && k != id
      ensures Apart(n.store, n.pc, w.workers[k]) && Apart(n.store, w.workers[k], n.pc)
    {
      NewSenderIsApart(s, pc, step, w.workers[k]);
    }
    QuietKeepsInv(w, id, n);
  }

  // Calling the provider

  /** The store after a call for `attempt`. */
  ghost predicate Called(s: Store, t: Store, attempt: nat, reply: Option<SendResult>) {
    t == s.(sends := s.sends + [attempt], replies := s.replies[attempt := reply])
  }

  lemma CallKeepsStore(s: Store, t: Store, pc: Pc, reply: Option<SendResult>)
    requires RowOk(s) && SendsOk(s) && EarlierSettled(s) && PcOk(s, pc) && pc.Sending?
    requires Called(s, t, pc.attempt, reply)
    ensures RowOk(t) && SendsOk(t) && EarlierSettled(t)
  {
  }

  lemma CallKeepsOthers(s: Store, t: Store, pc: Pc, reply: Option<SendResult>, other: Pc)
    requires PcOk(s, pc) && pc.Sending? && PcOk(s, other) && Apart(s, pc, other)
    requires Called(s, t, pc.attempt, reply)
    ensures PcOk(t, other)
  {
  }

  lemma AnswerIsUsed(s: Store, pc: Pc, result: SendResult, at: int, fraction: real)
    requires RowOk(s) && SendsOk(s) && PcOk(s, pc) && pc.Sending?
    requires s.channel == Telegram ==> TelegramAnswer(result)
    ensures var n := OnSend(s, pc.row, pc.attempt, result, at, fraction);
            PcOk(n.store, n.pc)
  {
    FinishIsSound(s.channel, pc.row, pc.attempt, at, result, fraction);
    FinishRecordsTheAnswer(s.channel, pc.row, pc.attempt, at, result, fraction);
    if s.channel == Telegram {
      TelegramRetriesOnlyRejections(pc.row, pc.attempt, at, result, fraction);
    }
  }

  lemma CallKeepsInv(w: World, id: nat, n: Next, reply: Option<SendResult>)
    requires Inv(w) && id in w.workers && w.workers[id].Sending?
    requires Called(w.store, n.store, w.workers[id].attempt, reply) && PcOk(n.store, n.pc) && !n.pc.Sending?
    ensures Inv(World(n.store, w.workers[id := n.pc]))
  {
    var s, pc := w.store, w.workers[id];
    var v := World(n.store, w.workers[id := n.pc]);
    CallKeepsStore(s, n.store, pc, reply);
    forall k | k in v.workers ensures PcOk(v.store, v.workers[k]) {
      if k != id {
        CallKeepsOthers(s, n.store, pc, reply, w.workers[k]);
      }
    }
    forall i, j | i in v.workers && j in v.workers && i != j ensures Apart(v.store, v.workers[i], v.workers[j]) {
      assert Apart(s, w.workers[i], w.workers[j]);
    }
  }

  lemma CallStepKeepsInv(w: World, id: nat, step: Step)
    requires Inv(w) && Possible(w, Worker(id, step)) && Calls(step)
    ensures Inv(Apply(w, Worker(id, step)))
  {
    var s, pc := w.store, w.workers[id];
    var n := StepOf(s, pc, step);
    match step
    case SendEmail(result, at, fraction) =>
      AnswerIsUsed(s, pc, result, at, fraction);
      CallKeepsInv(w, id, n, Some(result));
    case SendTelegram(response, at, fraction) =>
      TelegramAnswersAreDecisive(response);
      AnswerIsUsed(s, pc, Classify(response), at, fraction);
      CallKeepsInv(w, id, n, Some(Classify(response)));
    case SendUnanswered =>
      CallKeepsInv(w, id, n, None);
  }

  // Runs

  lemma EventKeepsInv(w: World, a: Action)
    requires Inv(w) && Possible(w, a) && !a.Worker?
    ensures Inv(Apply(w, a))
  {
    var s, v := w.store, Apply(w, a);
    match a
    case Relay(next) => RelayKeeps(s, next);
    case Feedback(_, _, _, _, _) => FeedbackKeeps(s, a);
    SendsCarryOver(s, v.store);
    forall k | k in v.workers ensures PcOk(v.store, v.workers[k]) {
      OthersKeep(s, v.store, w.workers[k]);
    }
    forall i, j | i in v.workers && j in v.workers && i != j ensures Apart(v.store, v.workers[i], v.workers[j]) {
      assert Apart(s, w.workers[i], w.workers[j]);
    }
  }

  lemma ActionKeepsInv(w: World, a: Action)
    requires Inv(w) && Possible(w, a)
    ensures Inv(Apply(w, a))
  {
    if !a.Worker? {
      EventKeepsInv(w, a);
    } else if Calls(a.step) {
      CallStepKeepsInv(w, a.id, a.step);
    } else {
      QuietStepKeepsInv(w, a.id, a.step);
    }
  }

  lemma {:induction false} RunKeepsInv(w: World, actions: seq<Action>)
    requires Inv(w) && Legal(w, actions)
    ensures Inv(Exec(w, actions))
    decreases |actions|
  {
    if actions != [] {
      ActionKeepsInv(w, actions[0]);
      RunKeepsInv(Apply(w, actions[0]), actions[1..]);
    }
  }

  lemma FreshIsOk(w: World)
    requires Fresh(w)
    ensures Inv(w)
  {
  }

  lemma KeysCount(a: set<nat>, b: set<nat>)
    requires a <= b
    ensures |a| <= |b|
  {
    assert b == a + (b - a);
  }

  /** Whatever the workers, the clocks, the answers and the crashes: the provider is called at most
      once per recorded attempt and at most five times per delivery. */
  lemma ProviderIsCalledAtMostFiveTimes(w: World, actions: seq<Action>)
    requires Fresh(w) && Legal(w, actions)
    ensures var s := Exec(w, actions).store;
            |s.sends| <= s.row.attemptCount <= MAX_PROVIDER_CALLS
    ensures var s := Exec(w, actions).store;
            forall i, j :: 0 <= i < j < |s.sends| ==> s.sends[i] != s.sends[j]
  {
    FreshIsOk(w);
    RunKeepsInv(w, actions);
    var s := Exec(w, actions).store;
    assert |s.replies| == |s.replies.Keys| && |s.attempts| == |s.attempts.Keys|;
    KeysCount(s.replies.Keys, s.attempts.Keys);
    DistinctSends(s);
  }

  lemma DistinctSends(s: Store)
    requires SendsOk(s)
    ensures forall i, j :: 0 <= i < j < |s.sends| ==> s.sends[i] != s.sends[j]
  {
    assert s.replies.Keys == Elements(s.sends);
    assert |s.replies.Keys| == |s.replies|;
    FullSizeIsDistinct(s.sends);
  }

  function Elements(xs: seq<nat>): set<nat> { set x | x in xs }

  lemma {:induction false} ElementsCount(xs: seq<nat>)
    ensures |Elements(xs)| <= |xs|
  {
    if xs != [] {
      ElementsCount(xs[1..]);
      assert Elements(xs) == {xs[0]} + Elements(xs[1..]);
    }
  }

  lemma {:induction false} FullSizeIsDistinct(xs: seq<nat>)
    requires |Elements(xs)| == |xs|
    ensures forall i, j :: 0 <= i < j < |xs| ==> xs[i] != xs[j]
  {
    if xs != [] {
      assert Elements(xs) == {xs[0]} + Elements(xs[1..]);
      ElementsCount(xs[1..]);
      assert xs[0] !in Elements(xs[1..]);
      FullSizeIsDistinct(xs[1..]);
    }
  }

  /** A Telegram message is sent again only after the provider declined every earlier one and the
      refusal is on record: nothing follows a success, an ambiguous answer or an interrupted call. */
  lemma TelegramResendsOnlyDeclined(w: World, actions: seq<Action>, i: nat)
    requires Fresh(w) && w.store.channel == Telegram && Legal(w, actions)
    requires i < |Exec(w, actions).store.sends| - 1
    ensures var s := Exec(w, actions).store;
            && s.sends[i] in s.attempts && s.attempts[s.sends[i]] == AttemptRetryable
            && s.sends[i] in s.replies && s.replies[s.sends[i]].Some?
            && s.replies[s.sends[i]].value.Failed?
            && DispositionOf(s.replies[s.sends[i]].value.error.category) in {SendRetryable, SendFatal}
  {
    FreshIsOk(w);
    RunKeepsInv(w, actions);
    ChannelStays(w, actions);
    var s := Exec(w, actions).store;
    assert Settled(s, s.sends[i]);
  }

  lemma {:induction false} ChannelStays(w: World, actions: seq<Action>)
    requires Legal(w, actions)
    ensures Exec(w, actions).store.channel == w.store.channel
    decreases |actions|
  {
    if actions != [] {
      ChannelStays(Apply(w, actions[0]), actions[1..]);
    }
  }

  /** A queue message is deleted only once the delivery has ended, and it stays ended. */
  lemma DeleteMeansTerminal(w: World, actions: seq<Action>, more: seq<Action>, id: nat)
    requires Fresh(w) && Legal(w, actions) && Legal(Exec(w, actions), more)
    requires id in Exec(w, actions).workers
    requires Exec(w, actions).workers[id].Done? && Exec(w, actions).workers[id].decision.action == Delete
    ensures Terminal(Exec(w, actions).store.row.state)
    ensures Terminal(Exec(Exec(w, actions), more).store.row.state)
  {
    FreshIsOk(w);
    RunKeepsInv(w, actions);
    assert PcOk(Exec(w, actions).store, Exec(w, actions).workers[id]);
    TerminalStays(Exec(w, actions), more);
  }

  lemma {:induction false} TerminalStays(w: World, actions: seq<Action>)
    requires Inv(w) && Terminal(w.store.row.state) && Legal(w, actions)
    ensures Terminal(Exec(w, actions).store.row.state)
    decreases |actions|
  {
    if actions != [] {
      var a := actions[0];
      ActionKeepsInv(w, a);
      TerminalStep(w, a);
      TerminalStays(Apply(w, a), actions[1..]);
    }
  }

  lemma TerminalStep(w: World, a: Action)
    requires Inv(w) && Terminal(w.store.row.state) && Possible(w, a)
    ensures Terminal(Apply(w, a).store.row.state)
  {
    if a.Worker? && !Calls(a.step) {
      QuietStepKeeps(w.store, w.workers[a.id], a.step);
    } else if a.Feedback? {
      FeedbackKeeps(w.store, a);
    }
  }

  /** What the store would check of a worker's next request. */
  ghost predicate Acceptable(s: Store, pc: Pc) {
    match pc
    case Completing(row, c, _) => ValidCompletion(s.channel, row, c)
    case Preflighting(row, now, p) => ValidPreflight(row, now, p)
    case Reconciled(row) =>
      && Allowed(row.state, RetryableFailed) && Allowed(row.state, Cancelled)
      && (MustFinalize(row) ==>
            Allowed(row.state, Unknown) && (row.possiblyAccepted || row.providerOutcome == Some(Delayed)))
    case Claimed(row, _) => Allowed(row.state, RetryableFailed)
    case Ready(row, _, _) => Allowed(row.state, Processing)
    case _ => true
  }

  /** Every next state a worker asks for is allowed from `processing`, and the store's validation of
      completions, preflight failures and final uncertainty never turns a worker down. */
  lemma RequestsAreAcceptable(w: World, actions: seq<Action>, id: nat)
    requires Fresh(w) && Legal(w, actions) && id in Exec(w, actions).workers
    ensures Acceptable(Exec(w, actions).store, Exec(w, actions).workers[id])
  {
    FreshIsOk(w);
    RunKeepsInv(w, actions);
    assert PcOk(Exec(w, actions).store, Exec(w, actions).workers[id]);
  }
}
