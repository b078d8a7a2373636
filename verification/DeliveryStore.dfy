/**
 Delivery workers as a state machine.  The shared state is one delivery row, its attempt rows and the
 calls the provider has seen; each worker is a program counter holding what it has read.  Every read
 and every conditional write of `Handle` and of its store is a step of its own, a worker may stop
 between any two steps, and a write may take effect without its answer arriving.  Nothing is assumed
 about clocks: every time in a step is arbitrary.
 */
module DeliveryStore {
  import opened Wrappers
  import opened DeliveryStates
  import opened DeliveryPolicy

  /** `sends` lists the attempts the provider was called for, in order; `replies` holds each call's
      answer, or none when the worker died before it arrived. */
  datatype Store = Store(
    channel: Channel, row: Row, attempts: map<nat, AttemptOutcome>,
    sends: seq<nat>, replies: map<nat, Option<SendResult>>)

  datatype Pc =
    | Idle
    | Seen(row: Row, now: int)
    | Ready(row: Row, now: int, started: Option<nat>)
    | Claimed(row: Row, started: Option<nat>)
    | Reconciled(row: Row)
    | Sending(row: Row, attempt: nat)
    | Completing(row: Row, completion: Completion, decision: Decision)
    | Reconciling(row: Row, completion: Completion, decision: Decision)
    | Beside(row: Row, completion: Completion, decision: Decision, terminal: Row)
    | Preflighting(row: Row, now: int, plan: Plan)
    | Rechecking(decision: Decision)
    | Done(decision: Decision)

  datatype World = World(store: Store, workers: map<nat, Pc>)

  /** One step of a worker.  `answered` is false when a write took effect and its answer was lost. */
  datatype Step =
    | Read(now: int)
    | Repair(now: int)
    | LoadAttempt
    | Claim(owner: nat, expires: int, answered: bool)
    | TakeOver(at: int, fraction: real)
    | Proceed
    | Refresh
    | Finalize(answered: bool)
    | Defer(next: int)
    | Cancel(answered: bool)
    | Renew(expires: int)
    | Preflight(result: SendResult, at: int, fraction: real)
    | CommitPreflight(answered: bool)
    | Recheck
    | Begin(attempt: nat, requiredUntil: int, answered: bool)
    | SendEmail(result: SendResult, at: int, fraction: real)
    | SendTelegram(response: Response, at: int, fraction: real)
    | SendUnanswered
    | Complete(answered: bool)
    | Refused
    | Reload
    | Resubmit
    | FinishBeside
    | Stop

  datatype Action =
    | Worker(id: nat, step: Step)
    | Relay(next: DeliveryState)
    | Feedback(attempt: nat, event: ProviderOutcome, owns: bool, acceptedElsewhere: bool,
               recorded: Option<ProviderOutcome>)

  datatype Next = Next(store: Store, pc: Pc)

  // Conditions and effects of the writes

  predicate CanClaim(row: Row, seen: Row, now: int) {
    && row.state == seen.state && row.revision == seen.revision
    && (seen.state == Processing ==> row.leaseExpires.Some? && row.leaseExpires.value <= now)
  }

  function AfterClaim(row: Row, seen: Row, owner: nat, expires: int): Row {
    row.(state := Processing, revision := seen.revision + 1, owner := Some(owner), epoch := seen.epoch + 1,
         leaseExpires := Some(expires), nextAttemptAt := None, awaitingIntervention := false)
  }

  /** The fence of every write of a claimed delivery. */
  predicate Fenced(row: Row, claimed: Row) {
    row.state == Processing && row.revision == claimed.revision && row.owner == claimed.owner
    && row.epoch == claimed.epoch
  }

  function Released(row: Row, claimed: Row, state: DeliveryState, nextAttemptAt: Option<int>): Row {
    row.(state := state, revision := claimed.revision + 1, owner := None, leaseExpires := None,
         nextAttemptAt := nextAttemptAt)
  }

  function AfterFinalize(row: Row, claimed: Row): Row {
    Released(row, claimed, Unknown, None).(possiblyAccepted := true, ambiguousExhausted := false)
  }

  function AfterCancel(row: Row, claimed: Row): Row {
    Released(row, claimed, Cancelled, None).(awaitingIntervention := false)
  }

  function AfterPreflight(row: Row, claimed: Row, p: Plan): Row {
    Released(row, claimed, p.nextState, p.nextAttemptAt).(
      possiblyAccepted := p.possiblyAccepted, ambiguousExhausted := p.ambiguousExhausted,
      awaitingIntervention := p.awaitingIntervention)
  }

  predicate CanBegin(s: Store, claimed: Row, attempt: nat, requiredUntil: int) {
    && Fenced(s.row, claimed)
    && s.row.leaseExpires.Some? && requiredUntil <= s.row.leaseExpires.value
    && s.row.attemptCount == claimed.attemptCount
    && attempt !in s.attempts
  }

  function AfterBegin(row: Row, claimed: Row, attempt: nat): Row {
    row.(revision := claimed.revision + 1, attemptCount := claimed.attemptCount + 1, lastAttempt := Some(attempt))
  }

  predicate CanComplete(s: Store, claimed: Row, c: Completion) {
    && Fenced(s.row, claimed)
    && s.row.attemptCount == claimed.attemptCount && s.row.lastAttempt == Some(c.attempt)
    && c.attempt in s.attempts && s.attempts[c.attempt] == Started
  }

  function AfterComplete(row: Row, claimed: Row, c: Completion): Row {
    Released(row, claimed, c.nextState, c.nextAttemptAt).(
      possiblyAccepted := c.possiblyAccepted || claimed.possiblyAccepted,
      ambiguousExhausted := c.ambiguousExhausted, awaitingIntervention := c.awaitingIntervention,
      providerOutcome := if c.providerOutcome.Some? then c.providerOutcome else row.providerOutcome)
  }

  /** Delayed feedback that arrived between the call and its completion does not stop a success. */
  predicate Mergeable(row: Row, claimed: Row, c: Completion) {
    && c.outcome == AttemptSucceeded
    && row.state == Processing && row.revision > claimed.revision
    && row.owner == claimed.owner && row.epoch == claimed.epoch && row.attemptCount == claimed.attemptCount
    && row.lastAttempt == Some(c.attempt) && row.providerOutcome == Some(Delayed)
  }

  function AttemptAfterFeedback(o: AttemptOutcome, e: ProviderOutcome): AttemptOutcome {
    if o !in {Started, AttemptRetryable, AttemptAmbiguous} || e == Delayed then o
    else if e == Rejected then AttemptPermanentFailed
    else AttemptSucceeded
  }

  function AfterFeedback(row: Row, e: ProviderOutcome, acceptedElsewhere: bool, recorded: Option<ProviderOutcome>): Row
    requires AcceptsFeedback(row.state)
  {
    var state := ReconcileState(row.state, if e == Rejected && acceptedElsewhere then Accepted else e);
    var next := row.(state := state, revision := row.revision + 1, providerOutcome := recorded);
    if state in {Processing, RetryableFailed} then next
    else next.(owner := None, leaseExpires := None, nextAttemptAt := None,
               ambiguousExhausted := false, awaitingIntervention := false)
  }

  // The worker

  /** Evidence that an earlier attempt may have been accepted: look again before sending. */
  predicate NeedsRefresh(row: Row) {
    row.possiblyAccepted || row.ambiguousExhausted || row.providerOutcome == Some(Delayed)
  }

  predicate MustFinalize(row: Row) { row.ambiguousExhausted || row.providerOutcome == Some(Delayed) }

  predicate MaySend(row: Row) { !MustFinalize(row) && row.attemptCount < MAX_PROVIDER_CALLS }

  predicate Due(row: Row, now: int) {
    match row.state
    case Queued => true
    case RetryableFailed => row.nextAttemptAt.Some? ==> row.nextAttemptAt.value <= now
    case Processing => row.leaseExpires.Some? && row.leaseExpires.value <= now
    case _ => false
  }

  function Concurrent(d: Decision): Decision { if d.action == Fatal then d else Decision(Delete, 0) }

  predicate Enabled(s: Store, pc: Pc, step: Step) {
    match step
    case Read(_) | Repair(_) => pc.Idle?
    case LoadAttempt => pc.Seen?
    case Claim(_, _, _) => pc.Ready?
    case TakeOver(_, _) => pc.Claimed? && pc.started.Some?
    case Proceed => pc.Claimed? && pc.started.None? && !NeedsRefresh(pc.row)
    case Refresh => pc.Claimed? && pc.started.None? && NeedsRefresh(pc.row)
    case Finalize(_) => pc.Reconciled? && MustFinalize(pc.row)
    case Defer(_) => (pc.Claimed? && pc.started.None? && NeedsRefresh(pc.row)) || (pc.Reconciled? && MaySend(pc.row))
    case Cancel(_) | Renew(_) | Begin(_, _, _) => pc.Reconciled? && MaySend(pc.row)
    case Preflight(result, _, _) =>
      && pc.Reconciled? && !MustFinalize(pc.row)
      && (pc.row.attemptCount >= MAX_PROVIDER_CALLS ==> result == Error(CallLimitExhausted))
    case CommitPreflight(_) => pc.Preflighting?
    case Recheck => pc.Rechecking?
    case SendEmail(_, _, _) => pc.Sending? && s.channel == Email
    case SendTelegram(response, _, _) => pc.Sending? && s.channel == Telegram && WellFormedResponse(response)
    case SendUnanswered => pc.Sending?
    case Complete(_) => pc.Completing?
    case Refused => pc.Completing? || pc.Preflighting?
    case Reload | Resubmit => pc.Reconciling?
    case FinishBeside => pc.Beside? && pc.completion.attempt in s.attempts
    case Stop => true
  }

  function OnRead(s: Store, now: int): Pc {
    if Terminal(s.row.state) then Done(Decision(Delete, 0))
    else if Due(s.row, now) then Seen(s.row, now)
    else Idle
  }

  /** A pending row is queued by the worker itself when its publication was never recorded. */
  function OnRepair(s: Store, now: int): Next {
    if s.row.state == Pending then
      var row := s.row.(state := Queued, revision := s.row.revision + 1);
      Next(s.(row := row), Seen(row, now))
    else Next(s, Idle)
  }

  function OnLoadAttempt(s: Store, seen: Row, now: int): Pc {
    if seen.state != Processing || seen.lastAttempt.None? then Ready(seen, now, None)
    else if seen.lastAttempt.value !in s.attempts then Idle
    else
      match s.attempts[seen.lastAttempt.value]
      case Started => Ready(seen, now, seen.lastAttempt)
      case AttemptRetryable | AttemptAmbiguous => Ready(seen, now, None)
      case _ => Idle
  }

  function OnClaim(s: Store, seen: Row, now: int, started: Option<nat>, owner: nat, expires: int,
                   answered: bool): Next {
    if !CanClaim(s.row, seen, now) then Next(s, Idle)
    else
      var row := AfterClaim(s.row, seen, owner, expires);
      Next(s.(row := row), if answered then Claimed(row, started) else Idle)
  }

  function OnRefresh(s: Store, claimed: Row, pc: Pc): Pc {
    if Terminal(s.row.state) then Done(Decision(Delete, 0))
    else if Fenced(s.row, claimed) then Reconciled(s.row)
    else pc
  }

  function OnBegin(s: Store, claimed: Row, attempt: nat, requiredUntil: int, answered: bool): Next {
    if !CanBegin(s, claimed, attempt, requiredUntil) then Next(s, Idle)
    else
      var row := AfterBegin(s.row, claimed, attempt);
      Next(s.(row := row, attempts := s.attempts[attempt := Started]),
           if answered then Sending(AfterBegin(claimed, claimed, attempt), attempt) else Idle)
  }

  function OnSend(s: Store, claimed: Row, attempt: nat, result: SendResult, at: int, fraction: real): Next {
    var o := Finish(s.channel, claimed, attempt, at, result, fraction);
    Next(s.(sends := s.sends + [attempt], replies := s.replies[attempt := Some(result)]),
         Completing(claimed, o.completion, o.decision))
  }

  function OnComplete(s: Store, claimed: Row, c: Completion, d: Decision, answered: bool): Next {
    if !CanComplete(s, claimed, c) then Next(s, Reconciling(claimed, c, d))
    else
      Next(s.(row := AfterComplete(s.row, claimed, c), attempts := s.attempts[c.attempt := c.outcome]),
           if answered then Done(d) else Reconciling(claimed, c, d))
  }

  function OnReload(s: Store, claimed: Row, c: Completion, d: Decision): Pc {
    if Terminal(s.row.state) then Beside(claimed, c, d, s.row)
    else if Mergeable(s.row, claimed, c) then Completing(s.row, c, d)
    else Idle
  }

  /** A terminal delivery keeps its state; only the attempt's own row is completed. */
  function OnFinishBeside(s: Store, pc: Pc): Next
    requires pc.Beside? && pc.completion.attempt in s.attempts
  {
    var c := pc.completion;
    if s.attempts[c.attempt] != Started then Next(s, Done(Concurrent(pc.decision)))
    else if s.row.state == pc.terminal.state && s.row.revision == pc.terminal.revision then
      Next(s.(attempts := s.attempts[c.attempt := c.outcome]), Done(Concurrent(pc.decision)))
    else Next(s, Idle)
  }

  function OnRelease(s: Store, claimed: Row, row: Row, after: Pc, refused: Pc): Next {
    if Fenced(s.row, claimed) then Next(s.(row := row), after) else Next(s, refused)
  }

  function StepOf(s: Store, pc: Pc, step: Step): Next
    requires Enabled(s, pc, step)
  {
    match step
    case Read(now) => Next(s, OnRead(s, now))
    case Repair(now) => OnRepair(s, now)
    case LoadAttempt => Next(s, OnLoadAttempt(s, pc.row, pc.now))
    case Claim(owner, expires, answered) => OnClaim(s, pc.row, pc.now, pc.started, owner, expires, answered)
    case TakeOver(at, fraction) =>
      var o := Interrupted(s.channel, pc.row, pc.started.value, at, fraction);
      Next(s, Completing(pc.row, o.completion, o.decision))
    case Proceed => Next(s, Reconciled(pc.row))
    case Refresh => Next(s, OnRefresh(s, pc.row, pc))
    case Finalize(answered) =>
      OnRelease(s, pc.row, AfterFinalize(s.row, pc.row), if answered then Done(Decision(Delete, 0)) else Idle, Idle)
    case Defer(next) =>
      OnRelease(s, pc.row, Released(s.row, pc.row, RetryableFailed, Some(next)), Idle, Idle)
    case Cancel(answered) =>
      OnRelease(s, pc.row, AfterCancel(s.row, pc.row), if answered then Done(Decision(Delete, 0)) else Idle, Idle)
    case Renew(expires) =>
      if Fenced(s.row, pc.row) && s.row.leaseExpires.Some? && s.row.leaseExpires.value < expires
      then Next(s.(row := s.row.(leaseExpires := Some(expires))), pc) else Next(s, pc)
    case Preflight(result, at, fraction) =>
      var plan := PlanDefinitiveFailure(pc.row, PreflightCategory(result), at, fraction).value;
      Next(s, Preflighting(pc.row, at, plan))
    case CommitPreflight(answered) =>
      OnRelease(s, pc.row, AfterPreflight(s.row, pc.row, pc.plan),
                if answered then Done(pc.plan.decision) else Rechecking(pc.plan.decision), Rechecking(pc.plan.decision))
    case Recheck => Next(s, if Terminal(s.row.state) then Done(Concurrent(pc.decision)) else Idle)
    case Begin(attempt, requiredUntil, answered) => OnBegin(s, pc.row, attempt, requiredUntil, answered)
    case SendEmail(result, at, fraction) => OnSend(s, pc.row, pc.attempt, result, at, fraction)
    case SendTelegram(response, at, fraction) => OnSend(s, pc.row, pc.attempt, Classify(response), at, fraction)
    case SendUnanswered =>
      Next(s.(sends := s.sends + [pc.attempt], replies := s.replies[pc.attempt := None]), Idle)
    case Complete(answered) => OnComplete(s, pc.row, pc.completion, pc.decision, answered)
    case Refused =>
      Next(s, if pc.Completing? then Reconciling(pc.row, pc.completion, pc.decision) else Rechecking(pc.plan.decision))
    case Reload => Next(s, OnReload(s, pc.row, pc.completion, pc.decision))
    case Resubmit => Next(s, Completing(pc.row, pc.completion, pc.decision))
    case FinishBeside => OnFinishBeside(s, pc)
    case Stop => Next(s, Idle)
  }

  // Runs

  predicate Possible(w: World, a: Action) {
    match a
    case Worker(id, step) => id in w.workers && Enabled(w.store, w.workers[id], step)
    case Relay(next) => w.store.row.state in {WaitingDependency, Pending} && next in Successors(w.store.row.state)
    case Feedback(attempt, _, _, _, _) =>
      w.store.channel == Email && attempt in w.store.attempts && AcceptsFeedback(w.store.row.state)
  }

  function AfterEvent(s: Store, a: Action): Store
    requires !a.Worker?
    requires a.Feedback? ==> a.attempt in s.attempts && AcceptsFeedback(s.row.state)
  {
    match a
    case Relay(next) => s.(row := s.row.(state := next, revision := s.row.revision + 1))
    case Feedback(attempt, event, owns, acceptedElsewhere, recorded) =>
      s.(attempts := s.attempts[attempt := AttemptAfterFeedback(s.attempts[attempt], event)],
         row := if owns then AfterFeedback(s.row, event, acceptedElsewhere, recorded) else s.row)
  }

  function Apply(w: World, a: Action): World
    requires Possible(w, a)
  {
    if a.Worker? then
      var next := StepOf(w.store, w.workers[a.id], a.step);
      World(next.store, w.workers[a.id := next.pc])
    else World(AfterEvent(w.store, a), w.workers)
  }

  ghost predicate Legal(w: World, actions: seq<Action>)
    decreases |actions|
  {
    actions == [] || (Possible(w, actions[0]) && Legal(Apply(w, actions[0]), actions[1..]))
  }

  ghost function Exec(w: World, actions: seq<Action>): World
    requires Legal(w, actions)
    decreases |actions|
  {
    if actions == [] then w else Exec(Apply(w, actions[0]), actions[1..])
  }

  /** A delivery as fan-out creates it, with any number of workers at rest. */
  ghost predicate Fresh(w: World) {
    && w.store.row.state in {WaitingDependency, Pending, Cancelled}
    && w.store.row.attemptCount == 0 && w.store.row.lastAttempt.None?
    && !w.store.row.possiblyAccepted && !w.store.row.ambiguousExhausted
    && w.store.attempts == map[] && w.store.sends == [] && w.store.replies == map[]
    && (forall id :: id in w.workers ==> w.workers[id] == Idle)
  }
}
