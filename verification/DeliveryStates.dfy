/**
 The durable vocabulary of a notification delivery: its states and the transitions between them, the
 outcomes of an attempt and what the mail provider reports later.
 */
module DeliveryStates {
  import opened Wrappers

  datatype Channel = Email | Telegram

  datatype DeliveryState =
    | WaitingDependency | Pending | Queued | Processing | RetryableFailed
    | Succeeded | PermanentFailed | Cancelled | Unknown

  datatype AttemptOutcome =
    | Started | AttemptSucceeded | AttemptRetryable | AttemptAmbiguous | AttemptPermanentFailed

  datatype ProviderOutcome =
    | Accepted | DeliveredToMailServer | Delayed | SoftBounced | HardBounced | Complained | Rejected

  /** A delivery row.  An attribute that may be missing is an option; a missing count or epoch is zero. */
  datatype Row = Row(
    state: DeliveryState, revision: nat, attemptCount: nat, lastAttempt: Option<nat>,
    owner: Option<nat>, epoch: nat, leaseExpires: Option<int>, nextAttemptAt: Option<int>,
    providerOutcome: Option<ProviderOutcome>,
    possiblyAccepted: bool, ambiguousExhausted: bool, awaitingIntervention: bool)

  predicate Terminal(s: DeliveryState) {
    s in {Succeeded, PermanentFailed, Cancelled, Unknown}
  }

  /** The transition table. */
  function Successors(s: DeliveryState): set<DeliveryState> {
    match s
    case WaitingDependency => {Pending, Cancelled}
    case Pending => {Queued, Cancelled}
    case Queued => {Processing, Cancelled}
    case Processing => {RetryableFailed, Succeeded, PermanentFailed, Cancelled, Unknown}
    case RetryableFailed => {Processing, Cancelled}
    case _ => {}
  }

  /** What `ApplyTransition` accepts: staying put, or a step of the table. */
  predicate Allowed(s: DeliveryState, next: DeliveryState) {
    s == next || next in Successors(s)
  }

  predicate AcceptsFeedback(s: DeliveryState) {
    s !in {WaitingDependency, Pending, Queued}
  }

  function ReconcileState(s: DeliveryState, incoming: ProviderOutcome): DeliveryState
    requires AcceptsFeedback(s)
  {
    if s in {Cancelled, PermanentFailed} then s
    else if incoming == Rejected then PermanentFailed
    else if incoming == Delayed then s
    else Succeeded
  }

  function Rank(o: ProviderOutcome): nat {
    match o
    case Accepted => 1
    case Delayed => 2
    case SoftBounced => 3
    case DeliveredToMailServer => 4
    case Rejected => 5
    case HardBounced => 6
    case Complained => 7
  }

  function ReconcileOutcome(current: Option<ProviderOutcome>, incoming: ProviderOutcome): ProviderOutcome {
    if current.None? || Rank(incoming) > Rank(current.value) then incoming else current.value
  }
}
