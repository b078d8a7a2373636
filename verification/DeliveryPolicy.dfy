/**
 What a delivery worker decides: how long to wait before the next attempt, what a sender's answer
 means, and which mutation and queue decision follow.  Durations are nanoseconds.
 */
module DeliveryPolicy {
  import opened Wrappers
  import opened DeliveryStates

  const MAX_PROVIDER_CALLS: nat := 5
  const SECOND := 1_000_000_000
  const MINUTE := 60 * SECOND
  const RETRY_BASE := 30 * SECOND
  const RETRY_MAXIMUM := 15 * MINUTE
  const AMBIGUOUS_GRACE := 2 * MINUTE
  const MAX_VISIBILITY := 12 * 60 * MINUTE

  datatype Category =
    | PermanentRecipient | CallLimitExhausted
    | Throttling | Quota | ServiceUnavailable | RetryableUnknown
    | AmbiguousTimeout | AmbiguousReset
    | AccountSuspended | FromIdentity | ConfigurationSet | Credentials
    | TelegramRateLimited | TelegramDestinationUnavailable | TelegramCredentials | TelegramAmbiguous
    | Unrecognised

  datatype Disposition = SendRetryable | SendPermanent | SendAmbiguous | SendFatal | SendInvalid

  function DispositionOf(c: Category): Disposition {
    match c
    case PermanentRecipient | CallLimitExhausted | TelegramDestinationUnavailable => SendPermanent
    case AmbiguousTimeout | AmbiguousReset | TelegramAmbiguous => SendAmbiguous
    case AccountSuspended | FromIdentity | ConfigurationSet | Credentials | TelegramCredentials => SendFatal
    case Throttling | Quota | ServiceUnavailable | RetryableUnknown | TelegramRateLimited => SendRetryable
    case Unrecognised => SendInvalid
  }

  datatype SendError = SendError(category: Category, retryAfter: int, noAutomaticRetry: bool)

  /** A sender's answer.  Message identifiers are positive; any other number stands for a missing one. */
  datatype SendResult = Sent(message: int) | Failed(error: SendError) | ForeignError

  datatype QueueAction = Delete | ChangeVisibility | Fatal
  datatype Decision = Decision(action: QueueAction, visibility: int)

  datatype Completion = Completion(
    attempt: nat, completedAt: int, outcome: AttemptOutcome, category: Option<Category>,
    providerOutcome: Option<ProviderOutcome>, message: Option<int>,
    nextState: DeliveryState, nextAttemptAt: Option<int>,
    possiblyAccepted: bool, ambiguousExhausted: bool, awaitingIntervention: bool, suppressDestination: bool)

  datatype Outcome = Outcome(completion: Completion, decision: Decision)

  // Back-off

  function Pow2(n: nat): (r: nat)
    ensures r >= 1
  {
    if n == 0 then 1 else 2 * Pow2(n - 1)
  }

  lemma {:induction false} Pow2Grows(m: nat, n: nat)
    requires m <= n
    ensures Pow2(m) <= Pow2(n)
    decreases n
  {
    if m < n {
      Pow2Grows(m, n - 1);
    }
  }

  /** Full exponential back-off: 30 seconds doubled per earlier retry, at most 15 minutes. */
  function CapOf(retry: int): int {
    if retry < 1 then 0
    else if RETRY_BASE * Pow2(retry - 1) < RETRY_MAXIMUM then RETRY_BASE * Pow2(retry - 1)
    else RETRY_MAXIMUM
  }

  method RetryCap(retry: int) returns (cap: int)
    ensures cap == CapOf(retry)
  {
    if retry < 1 {
      return 0;
    }
    cap := RETRY_BASE;
    var index := 1;
    while index < retry && cap < RETRY_MAXIMUM
      invariant 1 <= index <= retry
      invariant cap == RETRY_BASE * Pow2(index - 1)
      invariant cap <= RETRY_MAXIMUM
    {
      if cap > RETRY_MAXIMUM / 2 {
        Pow2Grows(index, retry - 1);
        return RETRY_MAXIMUM;
      }
      cap := cap * 2;
      index := index + 1;
    }
    Pow2Grows(index - 1, retry - 1);
    if cap > RETRY_MAXIMUM {
      return RETRY_MAXIMUM;
    }
  }

  function Clamped(fraction: real): real {
    if fraction < 0.0 then 0.0 else if fraction >= 1.0 then 0.9999999999999999 else fraction
  }

  function FullJitter(retry: int, fraction: real): int {
    (CapOf(retry) as real * Clamped(fraction)).Floor
  }

  function RetryDelay(retry: int, ambiguous: bool, fraction: real): int {
    FullJitter(retry, fraction) + (if ambiguous then AMBIGUOUS_GRACE else 0)
  }

  lemma FractionOfCap(cap: int, fraction: real)
    requires 0 <= cap && 0.0 <= fraction < 1.0
    ensures 0 <= (cap as real * fraction).Floor <= cap
  {
    assert 0.0 <= cap as real * fraction;
    assert cap as real * fraction <= cap as real * 1.0;
  }

  /** Whatever the jitter source returns, a delay lies between zero (two minutes after an ambiguous
      answer) and that plus the exponential cap, and never exceeds 17 minutes. */
  lemma DelayIsBounded(retry: int, ambiguous: bool, fraction: real)
    ensures var grace := if ambiguous then AMBIGUOUS_GRACE else 0;
            grace <= RetryDelay(retry, ambiguous, fraction) <= grace + CapOf(retry) <= grace + RETRY_MAXIMUM
  {
    FractionOfCap(CapOf(retry), Clamped(fraction));
  }

  /** The queue takes whole seconds, at least one and at most twelve hours. */
  function NormalizedVisibility(delay: int): (r: int)
    ensures r % SECOND == 0 && SECOND <= r <= MAX_VISIBILITY
    ensures 0 < delay <= MAX_VISIBILITY ==> delay <= r < delay + SECOND
    ensures delay > MAX_VISIBILITY ==> r == MAX_VISIBILITY
  {
    if delay <= 0 then SECOND
    else
      var seconds := (delay + SECOND - 1) / SECOND;
      (if seconds > MAX_VISIBILITY / SECOND then MAX_VISIBILITY / SECOND else seconds) * SECOND
  }

  // Decisions

  datatype Plan = Plan(
    nextState: DeliveryState, nextAttemptAt: Option<int>,
    possiblyAccepted: bool, ambiguousExhausted: bool, awaitingIntervention: bool, decision: Decision)

  /** Definitive failures: permanent ones end the delivery unless an earlier attempt may have been
      accepted; fatal ones wait for an operator. */
  function PlanDefinitiveFailure(row: Row, c: Category, now: int, fraction: real): (plan: Option<Plan>)
    ensures plan.Some? <==> DispositionOf(c) in {SendPermanent, SendFatal}
  {
    match DispositionOf(c)
    case SendPermanent =>
      if !row.possiblyAccepted then
        Some(Plan(PermanentFailed, None, false, false, false, Decision(Delete, 0)))
      else
        var delay := RetryDelay(row.attemptCount, true, fraction);
        Some(Plan(RetryableFailed, Some(now + delay), true, true, false,
                  Decision(ChangeVisibility, NormalizedVisibility(delay))))
    case SendFatal =>
      Some(Plan(RetryableFailed, Some(now + 15 * MINUTE), row.possiblyAccepted, false, true,
                Decision(Fatal, 15 * MINUTE)))
    case _ => None
  }

  const UNKNOWN_ERROR := SendError(RetryableUnknown, 0, false)

  predicate Confirmed(result: SendResult) { result.Sent? && result.message > 0 }

  /** The error a worker works with: anything it does not recognise is a retryable unknown error. */
  function ErrorOf(result: SendResult): (e: SendError)
    ensures DispositionOf(e.category) != SendInvalid
  {
    match result
    case Failed(e) => if DispositionOf(e.category) == SendInvalid then UNKNOWN_ERROR else e
    case _ => UNKNOWN_ERROR
  }

  function SuccessOf(attempt: nat, now: int, message: int): Outcome {
    Outcome(
      Completion(attempt, now, AttemptSucceeded, None, Some(Accepted), Some(message), Succeeded, None,
                 false, false, false, false),
      Decision(Delete, 0))
  }

  function DefinitiveOf(channel: Channel, attempt: nat, now: int, c: Category, p: Plan): Outcome {
    Outcome(
      Completion(attempt, now, if DispositionOf(c) == SendPermanent then AttemptPermanentFailed else AttemptRetryable,
                 Some(c), None, None, p.nextState, p.nextAttemptAt,
                 p.possiblyAccepted, p.ambiguousExhausted, p.awaitingIntervention,
                 c == TelegramDestinationUnavailable && channel == Telegram),
      p.decision)
  }

  function RetryOf(row: Row, attempt: nat, now: int, e: SendError, fraction: real): Outcome {
    if row.attemptCount < MAX_PROVIDER_CALLS then
      var delay := RetryDelay(row.attemptCount, false, fraction);
      var wait := if e.retryAfter > delay then e.retryAfter else delay;
      Outcome(
        Completion(attempt, now, AttemptRetryable, Some(e.category), None, None, RetryableFailed, Some(now + wait),
                   false, false, false, false),
        Decision(ChangeVisibility, NormalizedVisibility(wait)))
    else if row.possiblyAccepted then
      var delay := RetryDelay(row.attemptCount, true, fraction);
      Outcome(
        Completion(attempt, now, AttemptRetryable, Some(e.category), None, None, RetryableFailed, Some(now + delay),
                   true, true, false, false),
        Decision(ChangeVisibility, NormalizedVisibility(delay)))
    else
      Outcome(
        Completion(attempt, now, AttemptRetryable, Some(e.category), None, None, PermanentFailed, None,
                   false, false, false, false),
        Decision(Delete, 0))
  }

  function AmbiguousOf(row: Row, attempt: nat, now: int, e: SendError, fraction: real): Outcome {
    if e.noAutomaticRetry then
      Outcome(
        Completion(attempt, now, AttemptAmbiguous, Some(e.category), None, None, Unknown, None, true, true, false,
                   false),
        Decision(Delete, 0))
    else
      var delay := RetryDelay(row.attemptCount, true, fraction);
      Outcome(
        Completion(attempt, now, AttemptAmbiguous, Some(e.category), None, None, RetryableFailed, Some(now + delay),
                   true, row.attemptCount >= MAX_PROVIDER_CALLS, false, false),
        Decision(ChangeVisibility, NormalizedVisibility(delay)))
  }

  /** What a worker requests after a provider call. */
  function Finish(channel: Channel, row: Row, attempt: nat, now: int, result: SendResult, fraction: real): Outcome {
    if Confirmed(result) then SuccessOf(attempt, now, result.message)
    else
      var e := ErrorOf(result);
      var disposition := DispositionOf(e.category);
      if disposition == SendRetryable then RetryOf(row, attempt, now, e, fraction)
      else if disposition == SendAmbiguous then AmbiguousOf(row, attempt, now, e, fraction)
      else DefinitiveOf(channel, attempt, now, e.category, PlanDefinitiveFailure(row, e.category, now, fraction).value)
  }

  /** What a worker requests when it inherits an attempt whose fate nobody recorded. */
  function Interrupted(channel: Channel, row: Row, attempt: nat, now: int, fraction: real): Outcome {
    match channel
    case Telegram => AmbiguousOf(row, attempt, now, SendError(TelegramAmbiguous, 0, true), fraction)
    case Email => AmbiguousOf(row, attempt, now, SendError(AmbiguousReset, 0, false), fraction)
  }

  /** The error a failed preflight is treated as: anything not definitive is a configuration error. */
  function PreflightCategory(result: SendResult): Category {
    var c := if result.Failed? then result.error.category else RetryableUnknown;
    if DispositionOf(c) in {SendPermanent, SendFatal} then c else ConfigurationSet
  }

  // The store's own checks on what it is asked

  predicate ValidOutcome(c: Completion) {
    && (match c.outcome
        case AttemptSucceeded =>
          c.nextState == Succeeded && c.message.Some? && c.providerOutcome == Some(Accepted) && c.category.None?
        case AttemptPermanentFailed =>
          && c.category.Some?
          && (c.nextState == PermanentFailed
              || (c.nextState == RetryableFailed && c.possiblyAccepted && c.ambiguousExhausted
                  && c.nextAttemptAt.Some?))
        case AttemptRetryable =>
          c.nextState in {RetryableFailed, PermanentFailed} && c.category.Some?
        case AttemptAmbiguous =>
          && c.possiblyAccepted
          && ((c.nextState == RetryableFailed && c.nextAttemptAt.Some?)
              || (c.nextState == Unknown && c.ambiguousExhausted && c.nextAttemptAt.None?))
        case Started => false)
    && (c.nextState == RetryableFailed ==> c.nextAttemptAt.Some?)
  }

  predicate ValidCompletion(channel: Channel, row: Row, c: Completion) {
    && row.lastAttempt == Some(c.attempt)
    && Allowed(row.state, c.nextState)
    && ValidOutcome(c)
    && (c.suppressDestination ==>
          && channel == Telegram && c.outcome == AttemptPermanentFailed && c.nextState == PermanentFailed
          && c.category == Some(TelegramDestinationUnavailable))
  }

  predicate ValidPreflight(row: Row, now: int, p: Plan) {
    && Allowed(row.state, p.nextState)
    && (row.possiblyAccepted ==> p.possiblyAccepted)
    && (match p.nextState
        case PermanentFailed =>
          p.nextAttemptAt.None? && !p.possiblyAccepted && !p.ambiguousExhausted && !p.awaitingIntervention
        case RetryableFailed =>
          && p.nextAttemptAt.Some? && now <= p.nextAttemptAt.value
          && (p.ambiguousExhausted || p.awaitingIntervention)
        case _ => false)
  }

  /** What holds of every request: the queue message goes away exactly when the delivery ends, the
      delivery waits exactly when it can be retried, and exhausted ambiguity is ambiguity. */
  ghost predicate Consistent(nextState: DeliveryState, nextAttemptAt: Option<int>, now: int,
                             possiblyAccepted: bool, ambiguousExhausted: bool, d: Decision) {
    && (d.action == Delete <==> Terminal(nextState))
    && (nextAttemptAt.Some? <==> nextState == RetryableFailed)
    && (nextAttemptAt.Some? ==> now <= nextAttemptAt.value)
    && (ambiguousExhausted ==> possiblyAccepted)
    && (d.action != Delete ==> d.visibility >= SECOND)
  }

  ghost predicate Sound(channel: Channel, row: Row, attempt: nat, now: int, o: Outcome) {
    && ValidCompletion(channel, row, o.completion)
    && o.completion.attempt == attempt
    && Consistent(o.completion.nextState, o.completion.nextAttemptAt, now,
                  o.completion.possiblyAccepted, o.completion.ambiguousExhausted, o.decision)
  }

  lemma RetryIsSound(channel: Channel, row: Row, attempt: nat, now: int, e: SendError, fraction: real)
    requires row.state == Processing && row.lastAttempt == Some(attempt)
    ensures Sound(channel, row, attempt, now, RetryOf(row, attempt, now, e, fraction))
  {
    DelayIsBounded(row.attemptCount, true, fraction);
    DelayIsBounded(row.attemptCount, false, fraction);
  }

  lemma AmbiguousIsSound(channel: Channel, row: Row, attempt: nat, now: int, e: SendError, fraction: real)
    requires row.state == Processing && row.lastAttempt == Some(attempt)
    ensures Sound(channel, row, attempt, now, AmbiguousOf(row, attempt, now, e, fraction))
  {
    DelayIsBounded(row.attemptCount, true, fraction);
  }

  lemma PlanIsSound(row: Row, c: Category, now: int, fraction: real)
    requires row.state == Processing && DispositionOf(c) in {SendPermanent, SendFatal}
    ensures var p := PlanDefinitiveFailure(row, c, now, fraction).value;
            && ValidPreflight(row, now, p)
            && Consistent(p.nextState, p.nextAttemptAt, now, p.possiblyAccepted, p.ambiguousExhausted, p.decision)
            && (DispositionOf(c) == SendPermanent && !row.possiblyAccepted <==> p.nextState == PermanentFailed)
            && (p.ambiguousExhausted <==> DispositionOf(c) == SendPermanent && row.possiblyAccepted)
  {
    DelayIsBounded(row.attemptCount, true, fraction);
  }

  lemma DefinitiveIsSound(channel: Channel, row: Row, attempt: nat, now: int, c: Category, fraction: real)
    requires row.state == Processing && row.lastAttempt == Some(attempt)
    requires DispositionOf(c) in {SendPermanent, SendFatal}
    requires channel == Telegram ==> !row.possiblyAccepted
    ensures Sound(channel, row, attempt, now,
                  DefinitiveOf(channel, attempt, now, c, PlanDefinitiveFailure(row, c, now, fraction).value))
  {
    PlanIsSound(row, c, now, fraction);
  }

  /** Every request that follows a provider call passes the store's checks.  A Telegram delivery that
      may have been accepted never reaches the sender again, so nothing may have been accepted yet. */
  lemma FinishIsSound(channel: Channel, row: Row, attempt: nat, now: int, result: SendResult, fraction: real)
    requires row.state == Processing && row.lastAttempt == Some(attempt)
    requires channel == Telegram ==> !row.possiblyAccepted
    ensures Sound(channel, row, attempt, now, Finish(channel, row, attempt, now, result, fraction))
  {
    var e := ErrorOf(result);
    if !Confirmed(result) {
      if DispositionOf(e.category) == SendRetryable {
        RetryIsSound(channel, row, attempt, now, e, fraction);
      } else if DispositionOf(e.category) == SendAmbiguous {
        AmbiguousIsSound(channel, row, attempt, now, e, fraction);
      } else {
        DefinitiveIsSound(channel, row, attempt, now, e.category, fraction);
      }
    }
  }

  /** What the recorded outcome says about the answer. */
  lemma FinishRecordsTheAnswer(channel: Channel, row: Row, attempt: nat, now: int, result: SendResult, fraction: real)
    ensures var c := Finish(channel, row, attempt, now, result, fraction).completion;
            && (c.outcome == AttemptSucceeded <==> Confirmed(result))
            && (c.nextState == Succeeded <==> Confirmed(result))
            && (c.outcome == AttemptAmbiguous <==>
                  !Confirmed(result) && DispositionOf(ErrorOf(result).category) == SendAmbiguous)
            && (c.outcome == AttemptRetryable <==>
                  !Confirmed(result) && DispositionOf(ErrorOf(result).category) in {SendRetryable, SendFatal})
  {
  }

  /** When a provider call ends the delivery, and how. */
  lemma FinishEndsExactly(channel: Channel, row: Row, attempt: nat, now: int, result: SendResult, fraction: real)
    ensures var c := Finish(channel, row, attempt, now, result, fraction).completion;
            var e := ErrorOf(result);
            && (c.nextState == PermanentFailed <==>
                  !Confirmed(result) && !row.possiblyAccepted
                  && (DispositionOf(e.category) == SendPermanent
                      || (DispositionOf(e.category) == SendRetryable && row.attemptCount >= MAX_PROVIDER_CALLS)))
            && (c.nextState == Unknown <==>
                  !Confirmed(result) && DispositionOf(e.category) == SendAmbiguous && e.noAutomaticRetry)
            && (c.awaitingIntervention <==> !Confirmed(result) && DispositionOf(e.category) == SendFatal)
            && (c.ambiguousExhausted && c.nextState == RetryableFailed ==>
                  row.attemptCount >= MAX_PROVIDER_CALLS || DispositionOf(e.category) == SendPermanent)
  {
  }

  /** A retry waits at least as long as the provider asked and as the back-off says, and the queue
      hides the message until then, or for the twelve hours it can. */
  lemma RetryIsNotEarly(channel: Channel, row: Row, attempt: nat, now: int, result: SendResult, fraction: real)
    requires Finish(channel, row, attempt, now, result, fraction).completion.nextAttemptAt.Some?
    ensures var o := Finish(channel, row, attempt, now, result, fraction);
            var wait := o.completion.nextAttemptAt.value - now;
            && (wait <= MAX_VISIBILITY ==> wait <= o.decision.visibility)
            && (wait > MAX_VISIBILITY ==> o.decision.visibility == MAX_VISIBILITY)
            && (DispositionOf(ErrorOf(result).category) == SendRetryable && row.attemptCount < MAX_PROVIDER_CALLS ==>
                  && ErrorOf(result).retryAfter <= wait
                  && RetryDelay(row.attemptCount, false, fraction) <= wait
                  && (wait == ErrorOf(result).retryAfter || wait == RetryDelay(row.attemptCount, false, fraction)))
            && (DispositionOf(ErrorOf(result).category) == SendAmbiguous ==> wait >= AMBIGUOUS_GRACE)
  {
    DelayIsBounded(row.attemptCount, true, fraction);
    DelayIsBounded(row.attemptCount, false, fraction);
  }

  lemma InterruptedIsSound(channel: Channel, row: Row, attempt: nat, now: int, fraction: real)
    requires row.state == Processing && row.lastAttempt == Some(attempt)
    ensures var o := Interrupted(channel, row, attempt, now, fraction);
            && Sound(channel, row, attempt, now, o)
            && o.completion.outcome == AttemptAmbiguous
            && (channel == Telegram ==> o.completion.nextState == Unknown)
  {
    AmbiguousIsSound(channel, row, attempt, now, SendError(TelegramAmbiguous, 0, true), fraction);
    AmbiguousIsSound(channel, row, attempt, now, SendError(AmbiguousReset, 0, false), fraction);
  }

  lemma PreflightIsSound(row: Row, result: SendResult, now: int, fraction: real)
    requires row.state == Processing
    ensures var plan := PlanDefinitiveFailure(row, PreflightCategory(result), now, fraction);
            && plan.Some?
            && ValidPreflight(row, now, plan.value)
            && Consistent(plan.value.nextState, plan.value.nextAttemptAt, now,
                          plan.value.possiblyAccepted, plan.value.ambiguousExhausted, plan.value.decision)
  {
    PlanIsSound(row, PreflightCategory(result), now, fraction);
  }

  /** A worker fills the completion field by field as it learns what the answer means. */
  method FinishAttempt(channel: Channel, row: Row, attempt: nat, now: int, result: SendResult, fraction: real)
    returns (outcome: Outcome)
    ensures outcome == Finish(channel, row, attempt, now, result, fraction)
  {
    var completion := Completion(attempt, now, Started, None, None, None, Processing, None, false, false, false, false);
    var decision := Decision(Delete, 0);
    if Confirmed(result) {
      completion := completion.(outcome := AttemptSucceeded, nextState := Succeeded,
                                providerOutcome := Some(Accepted), message := Some(result.message));
      return Outcome(completion, decision);
    }
    var e := UNKNOWN_ERROR;
    if result.Failed? && DispositionOf(result.error.category) != SendInvalid {
      e := result.error;
    }
    completion := completion.(category := Some(e.category));
    var disposition := DispositionOf(e.category);
    if disposition == SendRetryable {
      completion := completion.(outcome := AttemptRetryable);
      if row.attemptCount >= MAX_PROVIDER_CALLS {
        if row.possiblyAccepted {
          var delay := RetryDelay(row.attemptCount, true, fraction);
          completion := completion.(nextState := RetryableFailed, nextAttemptAt := Some(now + delay));
          completion := completion.(possiblyAccepted := true, ambiguousExhausted := true);
          decision := Decision(ChangeVisibility, NormalizedVisibility(delay));
        } else {
          completion := completion.(nextState := PermanentFailed);
        }
      } else {
        var delay := RetryDelay(row.attemptCount, false, fraction);
        if e.retryAfter > delay {
          delay := e.retryAfter;
        }
        completion := completion.(nextState := RetryableFailed, nextAttemptAt := Some(now + delay));
        decision := Decision(ChangeVisibility, NormalizedVisibility(delay));
      }
    } else if disposition == SendAmbiguous {
      completion := completion.(outcome := AttemptAmbiguous, possiblyAccepted := true);
      if e.noAutomaticRetry {
        completion := completion.(nextState := Unknown, ambiguousExhausted := true);
      } else {
        var delay := RetryDelay(row.attemptCount, true, fraction);
        completion := completion.(nextState := RetryableFailed, nextAttemptAt := Some(now + delay));
        completion := completion.(ambiguousExhausted := row.attemptCount >= MAX_PROVIDER_CALLS);
        decision := Decision(ChangeVisibility, NormalizedVisibility(delay));
      }
    } else {
      completion := completion.(
        outcome := if disposition == SendPermanent then AttemptPermanentFailed else AttemptRetryable);
      var plan := PlanDefinitiveFailure(row, e.category, now, fraction).value;
      completion := completion.(
        suppressDestination := e.category == TelegramDestinationUnavailable && channel == Telegram);
      completion := completion.(nextState := plan.nextState, nextAttemptAt := plan.nextAttemptAt);
      completion := completion.(possiblyAccepted := plan.possiblyAccepted,
                                ambiguousExhausted := plan.ambiguousExhausted,
                                awaitingIntervention := plan.awaitingIntervention);
      decision := plan.decision;
    }
    return Outcome(completion, decision);
  }

  // The Telegram sender

  datatype Body =
    | Unreadable
    | Malformed
    | Decoded(ok: bool, message: int, errorCode: int, retryAfter: int, rejectsDestination: bool)

  /** What one call of the Bot API produces.  `Refused` is a request that never left the worker. */
  datatype Response = Refused(category: Category) | NoResponse | Response(status: int, body: Body)

  predicate WellFormedResponse(r: Response) {
    r.Refused? ==> r.category in {TelegramCredentials, TelegramDestinationUnavailable, ConfigurationSet}
  }

  function Error(c: Category): SendResult { Failed(SendError(c, 0, false)) }

  const AMBIGUOUS_SEND := Failed(SendError(TelegramAmbiguous, 0, true))

  function RateLimited(b: Body): SendResult {
    Failed(SendError(TelegramRateLimited, if b.Decoded? && b.retryAfter > 0 then b.retryAfter * SECOND else 0, false))
  }

  function ClassifyBody(status: int, b: Body): SendResult
    requires b.Decoded?
  {
    if 200 <= status < 300 && b.ok && b.message > 0 then Sent(b.message)
    else if b.errorCode == 429 then RateLimited(b)
    else if b.errorCode == 401 then Error(TelegramCredentials)
    else if b.errorCode == 403 then Error(TelegramDestinationUnavailable)
    else AMBIGUOUS_SEND
  }

  function Classify(r: Response): SendResult {
    match r
    case Refused(c) => Error(c)
    case NoResponse => AMBIGUOUS_SEND
    case Response(status, body) =>
      if status == 401 then Error(TelegramCredentials)
      else if status == 403 then Error(TelegramDestinationUnavailable)
      else if status >= 500 then Error(ServiceUnavailable)
      else if 400 <= status < 500 && status != 429 && status != 400 then Error(ConfigurationSet)
      else if status == 400 then
        if body.Decoded? && body.rejectsDestination then Error(TelegramDestinationUnavailable)
        else Error(ConfigurationSet)
      else if status == 429 then RateLimited(body)
      else if !body.Decoded? then AMBIGUOUS_SEND
      else ClassifyBody(status, body)
  }

  /** What a Telegram answer may look like: success names a message, and ambiguity forbids a retry. */
  predicate TelegramAnswer(r: SendResult) {
    match r
    case Sent(message) => message > 0
    case Failed(e) =>
      && DispositionOf(e.category) != SendInvalid
      && (DispositionOf(e.category) == SendAmbiguous ==> e.noAutomaticRetry)
    case ForeignError => false
  }

  /** The Telegram sender always says whether a retry is safe, and it stays ambiguous exactly when
      Telegram neither answered nor rejected: no response, or a response below 400 whose body does not
      settle the matter. */
  lemma TelegramAnswersAreDecisive(r: Response)
    requires WellFormedResponse(r)
    ensures TelegramAnswer(Classify(r))
    ensures Classify(r) == AMBIGUOUS_SEND <==>
              (r.NoResponse? || (r.Response? && r.status < 400
                 && (r.body.Decoded? ==>
                       && !(200 <= r.status && r.status < 300 && r.body.ok && r.body.message > 0)
                       && r.body.errorCode !in {401, 403, 429})))
    ensures Classify(r).Sent? <==>
              r.Response? && 200 <= r.status < 300 && r.body.Decoded? && r.body.ok && r.body.message > 0
  {
  }

  /** After a Telegram answer a worker either ends the delivery or has a definite rejection to retry. */
  lemma TelegramRetriesOnlyRejections(row: Row, attempt: nat, now: int, result: SendResult, fraction: real)
    requires TelegramAnswer(result) && !row.possiblyAccepted
    ensures var c := Finish(Telegram, row, attempt, now, result, fraction).completion;
            && (Terminal(c.nextState) || (c.nextState == RetryableFailed && c.outcome == AttemptRetryable))
            && (c.outcome == AttemptRetryable ==>
                  result.Failed? && DispositionOf(result.error.category) in {SendRetryable, SendFatal})
            && (c.possiblyAccepted ==> Terminal(c.nextState))
  {
  }
}
