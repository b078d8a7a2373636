/**
 The alert state machine: what one evaluation of a rule does to its incident.

 `Decide` is the decision of one evaluation.  Its partner is a specification over the whole
 history of evaluations and resets: `OpensExactlyWhenConfirmed` says that running `Decide`
 incrementally opens an incident exactly where the history asks for one.
 */
module AlertDecide {
  import opened Wrappers

  // ---------------------------------------------------------------- data

  datatype Quality = Sufficient | InsufficientData | StaleData | QueryError
  datatype Mode = Unset | Healthy | Pending | Active
  datatype EventStatus = Open | Acknowledged | Suppressed | Resolved
  datatype Channel = Email | Telegram
  datatype OutboxKind = Opening | Recovery
  datatype OutboxStatus = Ready | Blocked

  /** Hashed identities are injective, so they are modelled by their inputs. */
  datatype EventId = EventId(rule: nat, version: int, revision: int, slot: int)
  datatype OutboxId = OutboxId(event: EventId, channel: Channel, kind: OutboxKind)

  datatype Rule = Rule(id: nat, version: int, revision: int, duration: int, cooldown: nat, channels: seq<Channel>)

  datatype Evaluation = Evaluation(slot: int, quality: Quality, breached: bool, value: Option<real>, missed: nat)
  {
    predicate IsDeterminate() { quality == Sufficient && value.Some? }

    function Normalized(): Evaluation {
      if IsDeterminate() then this
      else this.(quality := if quality == Sufficient then InsufficientData else quality,
                 value := None, breached := false)
    }
  }

  /** Instants are integers and 0 is the zero time; slots are positive. */
  datatype State = State(
    mode: Mode, confirmedSlots: nat, pendingSince: int, lastBreachSlot: int, lastEvaluatedSlot: int,
    lastQuality: Option<Quality>, lastValue: Option<real>,
    activeEvent: Option<EventId>, activeStatus: Option<EventStatus>, activeOpenedAt: int,
    openingOutboxes: map<Channel, OutboxId>, cooldownUntil: int,
    lastNotified: Option<EventId>, suppressionSource: Option<EventId>)

  const ZERO_STATE := State(Unset, 0, 0, 0, 0, None, None, None, None, 0, map[], 0, None, None)

  datatype Transition = NoTransition | Opened | SuppressedOpening | Recovered

  datatype OutboxDecision = OutboxDecision(id: OutboxId, status: OutboxStatus, dependsOn: Option<OutboxId>)

  datatype Decision = Decision(
    next: State, transition: Transition, event: Option<EventId>, resolved: Option<EventId>,
    outboxes: seq<OutboxDecision>)
  {
    predicate Opens() { transition == Opened || transition == SuppressedOpening }
  }

  // ---------------------------------------------------------------- one decision

  function RequiredSlots(duration: int, cadence: int): (n: int)
    requires cadence > 0
    ensures n >= 1
  {
    if duration <= cadence then 1 else (duration + cadence - 1) / cadence
  }

  function ResetPending(s: State): State {
    s.(mode := Healthy, confirmedSlots := 0, pendingSince := 0, lastBreachSlot := 0)
  }

  function OpeningDecision(event: EventId, c: Channel): OutboxDecision {
    OutboxDecision(OutboxId(event, c, Opening), Ready, None)
  }

  function RecoveryDecision(event: EventId, c: Channel, opening: OutboxId): OutboxDecision {
    OutboxDecision(OutboxId(event, c, Recovery), Blocked, Some(opening))
  }

  function OpenIncident(rule: Rule, s: State, e: Evaluation): Decision {
    var event := EventId(rule.id, rule.version, rule.revision, e.slot);
    var next := s.(mode := Active, activeEvent := Some(event), activeOpenedAt := e.slot,
                   confirmedSlots := 0, pendingSince := 0, openingOutboxes := map[]);
    if next.cooldownUntil > e.slot then
      Decision(next.(activeStatus := Some(Suppressed), suppressionSource := next.lastNotified),
               SuppressedOpening, Some(event), None, [])
    else
      Decision(next.(activeStatus := Some(Open), suppressionSource := None, cooldownUntil := e.slot + rule.cooldown,
                     lastNotified := Some(event),
                     openingOutboxes := map c | c in rule.channels :: OutboxId(event, c, Opening)),
               Opened, Some(event), None,
               seq(|rule.channels|, i requires 0 <= i < |rule.channels| => OpeningDecision(event, rule.channels[i])))
  }

  function SortedChannels(m: map<Channel, OutboxId>): seq<Channel> {
    if Email in m && Telegram in m then [Email, Telegram]
    else if Email in m then [Email]
    else if Telegram in m then [Telegram]
    else []
  }

  function RecoverIncident(s: State): Decision
    requires s.activeEvent.Some?
  {
    var event := s.activeEvent.value;
    var channels := SortedChannels(s.openingOutboxes);
    Decision(s.(mode := Healthy, activeEvent := None, activeStatus := None, activeOpenedAt := 0,
                openingOutboxes := map[], suppressionSource := None, lastBreachSlot := 0),
             Recovered, None, Some(event),
             if s.activeStatus == Some(Suppressed) then []
             else seq(|channels|, i requires 0 <= i < |channels| =>
                        RecoveryDecision(event, channels[i], s.openingOutboxes[channels[i]])))
  }

  /** The state after the bookkeeping every evaluation does, and after a gap resets a pending run. */
  function Observe(s: State, e: Evaluation): State {
    var next := s.(mode := if s.mode == Unset then Healthy else s.mode,
                   lastEvaluatedSlot := e.slot, lastQuality := Some(e.quality));
    if e.missed > 0 && next.mode == Pending then ResetPending(next) else next
  }

  function CountBreach(s: State, e: Evaluation, cadence: int): State {
    var consecutive := s.mode == Pending && e.missed == 0 && s.lastBreachSlot != 0
        && s.lastBreachSlot + cadence == e.slot;
    if consecutive then s.(confirmedSlots := s.confirmedSlots + 1, lastBreachSlot := e.slot)
    else s.(mode := Pending, confirmedSlots := 1, pendingSince := e.slot, lastBreachSlot := e.slot)
  }

  predicate Coherent(s: State) { s.mode == Active ==> s.activeEvent.Some? }

  function Decide(rule: Rule, current: State, evaluation: Evaluation, cadence: int): Decision
    requires cadence > 0 && Coherent(current)
  {
    var e := evaluation.Normalized();
    var seen := Observe(current, e);
    if !e.IsDeterminate() then Decision(seen, NoTransition, None, None, [])
    else
      var next := seen.(lastValue := e.value);
      if next.mode == Active then
        if e.breached then Decision(next, NoTransition, None, None, []) else RecoverIncident(next)
      else if !e.breached then Decision(ResetPending(next), NoTransition, None, None, [])
      else
        var counted := CountBreach(next, e, cadence);
        if counted.confirmedSlots < RequiredSlots(rule.duration, cadence)
        then Decision(counted, NoTransition, None, None, [])
        else OpenIncident(rule, counted, e)
  }

  /** `requiredSlots` is the least positive number of cadences that cover the duration. */
  lemma RequiredSlotsIsLeastCover(duration: int, cadence: int, n: int)
    requires cadence > 0
    ensures RequiredSlots(duration, cadence) * cadence >= duration
    ensures n >= 1 && n * cadence >= duration ==> RequiredSlots(duration, cadence) <= n
  {
    var x := duration + cadence - 1;
    var q := x / cadence;
    assert x == q * cadence + x % cadence;
    if n >= 1 && n * cadence >= duration && n < q { MulMono(n, q - 1, cadence); }
  }

  lemma MulMono(a: int, b: int, c: int)
    requires a <= b && c >= 0
    ensures a * c <= b * c
  {
  }

  // ---------------------------------------------------------------- the loops of the source

  /** `openIncident`, with its loop over the rule's channels. */
  method OpenIncidentLoop(rule: Rule, s: State, e: Evaluation) returns (d: Decision)
    ensures d == OpenIncident(rule, s, e)
  {
    var event := EventId(rule.id, rule.version, rule.revision, e.slot);
    var next := s.(mode := Active, activeEvent := Some(event), activeOpenedAt := e.slot,
                   confirmedSlots := 0, pendingSince := 0, openingOutboxes := map[]);
    if next.cooldownUntil > e.slot {
      next := next.(activeStatus := Some(Suppressed), suppressionSource := next.lastNotified);
      return Decision(next, SuppressedOpening, Some(event), None, []);
    }
    next := next.(activeStatus := Some(Open), suppressionSource := None,
                  cooldownUntil := e.slot + rule.cooldown, lastNotified := Some(event));
    var opening: map<Channel, OutboxId> := map[];
    var outboxes: seq<OutboxDecision> := [];
    for i := 0 to |rule.channels|
      invariant opening == map c | c in rule.channels[..i] :: OutboxId(event, c, Opening)
      invariant |outboxes| == i && forall j :: 0 <= j < i ==> outboxes[j] == OpeningDecision(event, rule.channels[j])
    {
      opening := opening[rule.channels[i] := OutboxId(event, rule.channels[i], Opening)];
      outboxes := outboxes + [OpeningDecision(event, rule.channels[i])];
    }
    assert rule.channels[..|rule.channels|] == rule.channels;
    return Decision(next.(openingOutboxes := opening), Opened, Some(event), None, outboxes);
  }

  /** Collect the map's keys in whatever order it yields them, then sort. */
  method CollectChannels(m: map<Channel, OutboxId>) returns (channels: seq<Channel>)
    ensures channels == SortedChannels(m)
  {
    var keys := m.Keys;
    channels := [];
    while keys != {}
      invariant keys <= m.Keys
      invariant forall c :: c in m <==> c in keys || c in channels
      invariant forall c :: c in channels ==> c !in keys
      invariant forall i, j :: 0 <= i < j < |channels| ==> channels[i] != channels[j]
      decreases keys
    {
      var c :| c in keys;
      keys := keys - {c};
      channels := channels + [c];
    }
    AtMostTwoChannels(channels);
    assert Email in m <==> Email in channels;
    assert Telegram in m <==> Telegram in channels;
    if |channels| == 2 {
      assert channels == [channels[0], channels[1]] && channels[0] != channels[1];
      assert (channels[0] == Email || channels[0] == Telegram) && (channels[1] == Email || channels[1] == Telegram);
      if channels[0] == Telegram { channels := [channels[1], channels[0]]; }
    } else if |channels| == 1 {
      assert channels == [channels[0]];
      assert channels[0] == Email || channels[0] == Telegram;
    }
  }

  lemma AtMostTwoChannels(channels: seq<Channel>)
    requires forall i, j :: 0 <= i < j < |channels| ==> channels[i] != channels[j]
    ensures |channels| <= 2
  {
    assert |channels| > 2 ==> channels[0] != channels[1] && channels[1] != channels[2] && channels[0] != channels[2];
  }

  /** `recoverIncident`, with its loop over the sorted channels. */
  method RecoverIncidentLoop(s: State) returns (d: Decision)
    requires s.activeEvent.Some?
    ensures d == RecoverIncident(s)
  {
    var event := s.activeEvent.value;
    var outboxes: seq<OutboxDecision> := [];
    if s.activeStatus != Some(Suppressed) {
      var channels := CollectChannels(s.openingOutboxes);
      for i := 0 to |channels|
        invariant |outboxes| == i
        invariant forall j :: 0 <= j < i ==>
          outboxes[j] == RecoveryDecision(event, channels[j], s.openingOutboxes[channels[j]])
      {
        outboxes := outboxes + [RecoveryDecision(event, channels[i], s.openingOutboxes[channels[i]])];
      }
    }
    return Decision(s.(mode := Healthy, activeEvent := None, activeStatus := None, activeOpenedAt := 0,
                       openingOutboxes := map[], suppressionSource := None, lastBreachSlot := 0),
                    Recovered, None, Some(event), outboxes);
  }

  /** `Decide` as the source runs it: one local state, updated field by field. */
  method DecideStep(rule: Rule, current: State, evaluation: Evaluation, cadence: int) returns (d: Decision)
    requires cadence > 0 && Coherent(current)
    ensures d == Decide(rule, current, evaluation, cadence)
  {
    var e := evaluation.Normalized();
    var next := current;
    if next.mode == Unset { next := next.(mode := Healthy); }
    next := next.(lastEvaluatedSlot := e.slot, lastQuality := Some(e.quality));
    if e.missed > 0 && next.mode == Pending { next := ResetPending(next); }
    if !e.IsDeterminate() { return Decision(next, NoTransition, None, None, []); }
    next := next.(lastValue := e.value);
    if next.mode == Active {
      if e.breached { return Decision(next, NoTransition, None, None, []); }
      d := RecoverIncidentLoop(next);
      return;
    }
    if !e.breached { return Decision(ResetPending(next), NoTransition, None, None, []); }
    if next.mode == Pending && e.missed == 0 && next.lastBreachSlot != 0 && next.lastBreachSlot + cadence == e.slot {
      next := next.(confirmedSlots := next.confirmedSlots + 1);
    } else {
      next := next.(mode := Pending, confirmedSlots := 1, pendingSince := e.slot);
    }
    next := next.(lastBreachSlot := e.slot);
    if next.confirmedSlots < RequiredSlots(rule.duration, cadence) {
      return Decision(next, NoTransition, None, None, []);
    }
    d := OpenIncidentLoop(rule, next, e);
  }

  // ---------------------------------------------------------------- histories

  /** One thing that happens to a rule's state: an evaluation, or a reset from outside (a manual
      resolution or a semantic edit of the rule). */
  datatype Item = Evaluate(e: Evaluation) | Reset

  function ResetState(s: State): State {
    if s.mode == Active then
      s.(mode := Healthy, confirmedSlots := 0, pendingSince := 0, lastBreachSlot := 0, activeEvent := None,
         activeStatus := None, activeOpenedAt := 0, openingOutboxes := map[], suppressionSource := None)
    else if s.mode == Pending then ResetPending(s)
    else s
  }

  function StateAfter(rule: Rule, cadence: int, trace: seq<Item>): (s: State)
    requires cadence > 0
    ensures Coherent(s)
    decreases |trace|
  {
    if trace == [] then ZERO_STATE
    else
      var before := StateAfter(rule, cadence, trace[..|trace| - 1]);
      match trace[|trace| - 1]
      case Reset => ResetState(before)
      case Evaluate(e) => Decide(rule, before, e, cadence).next
  }

  predicate Breach(i: Item) { i.Evaluate? && i.e.IsDeterminate() && i.e.breached }

  /** An indeterminate evaluation with no gap tells the specification nothing. */
  predicate Silent(i: Item) { i.Evaluate? && !i.e.IsDeterminate() && i.e.missed == 0 }

  function Relevant(trace: seq<Item>): seq<Item>
    decreases |trace|
  {
    if trace == [] then []
    else
      var last := trace[|trace| - 1];
      Relevant(trace[..|trace| - 1]) + (if Silent(last) then [] else [last])
  }

  predicate Linked(a: Item, b: Item, cadence: int) {
    a.Evaluate? && b.Evaluate? && b.e.missed == 0 && b.e.slot == a.e.slot + cadence
  }

  /** The last `k` items are breaches exactly one cadence apart, with no missed slot after the first. */
  ghost predicate EndsInRun(items: seq<Item>, k: int, cadence: int) {
    && 1 <= k <= |items|
    && (forall j :: |items| - k <= j < |items| ==> Breach(items[j]))
    && (forall i, j :: |items| - k <= i < j < |items| && j == i + 1 ==> Linked(items[i], items[j], cadence))
  }

  ghost predicate Confirmed(rule: Rule, cadence: int, trace: seq<Item>)
    requires cadence > 0
  {
    EndsInRun(Relevant(trace), RequiredSlots(rule.duration, cadence), cadence)
  }

  /** Whether the history leaves an incident open: some confirmed breach opened one and no
      determinate non-breach and no reset has come since. */
  ghost predicate IncidentActive(rule: Rule, cadence: int, trace: seq<Item>)
    requires cadence > 0
    decreases |trace|
  {
    if trace == [] then false
    else
      var before := IncidentActive(rule, cadence, trace[..|trace| - 1]);
      match trace[|trace| - 1]
      case Reset => false
      case Evaluate(e) =>
        if !e.IsDeterminate() then before
        else e.breached && (before || Confirmed(rule, cadence, trace))
  }

  ghost predicate SlotsIncrease(trace: seq<Item>) {
    && (forall i :: 0 <= i < |trace| && trace[i].Evaluate? ==> trace[i].e.slot > 0)
    && (forall i, j :: 0 <= i < j < |trace| && trace[i].Evaluate? && trace[j].Evaluate? ==>
        trace[i].e.slot < trace[j].e.slot)
  }

  /** How the incremental state summarises a history: its relevant items and whether it leaves an
      incident open. */
  ghost predicate Summarises(r: seq<Item>, active: bool, cadence: int, s: State) {
    && (s.mode == Active <==> active)
    && (s.mode == Pending ==>
          && EndsInRun(r, s.confirmedSlots, cadence) && !EndsInRun(r, s.confirmedSlots + 1, cadence)
          && s.lastBreachSlot == r[|r| - 1].e.slot)
    && (s.mode == Healthy || s.mode == Unset ==> |r| == 0 || !Breach(r[|r| - 1]))
  }

  /** Extending a history by a breach extends its run by one, or starts a new one. */
  lemma BreachExtendsRun(items: seq<Item>, last: Item, k: int, cadence: int)
    requires Breach(last) && k >= 1
    ensures EndsInRun(items + [last], 1, cadence)
    ensures EndsInRun(items + [last], k + 1, cadence) <==>
              EndsInRun(items, k, cadence) && Linked(items[|items| - 1], last, cadence)
  {
    var more := items + [last];
    assert forall j :: 0 <= j < |items| ==> more[j] == items[j];
    assert more[|items|] == last;
    if EndsInRun(more, k + 1, cadence) {
      assert Linked(more[|items| - 1], more[|items|], cadence);
      forall j | |items| - k <= j < |items| ensures Breach(items[j]) { assert Breach(more[j]); }
    }
  }

  lemma ShorterRun(items: seq<Item>, k: int, n: int, cadence: int)
    requires EndsInRun(items, k, cadence) && 1 <= n <= k
    ensures EndsInRun(items, n, cadence)
  {
  }

  /** Running the counter is the same as asking for the longest run at the end of the history. */
  lemma CountingFindsLongestRun(r: seq<Item>, cadence: int, s: State, e: Evaluation)
    requires Summarises(r, false, cadence, s) && Breach(Evaluate(e)) && (s.mode == Pending ==> s.lastBreachSlot != 0)
    ensures var c := Counted(s, e, cadence).confirmedSlots;
            EndsInRun(r + [Evaluate(e)], c, cadence) && !EndsInRun(r + [Evaluate(e)], c + 1, cadence)
  {
    BreachExtendsRun(r, Evaluate(e), 1, cadence);
    if s.mode == Pending {
      BreachExtendsRun(r, Evaluate(e), s.confirmedSlots, cadence);
      BreachExtendsRun(r, Evaluate(e), s.confirmedSlots + 1, cadence);
    }
  }

  lemma RelevantSnoc(trace: seq<Item>, last: Item)
    ensures Relevant(trace + [last]) == Relevant(trace) + (if Silent(last) then [] else [last])
  {
    assert (trace + [last])[..|trace|] == trace;
  }

  /** The last relevant item is an item of the history and only silent ones follow it. */
  lemma {:induction false} LastRelevant(trace: seq<Item>) returns (i: nat)
    requires Relevant(trace) != []
    ensures i < |trace| && trace[i] == Relevant(trace)[|Relevant(trace)| - 1] && !Silent(trace[i])
    ensures forall j :: i < j < |trace| ==> Silent(trace[j])
    decreases |trace|
  {
    i := |trace| - 1;
    if Silent(trace[|trace| - 1]) {
      i := LastRelevant(trace[..|trace| - 1]);
    }
  }

  function Counted(s: State, e: Evaluation, cadence: int): State {
    CountBreach(Observe(s, e).(lastValue := e.value), e, cadence)
  }

  lemma DecideOnBreach(rule: Rule, cadence: int, s: State, e: Evaluation)
    requires cadence > 0 && s.mode != Active && Breach(Evaluate(e))
    ensures Counted(s, e, cadence).mode == Pending && Counted(s, e, cadence).lastBreachSlot == e.slot
    ensures var d := Decide(rule, s, e, cadence);
            if Counted(s, e, cadence).confirmedSlots < RequiredSlots(rule.duration, cadence)
            then d.next == Counted(s, e, cadence) && !d.Opens()
            else d.next.mode == Active && d.Opens()
  {
  }

  /** A breach while no incident is active: the only step that counts. */
  lemma BreachSummarises(rule: Rule, cadence: int, r: seq<Item>, s: State, e: Evaluation)
    requires cadence > 0 && Summarises(r, false, cadence, s) && (s.mode == Pending ==> s.lastBreachSlot != 0)
    requires Breach(Evaluate(e))
    ensures var confirmed := EndsInRun(r + [Evaluate(e)], RequiredSlots(rule.duration, cadence), cadence);
            && Summarises(r + [Evaluate(e)], confirmed, cadence, Decide(rule, s, e, cadence).next)
            && (Decide(rule, s, e, cadence).Opens() <==> confirmed)
  {
    CountingFindsLongestRun(r, cadence, s, e);
    CountDecidesOpening(rule, cadence, r + [Evaluate(e)], Counted(s, e, cadence).confirmedSlots);
    DecideOnBreach(rule, cadence, s, e);
  }

  /** Every other evaluation: it never opens, and the summary follows without counting. */
  lemma QuietSummarises(rule: Rule, cadence: int, r: seq<Item>, active: bool, s: State, e: Evaluation)
    requires cadence > 0 && Summarises(r, active, cadence, s) && Coherent(s)
    requires active || !Breach(Evaluate(e))
    ensures var r' := r + (if Silent(Evaluate(e)) then [] else [Evaluate(e)]);
            Summarises(r', active && (e.IsDeterminate() ==> e.breached), cadence, Decide(rule, s, e, cadence).next)
    ensures !Decide(rule, s, e, cadence).Opens()
  {
    var next := Decide(rule, s, e, cadence).next;
    if Silent(Evaluate(e)) {
      assert r + [] == r && next.mode == (if s.mode == Unset then Healthy else s.mode);
      assert next.confirmedSlots == s.confirmedSlots && next.lastBreachSlot == s.lastBreachSlot;
    } else {
      assert next.mode == Active || next.mode == Healthy;
    }
  }

  lemma IncidentSnoc(rule: Rule, cadence: int, before: seq<Item>, last: Item)
    requires cadence > 0
    ensures IncidentActive(rule, cadence, before + [last]) <==>
              if last.Reset? then false
              else if !last.e.IsDeterminate() then IncidentActive(rule, cadence, before)
              else last.e.breached && (IncidentActive(rule, cadence, before)
                                       || Confirmed(rule, cadence, before + [last]))
  {
    var trace := before + [last];
    assert trace[..|trace| - 1] == before && trace[|trace| - 1] == last;
  }

  /** The summary of a history is kept by its next evaluation, which opens exactly on a confirmed
      run while nothing is active. */
  lemma EvaluationSummarises(rule: Rule, cadence: int, before: seq<Item>, s: State, e: Evaluation)
    requires cadence > 0 && SlotsIncrease(before) && Coherent(s)
    requires Summarises(Relevant(before), IncidentActive(rule, cadence, before), cadence, s)
    ensures var trace := before + [Evaluate(e)];
            Summarises(Relevant(trace), IncidentActive(rule, cadence, trace), cadence, Decide(rule, s, e, cadence).next)
    ensures Decide(rule, s, e, cadence).Opens() <==>
              && Breach(Evaluate(e)) && !IncidentActive(rule, cadence, before)
              && Confirmed(rule, cadence, before + [Evaluate(e)])
  {
    RelevantSnoc(before, Evaluate(e));
    IncidentSnoc(rule, cadence, before, Evaluate(e));
    if Breach(Evaluate(e)) && s.mode != Active {
      if s.mode == Pending { PendingBreachIsReal(before, s.lastBreachSlot); }
      BreachSummarises(rule, cadence, Relevant(before), s, e);
    } else {
      QuietSummarises(rule, cadence, Relevant(before), IncidentActive(rule, cadence, before), s, e);
    }
  }

  lemma PendingBreachIsReal(trace: seq<Item>, slot: int)
    requires SlotsIncrease(trace) && Relevant(trace) != []
    requires var r := Relevant(trace); Breach(r[|r| - 1]) && r[|r| - 1].e.slot == slot
    ensures slot > 0
  {
    var i := LastRelevant(trace);
  }

  /** By induction over any history: the incremental state summarises it. */
  lemma {:induction false} StateSummarisesHistory(rule: Rule, cadence: int, trace: seq<Item>)
    requires cadence > 0 && SlotsIncrease(trace)
    ensures Summarises(Relevant(trace), IncidentActive(rule, cadence, trace), cadence, StateAfter(rule, cadence, trace))
    decreases |trace|
  {
    if trace != [] {
      var before, last := trace[..|trace| - 1], trace[|trace| - 1];
      StateSummarisesHistory(rule, cadence, before);
      assert trace == before + [last];
      if last.Evaluate? {
        EvaluationSummarises(rule, cadence, before, StateAfter(rule, cadence, before), last.e);
      } else {
        RelevantSnoc(before, last);
        IncidentSnoc(rule, cadence, before, last);
      }
    }
  }

  lemma CountDecidesOpening(rule: Rule, cadence: int, items: seq<Item>, c: int)
    requires cadence > 0 && EndsInRun(items, c, cadence) && !EndsInRun(items, c + 1, cadence)
    ensures EndsInRun(items, RequiredSlots(rule.duration, cadence), cadence) <==>
              RequiredSlots(rule.duration, cadence) <= c
  {
    var n := RequiredSlots(rule.duration, cadence);
    if n <= c { ShorterRun(items, c, n, cadence); }
    if EndsInRun(items, n, cadence) && c < n { ShorterRun(items, n, c + 1, cadence); }
  }

  // ---------------------------------------------------------------- theorems

  /** For every history with increasing slots: the next evaluation opens an incident if and only if
      none is active and the history, silent evaluations aside, ends in a confirmed run. */
  lemma OpensExactlyWhenConfirmed(rule: Rule, cadence: int, before: seq<Item>, e: Evaluation)
    requires cadence > 0 && SlotsIncrease(before + [Evaluate(e)])
    ensures Decide(rule, StateAfter(rule, cadence, before), e, cadence).Opens() <==>
              && Breach(Evaluate(e)) && !IncidentActive(rule, cadence, before)
              && Confirmed(rule, cadence, before + [Evaluate(e)])
  {
    var trace := before + [Evaluate(e)];
    assert forall i :: 0 <= i < |before| ==> trace[i] == before[i];
    StateSummarisesHistory(rule, cadence, before);
    EvaluationSummarises(rule, cadence, before, StateAfter(rule, cadence, before), e);
  }

  /** All evaluations fall on one grid of cadence-spaced slots. */
  ghost predicate OnGrid(trace: seq<Item>, cadence: int)
    requires cadence > 0
  {
    forall i, j :: 0 <= i < |trace| && 0 <= j < |trace| && trace[i].Evaluate? && trace[j].Evaluate? ==>
      (trace[j].e.slot - trace[i].e.slot) % cadence == 0
  }

  /** On one grid no silent evaluation fits between two breaches one cadence apart, so the run is
      made of the very last evaluations of the history. */
  lemma {:induction false} GridRunIsContiguous(trace: seq<Item>, k: int, cadence: int)
    requires cadence > 0 && SlotsIncrease(trace) && OnGrid(trace, cadence)
    requires trace != [] && Breach(trace[|trace| - 1])
    ensures EndsInRun(Relevant(trace), k, cadence) <==> EndsInRun(trace, k, cadence)
    decreases |trace|
  {
    var before, last := trace[..|trace| - 1], trace[|trace| - 1];
    assert trace == before + [last];
    assert Relevant(trace) == Relevant(before) + [last] by { RelevantSnoc(before, last); }
    if k == 1 {
      BreachExtendsRun(Relevant(before), last, 1, cadence);
      BreachExtendsRun(before, last, 1, cadence);
    } else if k >= 2 {
      BreachExtendsRun(Relevant(before), last, k - 1, cadence);
      BreachExtendsRun(before, last, k - 1, cadence);
      if before == [] {
      } else if Silent(before[|before| - 1]) {
        SilenceBreaksRun(trace, k - 1, cadence);
      } else {
        SameLastItem(before);
        if Breach(before[|before| - 1]) { GridRunIsContiguous(before, k - 1, cadence); }
      }
    }
  }

  lemma SameLastItem(trace: seq<Item>)
    requires trace != [] && !Silent(trace[|trace| - 1])
    ensures var r := Relevant(trace); r != [] && r[|r| - 1] == trace[|trace| - 1]
  {
  }

  /** A silent evaluation just before the last one rules out a run through it. */
  lemma SilenceBreaksRun(trace: seq<Item>, k: int, cadence: int)
    requires cadence > 0 && SlotsIncrease(trace) && OnGrid(trace, cadence) && |trace| >= 2
    requires Silent(trace[|trace| - 2]) && Breach(trace[|trace| - 1])
    ensures var before := trace[..|trace| - 1]; var r := Relevant(before);
            && !(EndsInRun(r, k, cadence) && Linked(r[|r| - 1], trace[|trace| - 1], cadence))
            && !EndsInRun(before, k, cadence)
  {
    var before := trace[..|trace| - 1];
    if Relevant(before) != [] {
      var i := LastRelevant(before);
      if trace[i].Evaluate? {
        assert i < |trace| - 2 && trace[i].e.slot < trace[|trace| - 2].e.slot < trace[|trace| - 1].e.slot;
        assert trace[|trace| - 2].e.slot - trace[i].e.slot >= cadence by {
          assert (trace[|trace| - 2].e.slot - trace[i].e.slot) % cadence == 0;
          if trace[|trace| - 2].e.slot - trace[i].e.slot < cadence {
            SmallStepOffGrid(trace[|trace| - 2].e.slot - trace[i].e.slot, cadence);
          }
        }
      }
    }
  }

  lemma SmallStepOffGrid(d: int, cadence: int)
    requires 0 < d < cadence
    ensures d % cadence != 0
  {
  }

  /** The statement the schedule promises, on its grid: an incident opens if and only if none is
      active and the last `requiredSlots` evaluations are breaches exactly one cadence apart with no
      missed slot after the first. */
  lemma GridOpensOnLastEvaluations(rule: Rule, cadence: int, before: seq<Item>, e: Evaluation)
    requires cadence > 0 && SlotsIncrease(before + [Evaluate(e)]) && OnGrid(before + [Evaluate(e)], cadence)
    ensures Decide(rule, StateAfter(rule, cadence, before), e, cadence).Opens() <==>
              && !IncidentActive(rule, cadence, before)
              && EndsInRun(before + [Evaluate(e)], RequiredSlots(rule.duration, cadence), cadence)
  {
    var trace := before + [Evaluate(e)];
    OpensExactlyWhenConfirmed(rule, cadence, before, e);
    if Breach(Evaluate(e)) {
      GridRunIsContiguous(trace, RequiredSlots(rule.duration, cadence), cadence);
    } else {
      assert trace[|trace| - 1] == Evaluate(e);
    }
  }

  /** A silent evaluation lies among the last `k` items. */
  ghost predicate SilenceWithin(trace: seq<Item>, k: int) {
    exists j :: 0 <= j < |trace| && |trace| - k <= j && Silent(trace[j])
  }

  lemma {:induction false} RelevantIsShorter(trace: seq<Item>)
    ensures |Relevant(trace)| <= |trace|
    decreases |trace|
  {
    if trace != [] { RelevantIsShorter(trace[..|trace| - 1]); }
  }

  /** The last items are a run if and only if the relevant ones are and no silence interrupts them. */
  lemma {:induction false} RunWithoutSilence(trace: seq<Item>, k: int, cadence: int)
    requires trace != [] && Breach(trace[|trace| - 1])
    ensures EndsInRun(trace, k, cadence) <==> EndsInRun(Relevant(trace), k, cadence) && !SilenceWithin(trace, k)
    decreases |trace|
  {
    var before, last := trace[..|trace| - 1], trace[|trace| - 1];
    assert trace == before + [last];
    RelevantSnoc(before, last);
    if k == 1 {
      BreachExtendsRun(Relevant(before), last, 1, cadence);
      BreachExtendsRun(before, last, 1, cadence);
    } else if k >= 2 {
      BreachExtendsRun(Relevant(before), last, k - 1, cadence);
      BreachExtendsRun(before, last, k - 1, cadence);
      SilenceBefore(trace, k);
      RelevantIsShorter(before);
      if before != [] && !Silent(before[|before| - 1]) {
        SameLastItem(before);
        if Breach(before[|before| - 1]) { RunWithoutSilence(before, k - 1, cadence); }
      }
    }
  }

  lemma SilenceBefore(trace: seq<Item>, k: int)
    requires trace != [] && Breach(trace[|trace| - 1]) && k >= 2
    ensures var before := trace[..|trace| - 1];
            && (SilenceWithin(trace, k) <==> SilenceWithin(before, k - 1))
            && (before != [] && Silent(before[|before| - 1]) ==> SilenceWithin(trace, k))
  {
    var before := trace[..|trace| - 1];
    assert forall j :: 0 <= j < |before| ==> before[j] == trace[j];
    if before != [] && Silent(before[|before| - 1]) { assert Silent(trace[|trace| - 2]); }
    if SilenceWithin(before, k - 1) {
      var j :| 0 <= j < |before| && |before| - (k - 1) <= j && Silent(before[j]);
      assert Silent(trace[j]);
    }
    if SilenceWithin(trace, k) {
      var j :| 0 <= j < |trace| && |trace| - k <= j && Silent(trace[j]);
      assert Silent(before[j]);
    }
  }

  /** For every history with increasing slots, on a grid or not: the last evaluations alone decide the
      opening if and only if it is not an opening across a silent evaluation among them. */
  lemma LastEvaluationsDecideExactly(rule: Rule, cadence: int, before: seq<Item>, e: Evaluation)
    requires cadence > 0 && SlotsIncrease(before + [Evaluate(e)])
    ensures var trace, n := before + [Evaluate(e)], RequiredSlots(rule.duration, cadence);
            var opens := Decide(rule, StateAfter(rule, cadence, before), e, cadence).Opens();
            && (!IncidentActive(rule, cadence, before) && EndsInRun(trace, n, cadence) ==> opens)
            && (opens ==> (EndsInRun(trace, n, cadence) <==> !SilenceWithin(trace, n)))
  {
    var trace := before + [Evaluate(e)];
    OpensExactlyWhenConfirmed(rule, cadence, before, e);
    assert trace[|trace| - 1] == Evaluate(e);
    if Breach(Evaluate(e)) {
      RunWithoutSilence(trace, RequiredSlots(rule.duration, cadence), cadence);
    }
  }

  /** Off the grid the last evaluations alone do not decide: an indeterminate evaluation between
      two breaches one cadence apart does not stop the second from opening. */
  lemma OffGridOpensAcrossSilence()
    ensures var rule := Rule(1, 1, 1, 120, 60, [Email]);
            var before := [Evaluate(Evaluation(100, Sufficient, true, Some(1.0), 0)),
                           Evaluate(Evaluation(130, StaleData, false, None, 0))];
            var e := Evaluation(160, Sufficient, true, Some(1.0), 0);
            && SlotsIncrease(before + [Evaluate(e)])
            && Decide(rule, StateAfter(rule, 60, before), e, 60).Opens()
            && !EndsInRun(before + [Evaluate(e)], RequiredSlots(rule.duration, 60), 60)
  {
    var rule := Rule(1, 1, 1, 120, 60, [Email]);
    var first := Evaluate(Evaluation(100, Sufficient, true, Some(1.0), 0));
    var silent := Evaluate(Evaluation(130, StaleData, false, None, 0));
    var e := Evaluation(160, Sufficient, true, Some(1.0), 0);
    assert [first, silent][..1] == [first] && [first][..0] == [];
    var one := StateAfter(rule, 60, [first]);
    assert StateAfter(rule, 60, [first][..0]) == ZERO_STATE;
    assert one == Decide(rule, ZERO_STATE, first.e, 60).next;
    assert StateAfter(rule, 60, [first, silent]) == Decide(rule, one, silent.e, 60).next;
    assert one.confirmedSlots == 1 && one.lastBreachSlot == 100;
    assert !Breach(([first, silent] + [Evaluate(e)])[1]);
  }
}
