/**
 Provider feedback reaches a delivery in any order and any number of times.  Folding the events of one
 attempt into the state and the provider outcome gives a result that depends only on which events arrived.
 Events of several attempts are the subject of `FeedbackOwnership`.
 */
module ProviderFeedback {
  import opened Wrappers
  import opened DeliveryStates

  datatype View = View(state: DeliveryState, outcome: Option<ProviderOutcome>)

  function Absorb(v: View, e: ProviderOutcome): (r: View)
    requires AcceptsFeedback(v.state)
    ensures AcceptsFeedback(r.state)
    ensures v.state in {Cancelled, PermanentFailed} ==> r.state == v.state
    ensures Terminal(v.state) ==> Terminal(r.state)
  {
    View(ReconcileState(v.state, e), Some(ReconcileOutcome(v.outcome, e)))
  }

  function Fold(v: View, events: seq<ProviderOutcome>): (r: View)
    requires AcceptsFeedback(v.state)
    ensures AcceptsFeedback(r.state)
    ensures v.state in {Cancelled, PermanentFailed} ==> r.state == v.state
    ensures Terminal(v.state) ==> Terminal(r.state)
    decreases |events|
  {
    if events == [] then v else Fold(Absorb(v, events[0]), events[1..])
  }

  /** The state the events leave, from their set alone. */
  function SettledState(s: DeliveryState, seen: set<ProviderOutcome>): DeliveryState {
    if s in {Cancelled, PermanentFailed} then s
    else if Rejected in seen then PermanentFailed
    else if seen <= {Delayed} then s
    else Succeeded
  }

  /** `best` is the highest ranked of the events and the outcome already recorded. */
  ghost predicate Highest(best: Option<ProviderOutcome>, start: Option<ProviderOutcome>, seen: set<ProviderOutcome>) {
    && (best == start || (best.Some? && best.value in seen))
    && (start.Some? ==> best.Some? && Rank(start.value) <= Rank(best.value))
    && (forall e :: e in seen ==> best.Some? && Rank(e) <= Rank(best.value))
  }

  function Seen(events: seq<ProviderOutcome>): set<ProviderOutcome> { set e | e in events }

  lemma {:induction false} FoldIsClosedForm(v: View, events: seq<ProviderOutcome>)
    requires AcceptsFeedback(v.state)
    ensures Fold(v, events).state == SettledState(v.state, Seen(events))
    ensures Highest(Fold(v, events).outcome, v.outcome, Seen(events))
    decreases |events|
  {
    if events != [] {
      var next := Absorb(v, events[0]);
      FoldIsClosedForm(next, events[1..]);
      SeenSplits(events);
    }
  }

  lemma SeenSplits(events: seq<ProviderOutcome>)
    requires events != []
    ensures Seen(events) == {events[0]} + Seen(events[1..])
  {
    assert events == [events[0]] + events[1..];
  }

  lemma RankIsInjective(a: ProviderOutcome, b: ProviderOutcome)
    requires Rank(a) == Rank(b)
    ensures a == b
  {
  }

  lemma HighestIsUnique(a: Option<ProviderOutcome>, b: Option<ProviderOutcome>, start: Option<ProviderOutcome>,
                        seen: set<ProviderOutcome>)
    requires Highest(a, start, seen) && Highest(b, start, seen)
    ensures a == b
  {
    if a.Some? && b.Some? {
      assert Rank(a.value) <= Rank(b.value) && Rank(b.value) <= Rank(a.value);
      RankIsInjective(a.value, b.value);
    }
  }

  /** Any order and any duplication of the same events of one attempt ends in the same state and outcome. */
  lemma OrderAndDuplicatesDoNotMatter(v: View, events: seq<ProviderOutcome>, again: seq<ProviderOutcome>)
    requires AcceptsFeedback(v.state)
    requires forall e :: e in events <==> e in again
    ensures Fold(v, events) == Fold(v, again)
  {
    FoldIsClosedForm(v, events);
    FoldIsClosedForm(v, again);
    assert Seen(events) == Seen(again);
    HighestIsUnique(Fold(v, events).outcome, Fold(v, again).outcome, v.outcome, Seen(events));
  }

  /** Redelivering everything after it has been absorbed changes nothing. */
  lemma RedeliveryIsAbsorbed(v: View, events: seq<ProviderOutcome>, more: seq<ProviderOutcome>)
    requires AcceptsFeedback(v.state)
    requires forall e :: e in more ==> e in events
    ensures Fold(Fold(v, events), more) == Fold(v, events)
  {
    FoldSplits(v, events, more);
    OrderAndDuplicatesDoNotMatter(v, events + more, events);
  }

  lemma {:induction false} FoldSplits(v: View, events: seq<ProviderOutcome>, more: seq<ProviderOutcome>)
    requires AcceptsFeedback(v.state)
    ensures Fold(v, events + more) == Fold(Fold(v, events), more)
    decreases |events|
  {
    if events == [] {
      assert events + more == more;
    } else {
      assert (events + more)[1..] == events[1..] + more;
      FoldSplits(Absorb(v, events[0]), events[1..], more);
    }
  }
}
