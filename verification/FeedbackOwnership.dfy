/**
 Feedback of several attempts on one delivery.  Each attempt sends a message of its own, and the
 delivery follows the feedback of one attempt at a time: its provider owner.  Which events the
 delivery follows, and so where it ends, can depend on their order; this says exactly when.
 Identifiers of provider messages are modelled by the attempt they belong to.
 */
module FeedbackOwnership {
  import opened Wrappers
  import opened DeliveryStates
  import opened ProviderFeedback

  /** What a delivery row holds about its provider.  Rows from before ownership was recorded have no
      owner but may hold a message or an outcome. */
  datatype Delivery = Delivery(
    state: DeliveryState, outcome: Option<ProviderOutcome>, message: Option<nat>, owner: Option<nat>,
    last: Option<nat>, accepted: bool)

  datatype Event = Event(attempt: nat, outcome: ProviderOutcome)
  {
    /** Everything but a rejection shows that the provider took the message. */
    predicate AcceptedEvidence() { outcome != Rejected }

    predicate CompletesAttempt() { outcome != Delayed }
  }

  // ---------------------------------------------------------------- one event

  predicate SameOwner(d: Delivery, e: Event) { d.owner == Some(e.attempt) }

  predicate Latest(d: Delivery, e: Event) { d.last == Some(e.attempt) }

  /** The recorded owner or message is of another attempt. */
  predicate OwnedByAnother(d: Delivery, e: Event) {
    || (d.owner.Some? && !SameOwner(d, e))
    || (d.owner.None? && d.message.Some? && d.message != Some(e.attempt))
  }

  predicate AcceptedByAnother(d: Delivery, e: Event) { d.accepted && OwnedByAnother(d, e) }

  predicate LegacyOwner(d: Delivery, e: Event) {
    d.owner.None? && (d.last.None? || Latest(d, e)) && (d.message.None? || d.message == Some(e.attempt))
  }

  predicate AcceptedWithoutOwner(d: Delivery, e: Event) {
    e.AcceptedEvidence() && e.CompletesAttempt() && d.owner.None? && d.message.None? && d.outcome.None?
  }

  predicate Owns(d: Delivery, e: Event) {
    SameOwner(d, e) || Latest(d, e) || LegacyOwner(d, e) || AcceptedWithoutOwner(d, e)
  }

  /** `reconcileDeliveryProviderMetadata` and the delivery update it leads to. */
  function Reconcile(d: Delivery, e: Event): (r: Delivery)
    requires AcceptsFeedback(d.state)
    ensures AcceptsFeedback(r.state) && r.last == d.last && (!Owns(d, e) ==> r == d)
    ensures d.state in {Cancelled, PermanentFailed} ==> r.state == d.state
  {
    if !Owns(d, e) then d
    else
      var takesOver := Latest(d, e) && OwnedByAnother(d, e);
      var outcome := if takesOver then None else d.outcome;
      var message := if takesOver then None else d.message;
      Delivery(
        ReconcileState(d.state, if e.outcome == Rejected && AcceptedByAnother(d, e) then Accepted else e.outcome),
        Some(ReconcileOutcome(outcome, e.outcome)), if message.Some? then message else Some(e.attempt),
        Some(e.attempt), d.last, d.accepted || e.AcceptedEvidence())
  }

  function Final(d: Delivery, events: seq<Event>): (r: Delivery)
    requires AcceptsFeedback(d.state)
    ensures AcceptsFeedback(r.state) && r.last == d.last
    ensures d.state in {Cancelled, PermanentFailed} ==> r.state == d.state
    decreases |events|
  {
    if events == [] then d else Final(Reconcile(d, events[0]), events[1..])
  }

  // ---------------------------------------------------------------- following one attempt

  /** Among the attempts `named`, the delivery follows `x` alone, and takes its feedback at face value. */
  ghost predicate FollowsOnly(d: Delivery, named: set<nat>, x: nat) {
    && (forall y, o :: y in named && y != x ==> !Owns(d, Event(y, o)))
    && (forall y :: y in named && y != x ==> d.last != Some(y))
    && (forall o :: x in named ==> Owns(d, Event(x, o)) && !AcceptedByAnother(d, Event(x, o)))
  }

  function OfAttempt(events: seq<Event>, x: nat): seq<ProviderOutcome> {
    if events == [] then []
    else (if events[0].attempt == x then [events[0].outcome] else []) + OfAttempt(events[1..], x)
  }

  predicate Named(events: seq<Event>, named: set<nat>) {
    forall i :: 0 <= i < |events| ==> events[i].attempt in named
  }

  function Starts(d: Delivery, x: nat): View {
    View(d.state, if OwnedByAnother(d, Event(x, Accepted)) then None else d.outcome)
  }

  /** The delivery after the outcomes of the attempt it follows, from the one-attempt fold. */
  function Followed(d: Delivery, x: nat, outcomes: seq<ProviderOutcome>): Delivery
    requires AcceptsFeedback(d.state)
  {
    if outcomes == [] then d
    else
      var view := Fold(Starts(d, x), outcomes);
      var message := if OwnedByAnother(d, Event(x, Accepted)) then None else d.message;
      Delivery(view.state, view.outcome, if message.Some? then message else Some(x), Some(x), d.last,
               d.accepted || exists o :: o in outcomes && o != Rejected)
  }

  lemma StillFollows(d: Delivery, named: set<nat>, x: nat, e: Event)
    requires AcceptsFeedback(d.state) && FollowsOnly(d, named, x) && e.attempt in named
    ensures FollowsOnly(Reconcile(d, e), named, x)
  {
    if e.attempt == x {
      assert Owns(d, Event(x, e.outcome));
    } else {
      assert !Owns(d, Event(e.attempt, e.outcome));
    }
  }

  lemma FollowOne(d: Delivery, x: nat, o: ProviderOutcome, rest: seq<ProviderOutcome>)
    requires AcceptsFeedback(d.state) && Owns(d, Event(x, o)) && !AcceptedByAnother(d, Event(x, o))
    ensures Followed(Reconcile(d, Event(x, o)), x, rest) == Followed(d, x, [o] + rest)
  {
    var next, all := Reconcile(d, Event(x, o)), [o] + rest;
    assert all[1..] == rest && all[0] == o;
    assert Absorb(Starts(d, x), o) == View(next.state, next.outcome);
    assert Fold(Starts(d, x), all) == Fold(View(next.state, next.outcome), rest);
    EvidenceSplits(o, rest);
  }

  lemma EvidenceSplits(o: ProviderOutcome, rest: seq<ProviderOutcome>)
    ensures (exists p :: p in [o] + rest && p != Rejected) <==> o != Rejected || exists p :: p in rest && p != Rejected
  {
    assert o in [o] + rest;
    forall p | p in rest ensures p in [o] + rest {
    }
  }

  lemma {:induction false} FinalIsFollowed(d: Delivery, named: set<nat>, x: nat, events: seq<Event>)
    requires AcceptsFeedback(d.state) && FollowsOnly(d, named, x) && Named(events, named)
    ensures Final(d, events) == Followed(d, x, OfAttempt(events, x))
    decreases |events|
  {
    if events != [] {
      var e, rest := events[0], events[1..];
      StillFollows(d, named, x, e);
      FinalIsFollowed(Reconcile(d, e), named, x, rest);
      if e.attempt == x {
        assert Owns(d, Event(x, e.outcome)) && !AcceptedByAnother(d, Event(x, e.outcome));
        FollowOne(d, x, e.outcome, OfAttempt(rest, x));
      } else {
        assert !Owns(d, Event(e.attempt, e.outcome));
        assert OfAttempt(events, x) == OfAttempt(rest, x);
      }
    }
  }

  lemma {:induction false} SameOutcomes(events: seq<Event>, x: nat, o: ProviderOutcome)
    ensures o in OfAttempt(events, x) <==> Event(x, o) in events
    decreases |events|
  {
    if events != [] {
      SameOutcomes(events[1..], x, o);
      assert events == [events[0]] + events[1..];
    }
  }

  /** For a delivery that follows one attempt, neither order nor duplication of events matters. */
  lemma FollowedInAnyOrder(d: Delivery, named: set<nat>, x: nat, events: seq<Event>, again: seq<Event>)
    requires AcceptsFeedback(d.state) && FollowsOnly(d, named, x) && Named(events, named)
    requires forall e :: e in events <==> e in again
    ensures Final(d, events) == Final(d, again)
  {
    forall i | 0 <= i < |again| ensures again[i].attempt in named {
      assert again[i] in again;
    }
    FinalIsFollowed(d, named, x, events);
    FinalIsFollowed(d, named, x, again);
    forall o ensures o in OfAttempt(events, x) <==> o in OfAttempt(again, x) {
      SameOutcomes(events, x, o);
      SameOutcomes(again, x, o);
    }
    SameSetFollowed(d, x, OfAttempt(events, x), OfAttempt(again, x));
  }

  lemma SameSetFollowed(d: Delivery, x: nat, outcomes: seq<ProviderOutcome>, again: seq<ProviderOutcome>)
    requires AcceptsFeedback(d.state) && forall o :: o in outcomes <==> o in again
    ensures Followed(d, x, outcomes) == Followed(d, x, again)
  {
    assert outcomes == [] <==> again == [] by {
      if outcomes != [] { assert outcomes[0] in again; }
      if again != [] { assert again[0] in outcomes; }
    }
    OrderAndDuplicatesDoNotMatter(Starts(d, x), outcomes, again);
  }

  // ---------------------------------------------------------------- the exact law

  /** Whatever the events of the attempts `named` are, only one attempt has a say: the owner, unless the
      last attempt is another one that may take over; for a delivery without owner the last attempt, or
      any single attempt if there is no last one.  A takeover must not find an earlier acceptance. */
  predicate Steady(d: Delivery, named: set<nat>) {
    || d.state in {Cancelled, PermanentFailed}
    || match d.owner
       case Some(o) => d.last.None? || d.last.value == o || d.last.value !in named || (o !in named && !d.accepted)
       case None =>
         if d.message.Some? then d.last.None? || d.last == d.message || d.last.value !in named || !d.accepted
         else if d.last.None? then forall x, y :: x in named && y in named ==> x == y
         else d.outcome.Some? || named <= {d.last.value}
  }

  /** Every list of events of these attempts ends in one state, in whatever order it arrives. */
  ghost predicate OrderIsIrrelevant(d: Delivery, named: set<nat>)
    requires AcceptsFeedback(d.state)
  {
    forall events, again :: Named(events, named) && multiset(events) == multiset(again) ==>
      Final(d, events).state == Final(d, again).state
  }

  /** The attempt a steady delivery follows. */
  ghost function Followee(d: Delivery, named: set<nat>): nat {
    match d.owner
    case Some(o) => if d.last.Some? && d.last.value in named then d.last.value else o
    case None =>
      if d.last.Some? then d.last.value
      else if d.message.Some? then d.message.value
      else if named == {} then 0
      else var x :| x in named; x
  }

  lemma SteadyFollows(d: Delivery, named: set<nat>)
    requires Steady(d, named) && d.state !in {Cancelled, PermanentFailed}
    ensures FollowsOnly(d, named, Followee(d, named))
  {
  }

  /** The pair of events that tells the orders apart. */
  ghost function Witness(d: Delivery, named: set<nat>): (Event, Event)
    requires !Steady(d, named)
  {
    match d.owner
    case Some(o) =>
      if o in named then (Event(o, Rejected), Event(d.last.value, DeliveredToMailServer))
      else (Event(d.last.value, DeliveredToMailServer), Event(d.last.value, Rejected))
    case None =>
      if d.message.Some? then (Event(d.last.value, DeliveredToMailServer), Event(d.last.value, Rejected))
      else if d.last.None? then
        var x, y :| x in named && y in named && x != y;
        (Event(x, Rejected), Event(y, DeliveredToMailServer))
      else
        var x :| x in named && x != d.last.value;
        (Event(x, DeliveredToMailServer), Event(x, Rejected))
  }

  lemma TwoEvents(d: Delivery, a: Event, b: Event)
    requires AcceptsFeedback(d.state)
    ensures Final(d, [a, b]) == Reconcile(Reconcile(d, a), b)
  {
    var next := Reconcile(d, a);
    assert [a, b][1..] == [b] && [b][1..] == [];
    assert Final(next, [b]) == Final(Reconcile(next, b), []);
  }

  lemma WitnessTellsOrdersApart(d: Delivery, named: set<nat>)
    requires AcceptsFeedback(d.state) && !Steady(d, named)
    ensures var (a, b) := Witness(d, named);
            && a.attempt in named && b.attempt in named
            && Final(d, [a, b]).state == PermanentFailed && Final(d, [b, a]).state == Succeeded
  {
    var (a, b) := Witness(d, named);
    TwoEvents(d, a, b);
    TwoEvents(d, b, a);
  }

  /** Order is irrelevant to where the delivery ends if and only if one attempt has a say. */
  lemma OrderMattersExactly(d: Delivery, named: set<nat>)
    requires AcceptsFeedback(d.state)
    ensures OrderIsIrrelevant(d, named) <==> Steady(d, named)
  {
    if Steady(d, named) {
      forall events, again | Named(events, named) && multiset(events) == multiset(again)
        ensures Final(d, events).state == Final(d, again).state
      {
        SameMembers(events, again);
        if d.state !in {Cancelled, PermanentFailed} {
          SteadyFollows(d, named);
          FollowedInAnyOrder(d, named, Followee(d, named), events, again);
        }
      }
    } else {
      WitnessTellsOrdersApart(d, named);
      var (a, b) := Witness(d, named);
      assert Named([a, b], named) && multiset([a, b]) == multiset([b, a]);
    }
  }

  lemma SameMembers(events: seq<Event>, again: seq<Event>)
    requires multiset(events) == multiset(again)
    ensures forall e :: e in events <==> e in again
  {
    forall e ensures e in events <==> e in again {
      assert e in events <==> e in multiset(events);
      assert e in again <==> e in multiset(again);
    }
  }

  /** For a steady delivery that has not failed or been cancelled, every field is independent of order
      and of duplicates. */
  lemma SteadyEndsAlike(d: Delivery, named: set<nat>, events: seq<Event>, again: seq<Event>)
    requires AcceptsFeedback(d.state) && d.state !in {Cancelled, PermanentFailed} && Steady(d, named)
    requires Named(events, named) && forall e :: e in events <==> e in again
    ensures Final(d, events) == Final(d, again)
  {
    SteadyFollows(d, named);
    FollowedInAnyOrder(d, named, Followee(d, named), events, again);
  }

  /** A delivery whose second attempt is under way hears that the first was delivered and the second
      rejected: it ends as succeeded or as failed, depending on which it hears first. */
  lemma TwoAttemptsDependOnOrder()
    ensures var d := Delivery(Processing, None, None, None, Some(2), false);
            var first, second := Event(1, DeliveredToMailServer), Event(2, Rejected);
            && Final(d, [first, second]).state == Succeeded
            && Final(d, [second, first]).state == PermanentFailed
  {
    var d := Delivery(Processing, None, None, None, Some(2), false);
    TwoEvents(d, Event(1, DeliveredToMailServer), Event(2, Rejected));
    TwoEvents(d, Event(2, Rejected), Event(1, DeliveredToMailServer));
  }
}
