/**
 The active-alert index and its backfill.

 Index keys are written when an event opens, removed when it resolves, and added to older events by
 a paginated backfill that runs while evaluators, users and rule edits keep changing the table.
 */
module ActiveIndex {
  import opened Wrappers
  import opened AlertDecide
  import opened AlertStore

  predicate Listed(row: EventRow) { row.status == Open || row.status == Acknowledged }

  /** Index keys exist only on open or acknowledged events. */
  ghost predicate IndexSound(db: Db) { forall e :: e in db.events && db.events[e].indexed ==> Listed(db.events[e]) }

  /** An open or acknowledged event that the index does not show. */
  predicate Missing(db: Db, e: EventId) { e in db.events && Listed(db.events[e]) && !db.events[e].indexed }

  ghost predicate IndexComplete(db: Db) { forall e :: e in db.events ==> !Missing(db, e) }

  // ---------------------------------------------------------------- what the other operations do

  lemma CommitIndexes(events: map<EventId, EventRow>, rule: Rule, s: State, v: Evaluation, e: EventId)
    requires Coherent(s) && e in CommittedEvents(events, Decide(rule, s, v, CADENCE))
    requires forall x :: x in events && events[x].indexed ==> Listed(events[x])
    ensures var events' := CommittedEvents(events, Decide(rule, s, v, CADENCE));
            && (events'[e].indexed ==> Listed(events'[e]))
            && (Listed(events'[e]) && !events'[e].indexed ==> e in events && Listed(events[e]) && !events[e].indexed)
  {
    DecisionShape(rule, s, v, CADENCE);
  }

  /** No operation breaks the index, and none leaves an event out of it. */
  lemma StepKeepsIndex(w: World, a: Action)
    requires IndexSound(w.db) && Enabled(w, a)
    ensures IndexSound(NextDb(w, a))
    ensures forall e :: Missing(NextDb(w, a), e) ==> Missing(w.db, e)
  {
    if a.Commit? {
      var l := w.clients[a.c];
      var d := DecisionOf(l.work, l.prior, a.quality, a.breached, a.value);
      if CanCommit(w.db, l.work, l.prior, d) {
        forall e | e in CommittedEvents(w.db.events, d)
          ensures var events' := CommittedEvents(w.db.events, d);
                  && (events'[e].indexed ==> Listed(events'[e]))
                  && (Listed(events'[e]) && !events'[e].indexed ==> Missing(w.db, e))
        {
          CommitIndexes(w.db.events, l.work.ToRule(), PriorState(l.prior),
                        EvaluationOf(l.work, a.quality, a.breached, a.value), e);
        }
      }
    }
  }

  /** Operations of the others between two steps of the backfill; those that cannot run are skipped. */
  function Interleave(w: World, actions: seq<Action>): World
    decreases |actions|
  {
    if actions == [] then w
    else Interleave(if Enabled(w, actions[0]) then Apply(w, actions[0]) else w, actions[1..])
  }

  lemma {:induction false} InterleavingKeepsIndex(w: World, actions: seq<Action>)
    requires IndexSound(w.db)
    ensures IndexSound(Interleave(w, actions).db)
    ensures forall e :: Missing(Interleave(w, actions).db, e) ==> Missing(w.db, e)
    decreases |actions|
  {
    if actions != [] {
      if Enabled(w, actions[0]) { StepKeepsIndex(w, actions[0]); }
      InterleavingKeepsIndex(if Enabled(w, actions[0]) then Apply(w, actions[0]) else w, actions[1..]);
    }
  }

  // ---------------------------------------------------------------- the backfill

  datatype Page = Page(items: seq<(EventId, EventRow)>, last: Option<int>)

  /** Events the scan has not reached yet: those whose sort key lies after the cursor. */
  ghost function Beyond(events: map<EventId, EventRow>, key: EventId -> int, cursor: Option<int>): set<EventId> {
    set e | e in events && (cursor.Some? ==> key(e) > cursor.value)
  }

  function WithKeys(db: Db, e: EventId): Db
    requires e in db.events
  {
    db.(events := db.events[e := db.events[e].(indexed := true)])
  }

  class Backfill {
    var world: World
    const key: EventId -> int

    constructor (w: World, key: EventId -> int)
      requires IndexSound(w.db)
      ensures world == w && this.key == key
    {
      world := w;
      this.key := key;
    }

    /** One page in sort-key order: every event between the cursor and the page's last key, with the
        row it had when the page was read.  No last key means the scan is over. */
    method QueryPage(cursor: Option<int>, pageSize: nat) returns (page: Page)
      requires pageSize >= 1 && forall a, b :: key(a) == key(b) ==> a == b
      ensures forall i :: 0 <= i < |page.items| ==>
                page.items[i].0 in Beyond(world.db.events, key, cursor)
                && page.items[i].1 == world.db.events[page.items[i].0]
      ensures forall e :: e in Beyond(world.db.events, key, cursor) ==>
                (exists i :: 0 <= i < |page.items| && page.items[i].0 == e)
                || e in Beyond(world.db.events, key, page.last)
      ensures page.last.None? ==> forall e :: e in Beyond(world.db.events, key, cursor) ==>
                exists i :: 0 <= i < |page.items| && page.items[i].0 == e
      ensures page.last.Some? ==> Beyond(world.db.events, key, page.last) < Beyond(world.db.events, key, cursor)
    {
      var rest := set e | e in world.db.events && (cursor.Some? ==> key(e) > cursor.value);
      var items: seq<(EventId, EventRow)> := [];
      var last: Option<int> := cursor;
      ghost var all := rest;
      while rest != {} && |items| < pageSize
        invariant rest <= all && all == Beyond(world.db.events, key, cursor)
        invariant forall i :: 0 <= i < |items| ==> items[i].0 in all && items[i].1 == world.db.events[items[i].0]
        invariant forall e :: e in all ==> e in rest || exists i :: 0 <= i < |items| && items[i].0 == e
        invariant |items| == 0 ==> rest == all && last == cursor
        invariant |items| > 0 ==> last.Some? && rest == Beyond(world.db.events, key, last) && rest < all
        decreases rest
      {
        var e := Least(rest);
        rest := rest - {e};
        items := items + [(e, world.db.events[e])];
        last := Some(key(e));
        assert rest == Beyond(world.db.events, key, last);
        assert items[|items| - 1].0 == e;
        forall x | x in all && x !in rest ensures exists i :: 0 <= i < |items| && items[i].0 == x {
          if x != e {
            var i :| 0 <= i < |items| - 1 && items[..|items| - 1][i].0 == x;
            assert items[i].0 == x;
          }
        }
      }
      page := Page(items, if rest == {} then None else last);
    }

    method Least(s: set<EventId>) returns (e: EventId)
      requires s != {}
      ensures e in s && forall x :: x in s ==> key(e) <= key(x)
    {
      e :| e in s;
      var rest := s - {e};
      while rest != {}
        invariant e in s && rest <= s && forall x :: x in s && x !in rest ==> key(e) <= key(x)
        decreases rest
      {
        var x :| x in rest;
        rest := rest - {x};
        if key(x) < key(e) { e := x; }
      }
    }

    /** `updateActiveAlertIndex`: add the keys if the event is still open or acknowledged. */
    method UpdateActiveAlertIndex(e: EventId) returns (updated: bool)
      requires IndexSound(world.db)
      modifies this`world
      ensures updated <==> Missing(old(world.db), e)
      ensures world.db == if updated then WithKeys(old(world.db), e) else old(world.db)
      ensures IndexSound(world.db) && forall x :: Missing(world.db, x) <==> Missing(old(world.db), x) && x != e
    {
      updated := e in world.db.events && Listed(world.db.events[e]) && !world.db.events[e].indexed;
      if updated {
        world := world.(db := WithKeys(world.db, e));
      }
    }

    /** One page of events, each checked as it was read and written under the condition it has now. */
    method ApplyPage(items: seq<(EventId, EventRow)>, others: seq<seq<Action>>, used: nat, ghost ahead: set<EventId>)
      returns (used': nat, updated: nat)
      requires IndexSound(world.db) && used <= |others|
      requires forall i :: 0 <= i < |items| && Missing(world.db, items[i].0) ==>
                 Listed(items[i].1) && !items[i].1.indexed
      requires forall e :: Missing(world.db, e) ==> e in ahead || exists i :: 0 <= i < |items| && items[i].0 == e
      modifies this`world
      ensures IndexSound(world.db) && used <= used' <= |others|
      ensures forall e :: Missing(world.db, e) ==> e in ahead && Missing(old(world.db), e)
      ensures used' == used ==> world.db.events.Keys == old(world.db.events.Keys)
    {
      used', updated := used, 0;
      for i := 0 to |items|
        invariant IndexSound(world.db) && used <= used' <= |others|
        invariant forall e :: Missing(world.db, e) ==> Missing(old(world.db), e)
        invariant forall e :: Missing(world.db, e) ==> e in ahead || exists j :: i <= j < |items| && items[j].0 == e
        invariant used' == used ==> world.db.events.Keys == old(world.db.events.Keys)
      {
        if used' < |others| {
          InterleavingKeepsIndex(world, others[used']);
          world := Interleave(world, others[used']);
          used' := used' + 1;
        }
        if Listed(items[i].1) && !items[i].1.indexed {
          var done := UpdateActiveAlertIndex(items[i].0);
          updated := updated + if done then 1 else 0;
        }
      }
    }

    /** `BackfillActiveAlertIndex` with apply and no limit.  The other operations run, in any finite
        amount and order, before every page read and before every write; when the pass returns, every
        open or acknowledged event carries its index keys. */
    method Run(pageSize: nat, others: seq<seq<Action>>) returns (updated: nat)
      requires IndexSound(world.db) && pageSize >= 1 && forall a, b :: key(a) == key(b) ==> a == b
      modifies this`world
      ensures IndexSound(world.db) && IndexComplete(world.db)
    {
      updated := 0;
      var cursor: Option<int> := None;
      var used := 0;
      var scanning := true;
      while scanning
        invariant IndexSound(world.db) && used <= |others|
        invariant forall e :: Missing(world.db, e) ==> scanning && e in Beyond(world.db.events, key, cursor)
        decreases scanning, |others| - used, Beyond(world.db.events, key, cursor)
      {
        if used < |others| {
          InterleavingKeepsIndex(world, others[used]);
          world := Interleave(world, others[used]);
          used := used + 1;
        }
        var page := QueryPage(cursor, pageSize);
        ghost var ahead: set<EventId> := if page.last.Some? then Beyond(world.db.events, key, page.last) else {};
        forall e | Missing(world.db, e)
          ensures e in ahead || exists i :: 0 <= i < |page.items| && page.items[i].0 == e
        {
          assert e in Beyond(world.db.events, key, cursor);
        }
        var used', n := ApplyPage(page.items, others, used, ahead);
        updated := updated + n;
        used := used';
        cursor, scanning := page.last, page.last.Some?;
      }
    }
  }

  // ---------------------------------------------------------------- theorems

  ghost function Indexed(db: Db): set<EventId> { set e | e in db.events && db.events[e].indexed }

  ghost function ActiveEvents(db: Db): set<EventId> { set e | e in db.events && Listed(db.events[e]) }

  /** In every run from a sound index the keys stay only on open and acknowledged events, and once the
      index is complete it stays complete: the indexed listing is the listing by status. */
  lemma IndexedListingIsListingByStatus(w: World, actions: seq<Action>)
    requires IndexSound(w.db) && IndexComplete(w.db)
    ensures Indexed(Interleave(w, actions).db) == ActiveEvents(Interleave(w, actions).db)
  {
    InterleavingKeepsIndex(w, actions);
    var db := Interleave(w, actions).db;
    forall e | e in db.events ensures db.events[e].indexed <==> Listed(db.events[e]) {
      assert !Missing(db, e) by { if e in w.db.events { assert !Missing(w.db, e); } }
    }
  }

  /** What a query of the index answers: the first of its entries by descending key, at most `limit` of
      them, and whether it stopped before the end.  It may stop early, at the store's own page size. */
  ghost predicate Answers(shown: set<EventId>, key: EventId -> int, limit: nat, items: seq<EventId>, truncated: bool) {
    && |items| <= limit
    && (forall i :: 0 <= i < |items| ==> items[i] in shown)
    && (forall i, j :: 0 <= i < j < |items| ==> key(items[i]) > key(items[j]))
    && (forall i, e :: 0 <= i < |items| && e in shown && e !in items ==> key(e) < key(items[i]))
    && (!truncated ==> forall e :: e in shown ==> e in items)
  }

  ghost function Newer(shown: set<EventId>, key: EventId -> int, e: EventId): set<EventId> {
    set x | x in shown && key(x) > key(e)
  }

  ghost function Members(items: seq<EventId>): set<EventId> { set e | e in items }

  lemma {:induction false} DistinctMembers(items: seq<EventId>, key: EventId -> int)
    requires forall i, j :: 0 <= i < j < |items| ==> key(items[i]) > key(items[j])
    ensures |Members(items)| == |items|
  {
    if items != [] {
      var n := |items| - 1;
      DistinctMembers(items[..n], key);
      assert Members(items) == Members(items[..n]) + {items[n]};
    }
  }

  lemma SubsetCount(a: set<EventId>, b: set<EventId>)
    requires a <= b
    ensures |a| <= |b|
  {
    assert b == a + (b - a);
  }

  /** An answer shows an entry exactly when fewer entries than it shows have a greater key. */
  lemma AnswerIsFirst(shown: set<EventId>, key: EventId -> int, limit: nat, items: seq<EventId>, truncated: bool,
                      e: EventId)
    requires Answers(shown, key, limit, items, truncated) && e in shown
    ensures e in items <==> |Newer(shown, key, e)| < |items|
  {
    if e in items {
      var i :| 0 <= i < |items| && items[i] == e;
      forall x | x in Newer(shown, key, e) ensures x in Members(items[..i]) {
        var j :| 0 <= j < |items| && items[j] == x;
        assert items[..i][j] == x;
      }
      DistinctMembers(items[..i], key);
      SubsetCount(Newer(shown, key, e), Members(items[..i]));
    } else {
      DistinctMembers(items, key);
      SubsetCount(Members(items), Newer(shown, key, e));
    }
  }

  /** `list_active_events`, in every run from a sound and complete index: it shows the newest open and
      acknowledged events, newest first and at most `limit` of them, and unless it reports that it was cut
      off it shows them all.  If only the limit cuts it off, it shows exactly the first `limit`. */
  lemma ListShowsNewestActive(w: World, actions: seq<Action>, key: EventId -> int, limit: nat, items: seq<EventId>,
                              truncated: bool)
    requires IndexSound(w.db) && IndexComplete(w.db)
    requires Answers(Indexed(Interleave(w, actions).db), key, limit, items, truncated)
    ensures var active := ActiveEvents(Interleave(w, actions).db);
            && |items| <= limit
            && (forall e :: e in items <==> e in active && |Newer(active, key, e)| < |items|)
            && (forall i, j :: 0 <= i < j < |items| ==> key(items[i]) > key(items[j]))
            && (!truncated ==> Members(items) == active)
            && ((truncated ==> |items| == limit) ==>
                  forall e :: e in items <==> e in active && |Newer(active, key, e)| < limit)
  {
    IndexedListingIsListingByStatus(w, actions);
    var active := ActiveEvents(Interleave(w, actions).db);
    forall e ensures e in items <==> e in active && |Newer(active, key, e)| < |items| {
      if e in active { AnswerIsFirst(active, key, limit, items, truncated, e); }
    }
  }
}
