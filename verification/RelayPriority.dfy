/**
 The relay's weighted interleaving of due work: four deliveries, one intent and one dependency per
 round of six, starting at a slot that rotates with the minute.
 */
module RelayPriority {
  datatype Kind = Delivery | Intent | Dependency | Unlisted

  datatype Candidate = Candidate(kind: Kind, id: nat)

  const KINDS := [Delivery, Intent, Dependency]
  const PATTERN := [Delivery, Delivery, Intent, Delivery, Delivery, Dependency]

  predicate Listed(k: Kind) { k != Unlisted }

  function Weight(k: Kind): nat
    requires Listed(k)
  {
    if k == Delivery then 4 else 1
  }

  /** The candidates of one kind, in order. */
  function Of(k: Kind, xs: seq<Candidate>): (r: seq<Candidate>)
    ensures |r| <= |xs|
  {
    if xs == [] then []
    else
      var last := xs[|xs| - 1];
      Of(k, xs[..|xs| - 1]) + (if last.kind == k then [last] else [])
  }

  /** How often a kind occurs in a pattern. */
  function Slots(k: Kind, pattern: seq<Kind>): (n: nat)
    ensures n <= |pattern|
  {
    if pattern == [] then 0
    else Slots(k, pattern[..|pattern| - 1]) + (if pattern[|pattern| - 1] == k then 1 else 0)
  }

  lemma OfAppends(k: Kind, xs: seq<Candidate>, x: Candidate)
    ensures Of(k, xs + [x]) == Of(k, xs) + (if x.kind == k then [x] else [])
  {
    assert (xs + [x])[..|xs|] == xs;
  }

  lemma {:induction false} SlotsConcat(k: Kind, p: seq<Kind>, q: seq<Kind>)
    ensures Slots(k, p + q) == Slots(k, p) + Slots(k, q)
    decreases |q|
  {
    if q == [] {
      assert p + q == p;
    } else {
      assert (p + q)[..|p + q| - 1] == p + q[..|q| - 1];
      SlotsConcat(k, p, q[..|q| - 1]);
    }
  }

  lemma SlotsStep(k: Kind, p: seq<Kind>, t: nat)
    requires t < |p|
    ensures Slots(k, p[..t + 1]) == Slots(k, p[..t]) + (if p[t] == k then 1 else 0)
  {
    assert p[..t + 1][..t] == p[..t];
  }

  /** Rotation by a slot number, which may be negative. */
  function Rotate(kinds: seq<Kind>, slot: int): (r: seq<Kind>)
    requires kinds != []
    ensures |r| == |kinds| && multiset(r) == multiset(kinds)
    ensures forall k :: Slots(k, r) == Slots(k, kinds)
  {
    var n := slot % |kinds|;
    assert kinds == kinds[..n] + kinds[n..];
    assert forall k :: Slots(k, kinds[n..] + kinds[..n]) == Slots(k, kinds) by {
      forall k ensures Slots(k, kinds[n..] + kinds[..n]) == Slots(k, kinds) {
        SlotsConcat(k, kinds[n..], kinds[..n]);
        SlotsConcat(k, kinds[..n], kinds[n..]);
      }
    }
    kinds[n..] + kinds[..n]
  }

  lemma PatternWeights(k: Kind)
    requires Listed(k)
    ensures Slots(k, PATTERN) == Weight(k)
  {
    SlotsStep(k, PATTERN, 0);
    SlotsStep(k, PATTERN, 1);
    SlotsStep(k, PATTERN, 2);
    SlotsStep(k, PATTERN, 3);
    SlotsStep(k, PATTERN, 4);
    SlotsStep(k, PATTERN, 5);
    assert PATTERN[..6] == PATTERN;
  }

  /** A kind with slots in a pattern occurs in it. */
  lemma {:induction false} SlotExists(k: Kind, p: seq<Kind>)
    requires Slots(k, p) > 0
    ensures k in p
  {
    if p[|p| - 1] != k {
      SlotExists(k, p[..|p| - 1]);
    }
  }

  // What an ordering must satisfy

  /** The candidate at `p` is the j-th of its kind and comes within round j / weight. */
  ghost predicate Timely(ordered: seq<Candidate>, p: nat)
    requires p < |ordered|
  {
    Listed(ordered[p].kind) && p < 6 * (|Of(ordered[p].kind, ordered[..p])| / Weight(ordered[p].kind) + 1)
  }

  ghost predicate AllTimely(ordered: seq<Candidate>) {
    forall p :: 0 <= p < |ordered| ==> Timely(ordered, p)
  }

  lemma TimelyAppends(ordered: seq<Candidate>, x: Candidate)
    requires AllTimely(ordered) && Listed(x.kind)
    requires |ordered| < 6 * (|Of(x.kind, ordered)| / Weight(x.kind) + 1)
    ensures AllTimely(ordered + [x])
  {
    var next := ordered + [x];
    forall p | 0 <= p < |next| ensures Timely(next, p) {
      if p < |ordered| {
        assert Timely(ordered, p);
        assert next[..p] == ordered[..p];
      } else {
        assert next[..p] == ordered;
      }
    }
  }

  lemma RoundBound(taken: nat, weight: nat, round: nat, slot: nat, length: nat)
    requires (weight == 1 || weight == 4) && weight * round <= taken && length <= 6 * round + slot && slot < 6
    ensures length < 6 * (taken / weight + 1)
  {
    assert round <= taken / weight;
  }

  ghost predicate Split(ordered: seq<Candidate>, queues: map<Kind, seq<Candidate>>, candidates: seq<Candidate>) {
    forall k :: Listed(k) ==> k in queues && Of(k, ordered) + queues[k] == Of(k, candidates)
  }

  /** Rounds done and slots of the current one: a kind that still waits has used every slot it had. */
  ghost predicate Paced(ordered: seq<Candidate>, queues: map<Kind, seq<Candidate>>, pattern: seq<Kind>, round: nat,
                        slot: nat)
    requires slot <= |pattern|
  {
    forall k :: Listed(k) && k in queues && queues[k] != [] ==>
      |Of(k, ordered)| == Weight(k) * round + Slots(k, pattern[..slot])
  }

  lemma TakeKeeps(ordered: seq<Candidate>, queues: map<Kind, seq<Candidate>>, candidates: seq<Candidate>, kind: Kind)
    requires Listed(kind) && Split(ordered, queues, candidates) && queues[kind] != []
    requires queues[kind][0].kind == kind
    ensures Split(ordered + [queues[kind][0]], queues[kind := queues[kind][1..]], candidates)
  {
    forall k | Listed(k)
      ensures Of(k, ordered + [queues[kind][0]]) + queues[kind := queues[kind][1..]][k] == Of(k, candidates)
    {
      OfAppends(k, ordered, queues[kind][0]);
    }
  }

  lemma PacedAfterTake(ordered: seq<Candidate>, queues: map<Kind, seq<Candidate>>, pattern: seq<Kind>, round: nat,
                       slot: nat)
    requires slot < |pattern| && Listed(pattern[slot]) && pattern[slot] in queues && queues[pattern[slot]] != []
    requires queues[pattern[slot]][0].kind == pattern[slot]
    requires Paced(ordered, queues, pattern, round, slot)
    ensures var kind := pattern[slot];
            Paced(ordered + [queues[kind][0]], queues[kind := queues[kind][1..]], pattern, round, slot + 1)
  {
    var kind := pattern[slot];
    forall k | Listed(k) && k in queues && queues[kind := queues[kind][1..]][k] != []
      ensures |Of(k, ordered + [queues[kind][0]])| == Weight(k) * round + Slots(k, pattern[..slot + 1])
    {
      OfAppends(k, ordered, queues[kind][0]);
      SlotsStep(k, pattern, slot);
    }
  }

  lemma PacedAfterSkip(ordered: seq<Candidate>, queues: map<Kind, seq<Candidate>>, pattern: seq<Kind>, round: nat,
                       slot: nat)
    requires slot < |pattern| && pattern[slot] in queues && queues[pattern[slot]] == []
    requires Paced(ordered, queues, pattern, round, slot)
    ensures Paced(ordered, queues, pattern, round, slot + 1)
  {
    forall k | Listed(k) && k in queues && queues[k] != []
      ensures |Of(k, ordered)| == Weight(k) * round + Slots(k, pattern[..slot + 1])
    {
      SlotsStep(k, pattern, slot);
    }
  }

  lemma PacedNextRound(ordered: seq<Candidate>, queues: map<Kind, seq<Candidate>>, pattern: seq<Kind>, round: nat)
    requires forall k :: Slots(k, pattern) == Slots(k, PATTERN)
    requires Paced(ordered, queues, pattern, round, |pattern|)
    ensures Paced(ordered, queues, pattern, round + 1, 0)
  {
    assert pattern[..|pattern|] == pattern;
    forall k | Listed(k) && k in queues && queues[k] != []
      ensures |Of(k, ordered)| == Weight(k) * (round + 1) + Slots(k, pattern[..0])
    {
      PatternWeights(k);
      assert Weight(k) * (round + 1) == Weight(k) * round + Weight(k);
    }
  }

  lemma {:induction false} OfKind(k: Kind, xs: seq<Candidate>)
    ensures forall c :: c in Of(k, xs) ==> c.kind == k && c in xs
  {
    if xs != [] {
      OfKind(k, xs[..|xs| - 1]);
    }
  }

  /** The candidates of the listed kinds and no others, each kind in its own order. */
  ghost predicate Regroups(ordered: seq<Candidate>, candidates: seq<Candidate>) {
    && (forall c :: c in ordered ==> Listed(c.kind))
    && (forall k :: Listed(k) ==> Of(k, ordered) == Of(k, candidates))
  }

  method FillQueues(candidates: seq<Candidate>) returns (queues: map<Kind, seq<Candidate>>)
    ensures Split([], queues, candidates)
  {
    queues := map[Delivery := [], Intent := [], Dependency := [], Unlisted := []];
    forall k: Kind ensures k in queues && queues[k] == [] {
      match k case Delivery => case Intent => case Dependency => case Unlisted =>
    }
    var i := 0;
    while i < |candidates|
      invariant 0 <= i <= |candidates|
      invariant forall k :: k in queues && queues[k] == Of(k, candidates[..i])
    {
      var c := candidates[i];
      forall k ensures Of(k, candidates[..i + 1]) == Of(k, candidates[..i]) + (if c.kind == k then [c] else []) {
        assert candidates[..i + 1] == candidates[..i] + [c];
        OfAppends(k, candidates[..i], c);
      }
      queues := queues[c.kind := queues[c.kind] + [c]];
      i := i + 1;
    }
    assert candidates[..|candidates|] == candidates;
  }

  /** Where an ordering stands after `slot` slots of a round. */
  ghost predicate Standing(next: seq<Candidate>, left: map<Kind, seq<Candidate>>, candidates: seq<Candidate>,
                           pattern: seq<Kind>, round: nat, slot: nat)
    requires slot <= |pattern|
  {
    && Split(next, left, candidates) && AllTimely(next)
    && |next| <= 6 * round + slot && Paced(next, left, pattern, round, slot)
  }

  lemma TakeStands(next: seq<Candidate>, left: map<Kind, seq<Candidate>>, candidates: seq<Candidate>,
                   pattern: seq<Kind>, round: nat, slot: nat)
    requires |pattern| == 6 && slot < 6 && Listed(pattern[slot])
    requires Standing(next, left, candidates, pattern, round, slot) && left[pattern[slot]] != []
    ensures var kind := pattern[slot];
            Standing(next + [left[kind][0]], left[kind := left[kind][1..]], candidates, pattern, round, slot + 1)
  {
    var kind := pattern[slot];
    QueueHolds(next, left, candidates, kind);
    RoundBound(|Of(kind, next)|, Weight(kind), round, slot, |next|);
    TimelyAppends(next, left[kind][0]);
    TakeKeeps(next, left, candidates, kind);
    PacedAfterTake(next, left, pattern, round, slot);
  }

  lemma SkipStands(next: seq<Candidate>, left: map<Kind, seq<Candidate>>, candidates: seq<Candidate>,
                   pattern: seq<Kind>, round: nat, slot: nat)
    requires |pattern| == 6 && slot < 6 && Listed(pattern[slot])
    requires Standing(next, left, candidates, pattern, round, slot) && left[pattern[slot]] == []
    ensures Standing(next, left, candidates, pattern, round, slot + 1)
  {
    PacedAfterSkip(next, left, pattern, round, slot);
  }

  lemma RoundStands(next: seq<Candidate>, left: map<Kind, seq<Candidate>>, candidates: seq<Candidate>,
                    pattern: seq<Kind>, round: nat)
    requires |pattern| == 6 && forall k :: Slots(k, pattern) == Slots(k, PATTERN)
    requires Standing(next, left, candidates, pattern, round, 6)
    ensures Standing(next, left, candidates, pattern, round + 1, 0)
  {
    PacedNextRound(next, left, pattern, round);
  }

  /** One slot of the pattern takes the first candidate waiting for it, if any. */
  method Slot(next: seq<Candidate>, left: map<Kind, seq<Candidate>>, pattern: seq<Kind>, slot: nat,
              ghost candidates: seq<Candidate>, ghost round: nat)
    returns (more: seq<Candidate>, rest: map<Kind, seq<Candidate>>, taken: bool)
    requires |pattern| == 6 && slot < 6 && Listed(pattern[slot])
    requires Standing(next, left, candidates, pattern, round, slot)
    ensures Standing(more, rest, candidates, pattern, round, slot + 1)
    ensures taken ==> |more| == |next| + 1
    ensures !taken ==> more == next && rest == left && left[pattern[slot]] == []
  {
    var kind := pattern[slot];
    taken := left[kind] != [];
    if taken {
      TakeStands(next, left, candidates, pattern, round, slot);
      more, rest := next + [left[kind][0]], left[kind := left[kind][1..]];
    } else {
      SkipStands(next, left, candidates, pattern, round, slot);
      more, rest := next, left;
    }
  }

  /** One pass over the pattern takes at most one candidate per slot. */
  method Round(ordered: seq<Candidate>, queues: map<Kind, seq<Candidate>>, pattern: seq<Kind>,
               ghost candidates: seq<Candidate>, ghost round: nat)
    returns (next: seq<Candidate>, left: map<Kind, seq<Candidate>>, progress: bool)
    requires |pattern| == 6 && (forall i :: 0 <= i < 6 ==> Listed(pattern[i]))
    requires Standing(ordered, queues, candidates, pattern, round, 0)
    ensures Standing(next, left, candidates, pattern, round, 6)
    ensures progress ==> |next| > |ordered|
    ensures !progress ==>
              next == ordered && left == queues && forall i :: 0 <= i < 6 ==> Waiting(left, pattern[i]) == []
  {
    next, left, progress := ordered, queues, false;
    var slot := 0;
    while slot < |pattern|
      invariant 0 <= slot <= |pattern|
      invariant Standing(next, left, candidates, pattern, round, slot)
      invariant |ordered| <= |next| && (progress ==> |next| > |ordered|)
      invariant !progress ==>
                  next == ordered && left == queues && forall i :: 0 <= i < slot ==> Waiting(left, pattern[i]) == []
    {
      var taken;
      next, left, taken := Slot(next, left, pattern, slot, candidates, round);
      progress := progress || taken;
      slot := slot + 1;
    }
  }

  function Waiting(queues: map<Kind, seq<Candidate>>, k: Kind): seq<Candidate> {
    if k in queues then queues[k] else []
  }

  lemma NothingWaits(queues: map<Kind, seq<Candidate>>, pattern: seq<Kind>)
    requires forall i :: 0 <= i < |pattern| ==> Waiting(queues, pattern[i]) == []
    requires forall k :: Listed(k) ==> k in pattern
    ensures forall k :: Listed(k) && k in queues ==> queues[k] == []
  {
    forall k | Listed(k) && k in queues ensures queues[k] == [] {
      var i :| 0 <= i < |pattern| && pattern[i] == k;
      assert Waiting(queues, pattern[i]) == [];
    }
  }

  lemma QueueHolds(ordered: seq<Candidate>, queues: map<Kind, seq<Candidate>>, candidates: seq<Candidate>, kind: Kind)
    requires Listed(kind) && Split(ordered, queues, candidates) && queues[kind] != []
    ensures queues[kind][0].kind == kind
  {
    OfKind(kind, candidates);
    assert (Of(kind, ordered) + queues[kind])[|Of(kind, ordered)|] == queues[kind][0];
    assert queues[kind][0] in Of(kind, ordered) + queues[kind];
  }

  lemma {:induction false} SizeByKind(xs: seq<Candidate>)
    ensures |xs| == |Of(Delivery, xs)| + |Of(Intent, xs)| + |Of(Dependency, xs)| + |Of(Unlisted, xs)|
  {
    if xs != [] {
      SizeByKind(xs[..|xs| - 1]);
    }
  }

  lemma {:induction false} TimelyIsListed(xs: seq<Candidate>)
    requires AllTimely(xs)
    ensures forall c :: c in xs ==> Listed(c.kind)
  {
    forall c | c in xs ensures Listed(c.kind) {
      var p :| 0 <= p < |xs| && xs[p] == c;
      assert Timely(xs, p);
    }
  }

  lemma {:induction false} NoneOf(k: Kind, xs: seq<Candidate>)
    requires forall c :: c in xs ==> c.kind != k
    ensures Of(k, xs) == []
  {
    if xs != [] {
      NoneOf(k, xs[..|xs| - 1]);
    }
  }

  lemma FullMeansEmptyQueues(ordered: seq<Candidate>, queues: map<Kind, seq<Candidate>>, candidates: seq<Candidate>)
    requires Split(ordered, queues, candidates) && AllTimely(ordered) && |ordered| >= |candidates|
    ensures forall k :: Listed(k) ==> queues[k] == []
  {
    SizeByKind(ordered);
    SizeByKind(candidates);
    TimelyIsListed(ordered);
    NoneOf(Unlisted, ordered);
    SplitSize(ordered, queues, candidates, Delivery);
    SplitSize(ordered, queues, candidates, Intent);
    SplitSize(ordered, queues, candidates, Dependency);
  }

  lemma SplitSize(ordered: seq<Candidate>, queues: map<Kind, seq<Candidate>>, candidates: seq<Candidate>, k: Kind)
    requires Listed(k) && Split(ordered, queues, candidates)
    ensures |Of(k, ordered)| + |queues[k]| == |Of(k, candidates)|
  {
    assert |Of(k, ordered) + queues[k]| == |Of(k, candidates)|;
  }

  /** A pattern with every kind in it, all of its queues empty or nothing left over: all is placed. */
  lemma Drained(ordered: seq<Candidate>, queues: map<Kind, seq<Candidate>>, candidates: seq<Candidate>)
    requires Split(ordered, queues, candidates) && AllTimely(ordered)
    requires |ordered| >= |candidates| || forall k :: Listed(k) ==> queues[k] == []
    ensures Regroups(ordered, candidates)
  {
    if |ordered| >= |candidates| {
      FullMeansEmptyQueues(ordered, queues, candidates);
    }
    TimelyIsListed(ordered);
    forall k | Listed(k) ensures Of(k, ordered) == Of(k, candidates) {
      assert Of(k, ordered) + queues[k] == Of(k, ordered);
    }
  }

  lemma EveryKindHasASlot(pattern: seq<Kind>, k: Kind)
    requires Listed(k) && Slots(k, pattern) == Slots(k, PATTERN)
    ensures k in pattern
  {
    PatternWeights(k);
    SlotExists(k, pattern);
  }

  method StartingPattern(minute: int) returns (pattern: seq<Kind>)
    ensures |pattern| == 6 && multiset(pattern) == multiset(PATTERN)
    ensures forall k :: Slots(k, pattern) == Slots(k, PATTERN)
    ensures forall k :: k in pattern <==> Listed(k)
  {
    pattern := Rotate(PATTERN, minute);
    forall k ensures k in pattern <==> Listed(k) {
      assert k in pattern <==> k in multiset(pattern);
      assert k in multiset(PATTERN) <==> k in PATTERN;
      if Listed(k) {
        EveryKindHasASlot(pattern, k);
      }
    }
  }

  /** The interleaving keeps every candidate of a listed kind, in order within its kind, and places the
      j-th candidate of a kind in round j / weight at the latest, for every starting slot. */
  method Prioritize(candidates: seq<Candidate>, minute: int) returns (ordered: seq<Candidate>)
    ensures Regroups(ordered, candidates)
    ensures AllTimely(ordered)
  {
    var queues := FillQueues(candidates);
    var pattern := StartingPattern(minute);
    ordered := [];
    ghost var round := 0;
    var progress := true;
    while progress && |ordered| < |candidates|
      invariant Standing(ordered, queues, candidates, pattern, round, 0)
      invariant !progress ==> forall k :: Listed(k) && k in queues ==> queues[k] == []
      decreases progress, |candidates| - |ordered|
    {
      ordered, queues, progress := Round(ordered, queues, pattern, candidates, round);
      RoundStands(ordered, queues, candidates, pattern, round);
      if !progress {
        NothingWaits(queues, pattern);
      }
      round := round + 1;
    }
    Drained(ordered, queues, candidates);
  }

  // What the ordering is for

  lemma {:induction false} CountsByKind(xs: seq<Candidate>, c: Candidate)
    ensures multiset(xs)[c] == multiset(Of(c.kind, xs))[c]
  {
    if xs != [] {
      var n := |xs| - 1;
      CountsByKind(xs[..n], c);
      assert xs == xs[..n] + [xs[n]];
    }
  }

  /** It is a permutation exactly when every candidate has a listed kind. */
  lemma PermutationExactly(ordered: seq<Candidate>, candidates: seq<Candidate>)
    requires Regroups(ordered, candidates)
    ensures multiset(ordered) == multiset(candidates) <==> forall c :: c in candidates ==> Listed(c.kind)
  {
    if forall c :: c in candidates ==> Listed(c.kind) {
      forall c ensures multiset(ordered)[c] == multiset(candidates)[c] {
        if Listed(c.kind) {
          CountsByKind(ordered, c);
          CountsByKind(candidates, c);
        } else {
          assert c !in ordered && c !in candidates;
        }
      }
    } else {
      var c :| c in candidates && !Listed(c.kind);
      assert c !in ordered;
      assert c in multiset(candidates) && c !in multiset(ordered);
    }
  }

  /** Where the j-th candidate of a kind stands. */
  lemma {:induction false} PositionOf(k: Kind, xs: seq<Candidate>, j: nat) returns (p: nat)
    requires j < |Of(k, xs)|
    ensures p < |xs| && xs[p].kind == k && |Of(k, xs[..p])| == j && Of(k, xs)[j] == xs[p]
  {
    var n := |xs| - 1;
    if j < |Of(k, xs[..n])| {
      p := PositionOf(k, xs[..n], j);
      assert xs[..n][..p] == xs[..p];
    } else {
      p := n;
    }
  }

  lemma {:induction false} OfPrefix(k: Kind, xs: seq<Candidate>, n: nat)
    requires n <= |xs|
    ensures Of(k, xs[..n]) <= Of(k, xs)
  {
    if n < |xs| {
      OfPrefix(k, xs[..|xs| - 1], n);
      assert xs[..|xs| - 1][..n] == xs[..n];
    } else {
      assert xs[..n] == xs;
    }
  }

  /** Truncating to a work budget starves no kind: a budget of 6 (j / weight + 1) keeps the first j + 1
      candidates of a kind, the same ones and in the same order as they were discovered. */
  lemma BudgetKeepsEveryKind(ordered: seq<Candidate>, candidates: seq<Candidate>, k: Kind, j: nat, budget: nat)
    requires Regroups(ordered, candidates) && AllTimely(ordered)
    requires Listed(k) && j < |Of(k, candidates)| && 6 * (j / Weight(k) + 1) <= budget
    ensures var kept := if budget < |ordered| then ordered[..budget] else ordered;
            |Of(k, kept)| > j && Of(k, kept) <= Of(k, candidates)
  {
    var kept := if budget < |ordered| then ordered[..budget] else ordered;
    assert kept == ordered[..|kept|];
    OfPrefix(k, ordered, |kept|);
    ReachedBy(ordered, k, j, |kept|);
  }

  lemma ReachedBy(ordered: seq<Candidate>, k: Kind, j: nat, cut: nat)
    requires AllTimely(ordered) && Listed(k) && j < |Of(k, ordered)| && cut <= |ordered|
    requires cut == |ordered| || 6 * (j / Weight(k) + 1) <= cut
    ensures |Of(k, ordered[..cut])| > j
  {
    if cut == |ordered| {
      assert ordered[..cut] == ordered;
    } else {
      var p := PositionOf(k, ordered, j);
      assert Timely(ordered, p);
      var upTo := ordered[..p + 1];
      assert ordered[..cut][..p + 1] == upTo == ordered[..p] + [ordered[p]];
      OfAppends(k, ordered[..p], ordered[p]);
      OfPrefix(k, ordered[..cut], p + 1);
    }
  }
}
