/**
 Temporal Component Deployments: the single-table protocol of `start_deployment` and
 `end_deployment`.

 Every call is a few separate consistent reads followed by one conditional transaction, and any
 number of calls interleave between those steps.  A run is a sequence of `Action`s; the theorems
 at the end are about every run from every well-formed table.
 */
module Deployments {
  import opened Wrappers

  // ---------------------------------------------------------------- rows

  datatype HistoryKey = HistoryKey(component: nat, startedAt: int, id: nat)
  datatype MirrorKey = MirrorKey(tenant: nat, id: nat)

  /** Half-open interval `[startedAt, endedAt)`; it is active exactly while it has no end. */
  datatype Deployment = Deployment(
    tenant: nat, id: nat, component: nat, site: nat, asset: nat,
    startedAt: int, endedAt: Option<int>, updatedAt: int, version: int)
  {
    predicate Active() { endedAt.None? }

    predicate Valid() { endedAt.Some? ==> startedAt < endedAt.value }

    predicate Contains(at: int) { startedAt <= at && (endedAt.Some? ==> at < endedAt.value) }

    function History(): HistoryKey { HistoryKey(component, startedAt, id) }

    function Mirror(): MirrorKey { MirrorKey(tenant, id) }

    function EndedAt(end: int, stamp: int): Deployment {
      this.(endedAt := Some(end), updatedAt := stamp, version := version + 1)
    }

    /** The fields no later write changes. */
    predicate SameIdentity(other: Deployment) {
      && tenant == other.tenant && id == other.id && component == other.component
      && site == other.site && asset == other.asset && startedAt == other.startedAt
    }
  }

  datatype Marker = Marker(tenant: nat, sequence: int, lastEndedAt: Option<int>)

  datatype Parent = Parent(tenant: nat, active: bool)

  datatype Table = Table(
    mirror: map<MirrorKey, Deployment>,
    history: map<HistoryKey, Deployment>,
    current: map<nat, Deployment>,
    marker: map<nat, Marker>,
    receipts: set<nat>,
    components: map<nat, Parent>,
    activeAssets: set<(nat, nat)>,
    activeSites: set<(nat, nat)>)

  // ---------------------------------------------------------------- well-formed tables

  ghost predicate Disjoint(a: Deployment, b: Deployment) {
    || (a.endedAt.Some? && a.endedAt.value <= b.startedAt)
    || (b.endedAt.Some? && b.endedAt.value <= a.startedAt)
  }

  /** Intervals of one Component never overlap; in particular at most one is open. */
  ghost predicate IntervalsDisjoint(t: Table) {
    forall j, k :: j in t.history && k in t.history && j != k && j.component == k.component
      ==> Disjoint(t.history[j], t.history[k])
  }

  ghost predicate HistoryRows(t: Table) {
    forall k :: k in t.history ==>
      && t.history[k].History() == k && t.history[k].Valid()
      && k.component in t.components && t.components[k.component].tenant == t.history[k].tenant
  }

  /** The tenant mirror and the history hold the same deployments with the same contents. */
  ghost predicate MirrorsAgree(t: Table) {
    && (forall k :: k in t.history ==>
          t.history[k].Mirror() in t.mirror && t.mirror[t.history[k].Mirror()] == t.history[k])
    && (forall m :: m in t.mirror ==>
          && t.mirror[m].Mirror() == m
          && t.mirror[m].History() in t.history && t.history[t.mirror[m].History()] == t.mirror[m])
  }

  /** CURRENT exists exactly when the Component has an open interval, and equals it. */
  ghost predicate CurrentAgrees(t: Table) {
    && (forall c :: c in t.current ==>
          && t.current[c].Active() && t.current[c].component == c
          && t.current[c].History() in t.history && t.history[t.current[c].History()] == t.current[c])
    && (forall k :: k in t.history && t.history[k].Active() ==>
          k.component in t.current && t.current[k.component] == t.history[k])
  }

  /** `end` is the latest end of the Component's history, or None when nothing has ended. */
  ghost predicate LatestEnd(t: Table, c: nat, end: Option<int>) {
    && (forall k :: k in t.history && k.component == c && t.history[k].endedAt.Some?
          ==> end.Some? && t.history[k].endedAt.value <= end.value)
    && (end.Some? ==> exists k :: k in t.history && k.component == c && t.history[k].endedAt == end)
  }

  ghost predicate MarkersAgree(t: Table) {
    forall c :: c in t.marker ==>
      && c in t.components && t.marker[c].tenant == t.components[c].tenant
      && LatestEnd(t, c, t.marker[c].lastEndedAt)
  }

  /** What every interleaving keeps.  A Component with history but no marker is well formed. */
  ghost predicate WellFormed(t: Table) {
    && HistoryRows(t) && IntervalsDisjoint(t) && MirrorsAgree(t) && CurrentAgrees(t) && MarkersAgree(t)
  }

  // ---------------------------------------------------------------- reads

  /** Sort-key order of history rows of one Component. */
  predicate KeyLeq(a: HistoryKey, b: HistoryKey) {
    a.startedAt < b.startedAt || (a.startedAt == b.startedAt && a.id <= b.id)
  }

  predicate InRange(k: HistoryKey, c: nat, upTo: Option<int>) {
    k.component == c && (upTo.Some? ==> k.startedAt <= upTo.value)
  }

  /** The answer of a descending, limit-one history query bounded by `upTo`. */
  ghost predicate QueryLatest(t: Table, c: nat, upTo: Option<int>, answer: Option<HistoryKey>) {
    match answer
    case None => forall k :: k in t.history ==> !InRange(k, c, upTo)
    case Some(a) =>
      && a in t.history && InRange(a, c, upTo)
      && forall k :: k in t.history && InRange(k, c, upTo) ==> KeyLeq(k, a)
  }

  /** `get_deployment_at`: keep the single queried row only if it is the tenant's and contains `at`. */
  function DeploymentAt(t: Table, tenant: nat, at: int, answer: Option<HistoryKey>): (r: Option<Deployment>)
    requires answer.Some? ==> answer.value in t.history
  {
    if answer.None? || t.history[answer.value].tenant != tenant then None
    else if t.history[answer.value].Contains(at) then Some(t.history[answer.value])
    else None
  }

  // ---------------------------------------------------------------- transactions

  datatype Conflict =
    | IdempotencyReused | AlreadyActive | Overlaps | ComponentInactive | AssetInactive
    | SiteInactive | AlreadyExists | NotActive | VersionChanged | ChangedConcurrently | Unclassified

  datatype Outcome =
    | Started(deployment: Deployment)
    | Ended(deployment: Deployment)
    | Refused(conflict: Conflict)
    | NotFound
    | InvalidRequest

  predicate StartMarkerHolds(t: Table, d: Deployment, seen: Option<Marker>) {
    match seen
    case None => d.component !in t.marker
    case Some(m) =>
      && d.component in t.marker
      && t.marker[d.component].sequence == m.sequence && t.marker[d.component].tenant == d.tenant
      && (t.marker[d.component].lastEndedAt.Some? ==> t.marker[d.component].lastEndedAt.value <= d.startedAt)
  }

  predicate ParentActive(t: Table, d: Deployment) {
    d.component in t.components && t.components[d.component] == Parent(d.tenant, true)
  }

  /** Indexes of the start transaction's actions whose condition fails. */
  function StartFailures(t: Table, d: Deployment, receipt: nat, seen: Option<Marker>): set<nat> {
    (if d.Mirror() in t.mirror then {0} else {}) +
    (if d.History() in t.history then {1} else {}) +
    (if d.component in t.current then {2} else {}) +
    (if StartMarkerHolds(t, d, seen) then {} else {3}) +
    (if receipt in t.receipts then {4} else {}) +
    (if ParentActive(t, d) then {} else {5}) +
    (if (d.tenant, d.asset) in t.activeAssets then {} else {6}) +
    (if (d.tenant, d.site) in t.activeSites then {} else {7})
  }

  function ClassifyStart(failed: set<nat>): Conflict {
    if 4 in failed then IdempotencyReused
    else if 2 in failed then AlreadyActive
    else if 3 in failed then Overlaps
    else if 5 in failed then ComponentInactive
    else if 6 in failed then AssetInactive
    else if 7 in failed then SiteInactive
    else if 0 in failed || 1 in failed then AlreadyExists
    else Unclassified
  }

  function StartedTable(t: Table, d: Deployment, receipt: nat, seen: Option<Marker>, previousEnd: Option<int>): Table
    requires seen.Some? ==> d.component in t.marker
  {
    var marker := match seen
      case None => Marker(d.tenant, 1, previousEnd)
      case Some(m) => Marker(d.tenant, m.sequence + 1, t.marker[d.component].lastEndedAt);
    t.(mirror := t.mirror[d.Mirror() := d],
       history := t.history[d.History() := d],
       current := t.current[d.component := d],
       marker := t.marker[d.component := marker],
       receipts := t.receipts + {receipt})
  }

  /** Condition shared by the mirror and the history update of an end. */
  predicate EndRowHolds(row: Deployment, seen: Deployment) {
    row.version == seen.version && row.Active() && row.tenant == seen.tenant && row.id == seen.id
  }

  predicate EndMarkerHolds(t: Table, seen: Deployment, sequence: Option<int>) {
    match sequence
    case None => seen.component !in t.marker
    case Some(s) =>
      seen.component in t.marker && t.marker[seen.component].sequence == s
      && t.marker[seen.component].tenant == seen.tenant
  }

  function EndFailures(t: Table, seen: Deployment, sequence: Option<int>): set<nat> {
    (if seen.Mirror() in t.mirror && EndRowHolds(t.mirror[seen.Mirror()], seen) then {} else {0}) +
    (if seen.History() in t.history && EndRowHolds(t.history[seen.History()], seen) then {} else {1}) +
    (if seen.component in t.current && t.current[seen.component].id == seen.id
        && t.current[seen.component].version == seen.version && t.current[seen.component].tenant == seen.tenant
     then {} else {2}) +
    (if EndMarkerHolds(t, seen, sequence) then {} else {3})
  }

  function EndedTable(t: Table, seen: Deployment, sequence: Option<int>, end: int, stamp: int): Table
    requires seen.Mirror() in t.mirror && seen.History() in t.history
  {
    var next := match sequence case None => 1 case Some(s) => s + 1;
    var mirrored := t.mirror[seen.Mirror()].(endedAt := Some(end), updatedAt := stamp, version := seen.version + 1);
    var recorded := t.history[seen.History()].(endedAt := Some(end), updatedAt := stamp, version := seen.version + 1);
    t.(mirror := t.mirror[seen.Mirror() := mirrored],
       history := t.history[seen.History() := recorded],
       current := t.current - {seen.component},
       marker := t.marker[seen.component := Marker(seen.tenant, next, Some(end))])
  }

  // ---------------------------------------------------------------- clients

  /** Where one call stands between two of its steps. */
  datatype Client =
    | StartReadMarker(d: Deployment, receipt: nat)
    | StartReadHistory(d: Deployment, receipt: nat, seen: Option<Marker>)
    | StartCommit(d: Deployment, receipt: nat, seen: Option<Marker>, previousEnd: Option<int>)
    | EndReadMirror(tenant: nat, id: nat, expectedVersion: int, end: int)
    | EndReadMarker(row: Deployment, end: int)
    | EndCommit(row: Deployment, end: int, sequence: Option<int>)
    | Done(outcome: Outcome)

  datatype World = World(table: Table, clients: map<nat, Client>)

  datatype Request =
    | Start(d: Deployment, receipt: nat)
    | End(tenant: nat, id: nat, expectedVersion: int, end: int)

  /** A call begins, a call takes its next step, or something outside the protocol changes the
      parents and the idempotency receipts.  A crashed call is one that never advances again. */
  datatype Action =
    | Invoke(client: nat, request: Request)
    | Advance(client: nat, answer: Option<HistoryKey>, clock: int)
    | Outside(receipts: set<nat>, components: map<nat, Parent>, assets: set<(nat, nat)>, sites: set<(nat, nat)>)

  function Lookup<K, V>(m: map<K, V>, k: K): Option<V> { if k in m then Some(m[k]) else None }

  function Max(a: int, b: int): int { if a < b then b else a }

  function CommitStart(t: Table, c: Client): (Table, Client)
    requires c.StartCommit?
  {
    var failed := StartFailures(t, c.d, c.receipt, c.seen);
    if failed == {} then (StartedTable(t, c.d, c.receipt, c.seen, c.previousEnd), Done(Started(c.d)))
    else (t, Done(Refused(ClassifyStart(failed))))
  }

  function CommitEnd(t: Table, c: Client, clock: int): (Table, Client)
    requires c.EndCommit?
  {
    var failed := EndFailures(t, c.row, c.sequence);
    var stamp := Max(clock, c.row.updatedAt);
    if failed == {} then (EndedTable(t, c.row, c.sequence, c.end, stamp), Done(Ended(c.row.EndedAt(c.end, stamp))))
    else (t, Done(Refused(if failed == {3} then ChangedConcurrently else VersionChanged)))
  }

  /** One step of one call: the table and the call afterwards. */
  function StepClient(t: Table, c: Client, answer: Option<HistoryKey>, clock: int): (Table, Client)
    requires answer.Some? ==> answer.value in t.history
  {
    match c
    case StartReadMarker(d, receipt) =>
      if !d.Active() then (t, Done(InvalidRequest))
      else
        var seen := Lookup(t.marker, d.component);
        if seen.Some? && seen.value.lastEndedAt.Some? && d.startedAt < seen.value.lastEndedAt.value
        then (t, Done(Refused(Overlaps)))
        else (t, StartReadHistory(d, receipt, seen))
    case StartReadHistory(d, receipt, seen) =>
      if answer.None? then (t, StartCommit(d, receipt, seen, None))
      else
        var previous := t.history[answer.value];
        if previous.endedAt.None? then (t, Done(Refused(AlreadyActive)))
        else if d.startedAt < previous.endedAt.value then (t, Done(Refused(Overlaps)))
        else (t, StartCommit(d, receipt, seen, previous.endedAt))
    case StartCommit(_, _, _, _) => CommitStart(t, c)
    case EndReadMirror(tenant, id, expectedVersion, end) =>
      var row := Lookup(t.mirror, MirrorKey(tenant, id));
      if row.None? then (t, Done(NotFound))
      else if !row.value.Active() then (t, Done(Refused(NotActive)))
      else if row.value.version != expectedVersion then (t, Done(Refused(VersionChanged)))
      else if end <= row.value.startedAt then (t, Done(InvalidRequest))
      else (t, EndReadMarker(row.value, end))
    case EndReadMarker(row, end) =>
      (t, EndCommit(row, end, if row.component in t.marker then Some(t.marker[row.component].sequence) else None))
    case EndCommit(_, _, _) => CommitEnd(t, c, clock)
    case Done(_) => (t, c)
  }

  ghost predicate Enabled(w: World, a: Action) {
    match a
    case Invoke(_, _) => true
    case Advance(c, answer, _) =>
      && c in w.clients
      && (answer.Some? ==> answer.value in w.table.history)
      && (w.clients[c].StartReadHistory? ==> QueryLatest(w.table, w.clients[c].d.component, None, answer))
    case Outside(_, components, _, _) =>
      forall c :: c in w.table.components ==>
        c in components && components[c].tenant == w.table.components[c].tenant
  }

  ghost function Apply(w: World, a: Action): World
    requires Enabled(w, a)
  {
    match a
    case Invoke(c, Start(d, receipt)) => w.(clients := w.clients[c := StartReadMarker(d, receipt)])
    case Invoke(c, End(tenant, id, version, end)) =>
      w.(clients := w.clients[c := EndReadMirror(tenant, id, version, end)])
    case Advance(c, answer, clock) =>
      var (t, next) := StepClient(w.table, w.clients[c], answer, clock);
      World(t, w.clients[c := next])
    case Outside(receipts, components, assets, sites) =>
      w.(table := w.table.(receipts := receipts, components := components, activeAssets := assets,
                           activeSites := sites))
  }

  ghost predicate Legal(w: World, actions: seq<Action>)
    decreases |actions|
  {
    actions == [] || (Enabled(w, actions[0]) && Legal(Apply(w, actions[0]), actions[1..]))
  }

  ghost function Exec(w: World, actions: seq<Action>): World
    requires Legal(w, actions)
    decreases |actions|
  {
    if actions == [] then w else Exec(Apply(w, actions[0]), actions[1..])
  }

  // ---------------------------------------------------------------- inductive invariant

  /** What a start observed is not newer than the table. */
  ghost predicate Observed(t: Table, c: nat, seen: Option<Marker>) {
    seen.Some? ==> c in t.marker && seen.value.sequence <= t.marker[c].sequence
  }

  /** The marker has not moved since it was observed. */
  ghost predicate Fresh(t: Table, c: nat, seen: Option<Marker>) {
    match seen
    case None => c !in t.marker
    case Some(m) => c in t.marker && t.marker[c].sequence == m.sequence
  }

  /** Every interval of the Component has ended by `start`, and `previousEnd` is the last end. */
  ghost predicate Follows(t: Table, c: nat, start: int, previousEnd: Option<int>) {
    && (forall k :: k in t.history && k.component == c ==>
        t.history[k].endedAt.Some? && t.history[k].endedAt.value <= start)
    && LatestEnd(t, c, previousEnd)
  }

  ghost predicate ClientInvariant(t: Table, c: Client) {
    match c
    case StartReadHistory(d, _, seen) => d.Active() && Observed(t, d.component, seen)
    case StartCommit(d, _, seen, previousEnd) =>
      && d.Active() && Observed(t, d.component, seen)
      && (Fresh(t, d.component, seen) ==> Follows(t, d.component, d.startedAt, previousEnd))
    case EndReadMarker(row, end) => EndTarget(t, row, end)
    case EndCommit(row, end, _) => EndTarget(t, row, end)
    case _ => true
  }

  ghost predicate EndTarget(t: Table, row: Deployment, end: int) {
    && row.Active() && row.startedAt < end
    && row.Mirror() in t.mirror && t.mirror[row.Mirror()].SameIdentity(row)
  }

  ghost predicate Invariant(w: World) {
    && WellFormed(w.table)
    && forall c :: c in w.clients ==> ClientInvariant(w.table, w.clients[c])
  }

  /** A well-formed table before any call has begun; markerless history is allowed. */
  ghost predicate Initial(w: World) { WellFormed(w.table) && w.clients == map[] }

  // ---------------------------------------------------------------- the latest row decides

  /** With disjoint intervals, the row that starts last also ends last. */
  lemma LatestRowEndsLast(t: Table, c: nat, a: HistoryKey)
    requires HistoryRows(t) && IntervalsDisjoint(t) && QueryLatest(t, c, None, Some(a))
    requires t.history[a].endedAt.Some?
    ensures forall k :: k in t.history && k.component == c ==>
              t.history[k].endedAt.Some? && t.history[k].endedAt.value <= t.history[a].endedAt.value
    ensures LatestEnd(t, c, t.history[a].endedAt)
  {
    forall k | k in t.history && k.component == c
      ensures t.history[k].endedAt.Some? && t.history[k].endedAt.value <= t.history[a].endedAt.value
    {
      if k != a {
        assert InRange(k, c, None) && Disjoint(t.history[k], t.history[a]);
        assert t.history[k].History() == k && t.history[a].History() == a;
      }
    }
  }

  /** A limit-one query always has exactly one answer. */
  lemma QueryHasOneAnswer(t: Table, c: nat, upTo: Option<int>)
    ensures exists r :: QueryLatest(t, c, upTo, r)
    ensures forall r, s :: QueryLatest(t, c, upTo, r) && QueryLatest(t, c, upTo, s) ==> r == s
  {
    var keys := set k | k in t.history && InRange(k, c, upTo);
    if keys == {} {
      assert forall k :: k in t.history && InRange(k, c, upTo) ==> k in keys;
      assert QueryLatest(t, c, upTo, None);
    } else {
      var a := MaximalKey(keys, c);
      assert forall k :: k in t.history && InRange(k, c, upTo) ==> k in keys;
      assert QueryLatest(t, c, upTo, Some(a));
    }
    forall r, s | QueryLatest(t, c, upTo, r) && QueryLatest(t, c, upTo, s) ensures r == s {
      if r.Some? && s.Some? { assert KeyLeq(r.value, s.value) && KeyLeq(s.value, r.value); }
    }
  }

  lemma MaximalKey(keys: set<HistoryKey>, c: nat) returns (a: HistoryKey)
    requires keys != {} && forall k :: k in keys ==> k.component == c
    ensures a in keys && forall k :: k in keys ==> KeyLeq(k, a)
    decreases keys
  {
    var x :| x in keys;
    if keys == {x} {
      a := x;
    } else {
      assert keys - {x} != {};
      var b := MaximalKey(keys - {x}, c);
      a := if KeyLeq(x, b) then b else x;
      forall k | k in keys ensures KeyLeq(k, a) {
        assert k == x || k in keys - {x};
      }
    }
  }

  // ---------------------------------------------------------------- every step keeps the invariant

  lemma StartHolds(t: Table, d: Deployment, receipt: nat, seen: Option<Marker>)
    requires StartFailures(t, d, receipt, seen) == {}
    ensures d.Mirror() !in t.mirror && d.History() !in t.history && d.component !in t.current
    ensures StartMarkerHolds(t, d, seen) && receipt !in t.receipts && ParentActive(t, d)
    ensures (d.tenant, d.asset) in t.activeAssets && (d.tenant, d.site) in t.activeSites
  {
    var failed := StartFailures(t, d, receipt, seen);
    assert 0 !in failed && 1 !in failed && 2 !in failed && 3 !in failed;
    assert 4 !in failed && 5 !in failed && 6 !in failed && 7 !in failed;
  }

  /** The rows of a table with one more open deployment, when every earlier one has ended. */
  lemma StartKeepsRows(t: Table, t': Table, d: Deployment)
    requires HistoryRows(t) && IntervalsDisjoint(t) && MirrorsAgree(t)
    requires d.Active() && d.Mirror() !in t.mirror && ParentActive(t, d)
    requires forall k :: k in t.history && k.component == d.component ==>
               t.history[k].endedAt.Some? && t.history[k].endedAt.value <= d.startedAt
    requires t'.history == t.history[d.History() := d] && t'.mirror == t.mirror[d.Mirror() := d]
    requires t'.components == t.components
    ensures HistoryRows(t') && IntervalsDisjoint(t') && MirrorsAgree(t')
  {
    forall k | k in t.history ensures t.history[k].Mirror() != d.Mirror() && k != d.History() {
      assert t.history[k].Mirror() in t.mirror && t.history[k].History() == k;
    }
    forall j, k | j in t'.history && k in t'.history && j != k && j.component == k.component
      ensures Disjoint(t'.history[j], t'.history[k])
    {
      if j != d.History() && k != d.History() { assert Disjoint(t.history[j], t.history[k]); }
    }
  }

  lemma StartKeepsCurrent(t: Table, t': Table, d: Deployment)
    requires CurrentAgrees(t) && d.Active() && d.History() !in t.history
    requires forall k :: k in t.history && k.component == d.component ==> t.history[k].endedAt.Some?
    requires t'.history == t.history[d.History() := d] && t'.current == t.current[d.component := d]
    ensures CurrentAgrees(t')
  {
  }

  /** A row without an end does not move the latest end. */
  lemma OpenRowKeepsLatestEnd(t: Table, t': Table, d: Deployment, c: nat, end: Option<int>)
    requires LatestEnd(t, c, end) && d.Active() && d.History() !in t.history
    requires t'.history == t.history[d.History() := d]
    ensures LatestEnd(t', c, end)
  {
    if end.Some? {
      var k :| k in t.history && k.component == c && t.history[k].endedAt == end;
      assert k in t'.history && t'.history[k].endedAt == end;
    }
  }

  lemma StartKeepsMarkers(t: Table, t': Table, d: Deployment)
    requires MarkersAgree(t) && d.Active() && d.History() !in t.history && ParentActive(t, d)
    requires d.component in t'.marker && t'.marker[d.component].tenant == d.tenant
    requires LatestEnd(t, d.component, t'.marker[d.component].lastEndedAt)
    requires t'.marker == t.marker[d.component := t'.marker[d.component]]
    requires t'.history == t.history[d.History() := d] && t'.components == t.components
    ensures MarkersAgree(t')
  {
    forall n | n in t'.marker ensures LatestEnd(t', n, t'.marker[n].lastEndedAt) {
      OpenRowKeepsLatestEnd(t, t', d, n, t'.marker[n].lastEndedAt);
    }
  }

  lemma StartKeepsWellFormed(t: Table, c: Client)
    requires c.StartCommit? && WellFormed(t) && ClientInvariant(t, c)
    requires StartFailures(t, c.d, c.receipt, c.seen) == {}
    ensures WellFormed(StartedTable(t, c.d, c.receipt, c.seen, c.previousEnd))
  {
    var d := c.d;
    StartHolds(t, d, c.receipt, c.seen);
    var t' := StartedTable(t, d, c.receipt, c.seen, c.previousEnd);
    assert Follows(t, d.component, d.startedAt, c.previousEnd);
    StartKeepsRows(t, t', d);
    StartKeepsCurrent(t, t', d);
    StartKeepsMarkers(t, t', d);
  }

  lemma EndHolds(t: Table, row: Deployment, sequence: Option<int>)
    requires EndFailures(t, row, sequence) == {}
    ensures row.Mirror() in t.mirror && EndRowHolds(t.mirror[row.Mirror()], row)
    ensures row.History() in t.history && EndRowHolds(t.history[row.History()], row)
    ensures row.component in t.current && t.current[row.component].id == row.id
    ensures EndMarkerHolds(t, row, sequence)
  {
    var failed := EndFailures(t, row, sequence);
    assert 0 !in failed && 1 !in failed && 2 !in failed && 3 !in failed;
  }

  /** The rows after the open deployment `open` has been replaced by its ended form `ended`. */
  lemma EndKeepsRows(t: Table, t': Table, open: Deployment, ended: Deployment)
    requires HistoryRows(t) && IntervalsDisjoint(t) && MirrorsAgree(t)
    requires open.Active() && open.History() in t.history && t.history[open.History()] == open
    requires ended.SameIdentity(open) && ended.endedAt.Some? && ended.Valid()
    requires t'.history == t.history[open.History() := ended] && t'.mirror == t.mirror[open.Mirror() := ended]
    requires t'.components == t.components
    ensures HistoryRows(t') && IntervalsDisjoint(t') && MirrorsAgree(t')
  {
    EndKeepsMirrors(t, t', open, ended);
    forall j, k | j in t'.history && k in t'.history && j != k && j.component == k.component
      ensures Disjoint(t'.history[j], t'.history[k])
    {
      assert Disjoint(t.history[j], t.history[k]);
    }
  }

  lemma EndKeepsMirrors(t: Table, t': Table, open: Deployment, ended: Deployment)
    requires HistoryRows(t) && MirrorsAgree(t)
    requires open.History() in t.history && t.history[open.History()] == open && ended.SameIdentity(open)
    requires t'.history == t.history[open.History() := ended] && t'.mirror == t.mirror[open.Mirror() := ended]
    ensures MirrorsAgree(t')
  {
    forall k | k in t.history && k != open.History() ensures t.history[k].Mirror() != open.Mirror() {
      assert t.mirror[t.history[k].Mirror()] == t.history[k];
      assert t.mirror[open.Mirror()] == open;
    }
  }

  lemma EndKeepsCurrent(t: Table, t': Table, open: Deployment, ended: Deployment)
    requires IntervalsDisjoint(t) && CurrentAgrees(t)
    requires open.Active() && open.History() in t.history && t.history[open.History()] == open
    requires ended.SameIdentity(open) && ended.endedAt.Some?
    requires t'.history == t.history[open.History() := ended] && t'.current == t.current - {open.component}
    ensures CurrentAgrees(t')
  {
    forall k | k in t.history && k != open.History() && k.component == open.component
      ensures !t.history[k].Active()
    {
      assert Disjoint(t.history[k], open);
    }
  }

  /** The end of the open deployment is the new latest end of its Component, and of no other. */
  lemma EndMovesLatestEnd(t: Table, t': Table, open: Deployment, ended: Deployment, c: nat, end: Option<int>)
    requires HistoryRows(t) && IntervalsDisjoint(t) && LatestEnd(t, c, end)
    requires open.Active() && open.History() in t.history && t.history[open.History()] == open
    requires ended.SameIdentity(open) && ended.endedAt.Some? && ended.Valid()
    requires t'.history == t.history[open.History() := ended]
    ensures LatestEnd(t', c, if c == open.component then ended.endedAt else end)
  {
    var key := open.History();
    if c == open.component {
      assert t'.history[key].endedAt == ended.endedAt;
      forall k | k in t'.history && k.component == c && t'.history[k].endedAt.Some?
        ensures t'.history[k].endedAt.value <= ended.endedAt.value
      {
        if k != key { assert Disjoint(t.history[k], t.history[key]); }
      }
    } else if end.Some? {
      var k :| k in t.history && k.component == c && t.history[k].endedAt == end;
      assert k in t'.history && t'.history[k].endedAt == end;
    }
  }

  /** Without a marker the latest end is still well defined. */
  lemma SomeLatestEnd(t: Table, c: nat, keys: set<HistoryKey>) returns (end: Option<int>)
    requires keys <= t.history.Keys && forall k :: k in keys ==> k.component == c
    ensures forall k :: k in keys && t.history[k].endedAt.Some? ==> end.Some? && t.history[k].endedAt.value <= end.value
    ensures end.Some? ==> exists k :: k in keys && t.history[k].endedAt == end
    decreases keys
  {
    if keys == {} {
      end := None;
    } else {
      var x :| x in keys;
      var rest := SomeLatestEnd(t, c, keys - {x});
      var mine := t.history[x].endedAt;
      end := if mine.None? || (rest.Some? && mine.value <= rest.value) then rest else mine;
      forall k | k in keys && t.history[k].endedAt.Some? ensures end.Some? && t.history[k].endedAt.value <= end.value {
        assert k == x || k in keys - {x};
      }
    }
  }

  lemma EndKeepsMarkers(t: Table, t': Table, open: Deployment, ended: Deployment)
    requires HistoryRows(t) && IntervalsDisjoint(t) && MarkersAgree(t)
    requires open.Active() && open.History() in t.history && t.history[open.History()] == open
    requires ended.SameIdentity(open) && ended.endedAt.Some? && ended.Valid()
    requires t'.history == t.history[open.History() := ended] && t'.components == t.components
    requires open.component in t'.marker && t'.marker == t.marker[open.component := t'.marker[open.component]]
    requires t'.marker[open.component].tenant == open.tenant && t'.marker[open.component].lastEndedAt == ended.endedAt
    ensures MarkersAgree(t')
  {
    forall n | n in t'.marker ensures LatestEnd(t', n, t'.marker[n].lastEndedAt) {
      if n == open.component {
        var keys := set k | k in t.history && k.component == n;
        var end := SomeLatestEnd(t, n, keys);
        assert LatestEnd(t, n, end);
        EndMovesLatestEnd(t, t', open, ended, n, end);
      } else {
        EndMovesLatestEnd(t, t', open, ended, n, t.marker[n].lastEndedAt);
      }
    }
  }

  lemma EndKeepsWellFormed(t: Table, c: Client, stamp: int)
    requires c.EndCommit? && WellFormed(t) && ClientInvariant(t, c)
    requires EndFailures(t, c.row, c.sequence) == {}
    ensures WellFormed(EndedTable(t, c.row, c.sequence, c.end, stamp))
  {
    EndHolds(t, c.row, c.sequence);
    var t' := EndedTable(t, c.row, c.sequence, c.end, stamp);
    var open := t.history[c.row.History()];
    var ended := t'.history[c.row.History()];
    assert open.History() == c.row.History() && t.mirror[open.Mirror()] == open;
    EndKeepsRows(t, t', open, ended);
    EndKeepsCurrent(t, t', open, ended);
    EndKeepsMarkers(t, t', open, ended);
  }

  /** What one table change may do to the rows another call relies on. */
  ghost predicate Evolves(t: Table, t': Table) {
    && (forall c :: c in t.marker ==> c in t'.marker && t.marker[c].sequence <= t'.marker[c].sequence)
    && (forall m :: m in t.mirror ==> m in t'.mirror && t'.mirror[m].SameIdentity(t.mirror[m]))
    && (forall c :: Lookup(t.marker, c) == Lookup(t'.marker, c) ==> SameHistory(t, t', c))
    && (forall c :: c in t.marker && t.marker[c].sequence == t'.marker[c].sequence ==> t.marker[c] == t'.marker[c])
  }

  ghost predicate SameHistory(t: Table, t': Table, c: nat) {
    forall k: HistoryKey :: k.component == c ==> Lookup(t.history, k) == Lookup(t'.history, k)
  }

  /** History only grows: a row never disappears or moves, and a row that has ended is frozen. */
  ghost predicate HistoryGrows(t: Table, t': Table) {
    forall k :: k in t.history ==>
      && k in t'.history && t'.history[k].SameIdentity(t.history[k])
      && (t.history[k].endedAt.Some? ==> t'.history[k] == t.history[k])
  }

  lemma StartEvolves(t: Table, c: Client)
    requires c.StartCommit? && StartFailures(t, c.d, c.receipt, c.seen) == {}
    ensures Evolves(t, StartedTable(t, c.d, c.receipt, c.seen, c.previousEnd))
    ensures HistoryGrows(t, StartedTable(t, c.d, c.receipt, c.seen, c.previousEnd))
  {
    StartHolds(t, c.d, c.receipt, c.seen);
    var t' := StartedTable(t, c.d, c.receipt, c.seen, c.previousEnd);
    forall n | Lookup(t.marker, n) == Lookup(t'.marker, n) ensures SameHistory(t, t', n) {
      assert n != c.d.component;
    }
  }

  lemma EndEvolves(t: Table, c: Client, stamp: int)
    requires c.EndCommit? && EndFailures(t, c.row, c.sequence) == {}
    ensures Evolves(t, EndedTable(t, c.row, c.sequence, c.end, stamp))
    ensures HistoryGrows(t, EndedTable(t, c.row, c.sequence, c.end, stamp))
  {
    EndHolds(t, c.row, c.sequence);
    var t' := EndedTable(t, c.row, c.sequence, c.end, stamp);
    forall n | Lookup(t.marker, n) == Lookup(t'.marker, n) ensures SameHistory(t, t', n) {
      assert n != c.row.component;
    }
  }

  lemma EvolvingKeepsClients(t: Table, t': Table, c: Client)
    requires Evolves(t, t') && ClientInvariant(t, c)
    ensures ClientInvariant(t', c)
  {
    if c.StartCommit? && Fresh(t', c.d.component, c.seen) {
      var n := c.d.component;
      assert Fresh(t, n, c.seen);
      assert Lookup(t.marker, n) == Lookup(t'.marker, n);
      assert SameHistory(t, t', n);
      SameHistoryFollows(t, t', n, c.d.startedAt, c.previousEnd);
    }
  }

  lemma SameHistoryFollows(t: Table, t': Table, c: nat, start: int, end: Option<int>)
    requires SameHistory(t, t', c) && Follows(t, c, start, end)
    ensures Follows(t', c, start, end)
  {
    forall k | k in t'.history && k.component == c ensures k in t.history && t.history[k] == t'.history[k] {
      assert Lookup(t.history, k) == Lookup(t'.history, k);
    }
    if end.Some? {
      var k :| k in t.history && k.component == c && t.history[k].endedAt == end;
      assert Lookup(t.history, k) == Lookup(t'.history, k);
      assert k in t'.history && t'.history[k].endedAt == end;
    }
  }

  /** Reading the last history row tells a start everything about the Component's past. */
  lemma ReadHistoryFollows(t: Table, c: nat, start: int, answer: Option<HistoryKey>)
    requires HistoryRows(t) && IntervalsDisjoint(t) && QueryLatest(t, c, None, answer)
    requires answer.Some? ==> t.history[answer.value].endedAt.Some? && t.history[answer.value].endedAt.value <= start
    ensures Follows(t, c, start, if answer.None? then None else t.history[answer.value].endedAt)
  {
    if answer.None? {
      assert forall k :: k in t.history ==> !InRange(k, c, None);
    } else {
      LatestRowEndsLast(t, c, answer.value);
    }
  }

  lemma StartReadsKeep(t: Table, c: Client, answer: Option<HistoryKey>, clock: int)
    requires (c.StartReadMarker? || c.StartReadHistory?) && HistoryRows(t) && IntervalsDisjoint(t)
    requires ClientInvariant(t, c)
    requires answer.Some? ==> answer.value in t.history
    requires c.StartReadHistory? ==> QueryLatest(t, c.d.component, None, answer)
    ensures StepClient(t, c, answer, clock).0 == t
    ensures ClientInvariant(t, StepClient(t, c, answer, clock).1)
  {
    if c.StartReadHistory? && StepClient(t, c, answer, clock).1.StartCommit? {
      ReadHistoryFollows(t, c.d.component, c.d.startedAt, answer);
    }
  }

  lemma EndReadsKeep(t: Table, c: Client, answer: Option<HistoryKey>, clock: int)
    requires (c.EndReadMirror? || c.EndReadMarker?) && MirrorsAgree(t) && ClientInvariant(t, c)
    requires answer.Some? ==> answer.value in t.history
    ensures StepClient(t, c, answer, clock).0 == t
    ensures ClientInvariant(t, StepClient(t, c, answer, clock).1)
  {
    if c.EndReadMirror? && MirrorKey(c.tenant, c.id) in t.mirror {
      assert t.mirror[MirrorKey(c.tenant, c.id)].Mirror() == MirrorKey(c.tenant, c.id);
    }
  }

  lemma ReadingKeepsInvariant(t: Table, c: Client, answer: Option<HistoryKey>, clock: int)
    requires !c.StartCommit? && !c.EndCommit? && WellFormed(t) && ClientInvariant(t, c)
    requires answer.Some? ==> answer.value in t.history
    requires c.StartReadHistory? ==> QueryLatest(t, c.d.component, None, answer)
    ensures StepClient(t, c, answer, clock).0 == t
    ensures ClientInvariant(t, StepClient(t, c, answer, clock).1)
  {
    if c.StartReadMarker? || c.StartReadHistory? {
      StartReadsKeep(t, c, answer, clock);
    } else if !c.Done? {
      EndReadsKeep(t, c, answer, clock);
    }
  }

  /** What a step of one client leaves behind. */
  ghost predicate Kept(t: Table, t': Table, c': Client) {
    WellFormed(t') && Evolves(t, t') && HistoryGrows(t, t') && ClientInvariant(t', c')
  }

  lemma CommitStartKeeps(t: Table, c: Client)
    requires c.StartCommit? && WellFormed(t) && ClientInvariant(t, c)
    ensures Kept(t, CommitStart(t, c).0, CommitStart(t, c).1)
  {
    if StartFailures(t, c.d, c.receipt, c.seen) == {} {
      StartKeepsWellFormed(t, c);
      StartEvolves(t, c);
    }
  }

  lemma CommitEndKeeps(t: Table, c: Client, clock: int)
    requires c.EndCommit? && WellFormed(t) && ClientInvariant(t, c)
    ensures Kept(t, CommitEnd(t, c, clock).0, CommitEnd(t, c, clock).1)
  {
    if EndFailures(t, c.row, c.sequence) == {} {
      EndKeepsWellFormed(t, c, Max(clock, c.row.updatedAt));
      EndEvolves(t, c, Max(clock, c.row.updatedAt));
    }
  }

  lemma StandingStillKeeps(t: Table, c: Client)
    requires WellFormed(t) && ClientInvariant(t, c)
    ensures Kept(t, t, c)
  {
  }

  lemma StepKeepsInvariant(t: Table, c: Client, answer: Option<HistoryKey>, clock: int)
    requires WellFormed(t) && ClientInvariant(t, c)
    requires answer.Some? ==> answer.value in t.history
    requires c.StartReadHistory? ==> QueryLatest(t, c.d.component, None, answer)
    ensures Kept(t, StepClient(t, c, answer, clock).0, StepClient(t, c, answer, clock).1)
  {
    if c.StartCommit? {
      CommitStartKeeps(t, c);
    } else if c.EndCommit? {
      CommitEndKeeps(t, c, clock);
    } else {
      ReadingKeepsInvariant(t, c, answer, clock);
      StandingStillKeeps(t, StepClient(t, c, answer, clock).1);
    }
  }

  lemma ActionKeepsInvariant(w: World, a: Action)
    requires Invariant(w) && Enabled(w, a)
    ensures Invariant(Apply(w, a)) && HistoryGrows(w.table, Apply(w, a).table)
  {
    match a
    case Invoke(_, _) =>
    case Advance(c, answer, clock) =>
      StepKeepsInvariant(w.table, w.clients[c], answer, clock);
      var t' := StepClient(w.table, w.clients[c], answer, clock).0;
      forall other | other in w.clients && other != c ensures ClientInvariant(t', w.clients[other]) {
        EvolvingKeepsClients(w.table, t', w.clients[other]);
      }
    case Outside(_, _, _, _) =>
      var t' := Apply(w, a).table;
      assert Evolves(w.table, t');
      forall c | c in w.clients ensures ClientInvariant(t', w.clients[c]) {
        EvolvingKeepsClients(w.table, t', w.clients[c]);
      }
      assert WellFormed(t') by {
        assert forall c, e :: LatestEnd(w.table, c, e) ==> LatestEnd(t', c, e);
      }
  }

  lemma {:induction false} RunKeepsInvariant(w: World, actions: seq<Action>)
    requires Invariant(w) && Legal(w, actions)
    ensures Invariant(Exec(w, actions))
    ensures HistoryGrows(w.table, Exec(w, actions).table)
    decreases |actions|
  {
    if actions != [] {
      ActionKeepsInvariant(w, actions[0]);
      RunKeepsInvariant(Apply(w, actions[0]), actions[1..]);
    }
  }

  // ---------------------------------------------------------------- theorems about every run

  /** In every interleaving of starts and ends the table stays well formed. */
  lemma EveryRunKeepsTableWellFormed(w: World, actions: seq<Action>)
    requires Initial(w) && Legal(w, actions)
    ensures WellFormed(Exec(w, actions).table)
  {
    RunKeepsInvariant(w, actions);
  }

  /** The interval that contains an instant is the last one starting at or before it. */
  lemma ContainingRowIsLatest(t: Table, c: nat, at: int, k: HistoryKey, answer: Option<HistoryKey>)
    requires HistoryRows(t) && IntervalsDisjoint(t) && QueryLatest(t, c, Some(at), answer)
    requires k in t.history && k.component == c && t.history[k].Contains(at)
    ensures answer == Some(k)
  {
    assert t.history[k].History() == k && InRange(k, c, Some(at));
    var a := answer.value;
    assert KeyLeq(k, a) && t.history[a].History() == a;
    var rowK, rowA := t.history[k], t.history[a];
    assert a == k || Disjoint(rowK, rowA);
  }

  /** In every reachable table the single-row lookup finds exactly the interval that a search of
      all the tenant's intervals finds, and nothing when no interval contains the instant. */
  lemma LookupIsExhaustiveSearch(w: World, actions: seq<Action>, tenant: nat, c: nat, at: int,
                                 answer: Option<HistoryKey>)
    requires Initial(w) && Legal(w, actions)
    requires QueryLatest(Exec(w, actions).table, c, Some(at), answer)
    ensures var t := Exec(w, actions).table;
            var found := DeploymentAt(t, tenant, at, answer);
            && (found.Some? ==> found.value.History() in t.history && t.history[found.value.History()] == found.value
                                && found.value.component == c && found.value.tenant == tenant)
            && forall k :: k in t.history && k.component == c && t.history[k].tenant == tenant ==>
                 (t.history[k].Contains(at) <==> found == Some(t.history[k]))
  {
    RunKeepsInvariant(w, actions);
    var t := Exec(w, actions).table;
    forall k | k in t.history && k.component == c && t.history[k].Contains(at) ensures answer == Some(k) {
      ContainingRowIsLatest(t, c, at, k, answer);
    }
  }

  /** An observation once attributed to an ended interval is attributed to it for ever. */
  lemma AttributionIsStable(w: World, before: seq<Action>, after: seq<Action>, tenant: nat, c: nat, at: int,
                            earlier: Option<HistoryKey>, later: Option<HistoryKey>)
    requires Initial(w) && Legal(w, before) && Legal(Exec(w, before), after)
    requires QueryLatest(Exec(w, before).table, c, Some(at), earlier)
    requires QueryLatest(Exec(Exec(w, before), after).table, c, Some(at), later)
    requires var r := DeploymentAt(Exec(w, before).table, tenant, at, earlier); r.Some? && r.value.endedAt.Some?
    ensures DeploymentAt(Exec(Exec(w, before), after).table, tenant, at, later)
         == DeploymentAt(Exec(w, before).table, tenant, at, earlier)
  {
    RunKeepsInvariant(w, before);
    var mid := Exec(w, before);
    RunKeepsInvariant(mid, after);
    assert Exec(mid, after).table.history[earlier.value] == mid.table.history[earlier.value];
    ContainingRowIsLatest(Exec(mid, after).table, c, at, earlier.value, later);
  }
}
