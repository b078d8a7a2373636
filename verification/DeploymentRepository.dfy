/**
 The deployment repository as one caller sees it: the table's rows are fields that a start or an
 end rewrites in place.  Run alone, each call succeeds exactly when its request is admissible.
 */
module DeploymentRepository {
  import opened Wrappers
  import opened Deployments

  /** The Component has no open interval and every interval has ended by `start`. */
  ghost predicate IntervalFree(t: Table, c: nat, start: int) {
    forall k :: k in t.history && k.component == c ==>
      t.history[k].endedAt.Some? && t.history[k].endedAt.value <= start
  }

  ghost predicate CanStart(t: Table, d: Deployment, receipt: nat) {
    && d.Active() && IntervalFree(t, d.component, d.startedAt)
    && d.Mirror() !in t.mirror && receipt !in t.receipts
    && ParentActive(t, d) && (d.tenant, d.asset) in t.activeAssets && (d.tenant, d.site) in t.activeSites
  }

  ghost predicate CanEnd(t: Table, tenant: nat, id: nat, expectedVersion: int, end: int) {
    && MirrorKey(tenant, id) in t.mirror
    && t.mirror[MirrorKey(tenant, id)].Active()
    && t.mirror[MirrorKey(tenant, id)].version == expectedVersion
    && t.mirror[MirrorKey(tenant, id)].startedAt < end
  }

  class Repository {
    var mirror: map<MirrorKey, Deployment>
    var history: map<HistoryKey, Deployment>
    var current: map<nat, Deployment>
    var marker: map<nat, Marker>
    var receipts: set<nat>
    var components: map<nat, Parent>
    var activeAssets: set<(nat, nat)>
    var activeSites: set<(nat, nat)>

    function Snapshot(): Table
      reads this
    {
      Table(mirror, history, current, marker, receipts, components, activeAssets, activeSites)
    }

    ghost predicate Valid()
      reads this
    {
      WellFormed(Snapshot())
    }

    constructor (t: Table)
      requires WellFormed(t)
      ensures Valid() && Snapshot() == t
    {
      mirror, history, current, marker := t.mirror, t.history, t.current, t.marker;
      receipts, components, activeAssets, activeSites := t.receipts, t.components, t.activeAssets, t.activeSites;
    }

    /** The last history row of a Component, optionally among those starting by `upTo`. */
    method QueryRange(c: nat, upTo: Option<int>) returns (answer: Option<HistoryKey>)
      ensures QueryLatest(Snapshot(), c, upTo, answer)
    {
      var pending := history.Keys;
      answer := None;
      while pending != {}
        invariant pending <= history.Keys
        invariant answer.Some? ==> answer.value in history && InRange(answer.value, c, upTo)
        invariant forall k :: k in history && k !in pending && InRange(k, c, upTo) ==>
                    answer.Some? && KeyLeq(k, answer.value)
        decreases pending
      {
        var k :| k in pending;
        pending := pending - {k};
        if InRange(k, c, upTo) && (answer.None? || KeyLeq(answer.value, k)) {
          answer := Some(k);
        }
      }
    }

    /** `get_deployment_at`: the tenant's interval of the Component that contains the instant. */
    method GetDeploymentAt(tenant: nat, c: nat, at: int) returns (found: Option<Deployment>)
      requires Valid()
      ensures forall k :: k in history && k.component == c && history[k].tenant == tenant ==>
                (history[k].Contains(at) <==> found == Some(history[k]))
      ensures found.Some? ==> found.value in history.Values
    {
      var answer := QueryRange(c, Some(at));
      found := DeploymentAt(Snapshot(), tenant, at, answer);
      forall k | k in history && k.component == c && history[k].Contains(at) ensures answer == Some(k) {
        ContainingRowIsLatest(Snapshot(), c, at, k, answer);
      }
    }

    /** `_ensure_after_previous`: refuses exactly when the interval is not free, and otherwise
        returns the latest end of the Component's history. */
    method EnsureAfterPrevious(c: nat, start: int) returns (refusal: Option<Conflict>, previousEnd: Option<int>)
      requires Valid()
      ensures refusal.None? <==> IntervalFree(Snapshot(), c, start)
      ensures refusal.None? ==> LatestEnd(Snapshot(), c, previousEnd)
      ensures refusal in {None, Some(AlreadyActive), Some(Overlaps)}
      ensures refusal == Some(AlreadyActive) ==> c in current
    {
      refusal, previousEnd := None, None;
      if c in marker && marker[c].lastEndedAt.Some? && start < marker[c].lastEndedAt.value {
        assert LatestEnd(Snapshot(), c, marker[c].lastEndedAt);
        return Some(Overlaps), None;
      }
      var answer := QueryRange(c, None);
      if answer.None? {
        assert forall k :: k in history ==> !InRange(k, c, None);
        return;
      }
      var previous := history[answer.value];
      if previous.endedAt.None? { return Some(AlreadyActive), None; }
      LatestRowEndsLast(Snapshot(), c, answer.value);
      if start < previous.endedAt.value { return Some(Overlaps), None; }
      previousEnd := previous.endedAt;
    }

    /** The start transaction: all five writes or none. */
    method TransactStart(d: Deployment, receipt: nat, seen: Option<Marker>, previousEnd: Option<int>)
      returns (o: Outcome)
      requires Valid() && d.Active() && Follows(Snapshot(), d.component, d.startedAt, previousEnd)
      requires seen == Lookup(marker, d.component)
      modifies this
      ensures Valid()
      ensures var failed := StartFailures(old(Snapshot()), d, receipt, seen);
              if failed == {}
              then o == Started(d) && Snapshot() == StartedTable(old(Snapshot()), d, receipt, seen, previousEnd)
              else o == Refused(ClassifyStart(failed)) && Snapshot() == old(Snapshot())
    {
      var failed := StartFailures(Snapshot(), d, receipt, seen);
      if failed != {} { return Refused(ClassifyStart(failed)); }
      StartKeepsWellFormed(Snapshot(), StartCommit(d, receipt, seen, previousEnd));
      WriteStart(d, receipt, seen, previousEnd);
      return Started(d);
    }

    method WriteStart(d: Deployment, receipt: nat, seen: Option<Marker>, previousEnd: Option<int>)
      requires seen.Some? ==> d.component in marker
      modifies this
      ensures Snapshot() == StartedTable(old(Snapshot()), d, receipt, seen, previousEnd)
    {
      mirror := mirror[d.Mirror() := d];
      history := history[d.History() := d];
      current := current[d.component := d];
      marker := marker[d.component := if seen.None? then Marker(d.tenant, 1, previousEnd)
                                      else Marker(d.tenant, seen.value.sequence + 1, marker[d.component].lastEndedAt)];
      receipts := receipts + {receipt};
    }

    /** `start_deployment`.  It succeeds exactly when the request is admissible, writes the three
        copies of the deployment, and otherwise changes nothing. */
    method StartDeployment(d: Deployment, receipt: nat) returns (o: Outcome)
      requires Valid()
      modifies this
      ensures Valid()
      ensures o == Started(d) <==> CanStart(old(Snapshot()), d, receipt)
      ensures o.Started? ==>
                && history == old(history)[d.History() := d] && mirror == old(mirror)[d.Mirror() := d]
                && current == old(current)[d.component := d] && receipts == old(receipts) + {receipt}
      ensures !o.Started? ==> Snapshot() == old(Snapshot())
      ensures d.Active() && ParentActive(old(Snapshot()), d) && receipt !in old(receipts) ==>
                (o in {Refused(AlreadyActive), Refused(Overlaps)} <==>
                 !IntervalFree(old(Snapshot()), d.component, d.startedAt))
      ensures d.Active() && IntervalFree(old(Snapshot()), d.component, d.startedAt) && receipt !in old(receipts) ==>
                (o == Refused(Overlaps) <==>
                 d.component in old(marker) && old(components)[d.component].tenant != d.tenant)
    {
      if !d.Active() { return InvalidRequest; }
      var seen := Lookup(marker, d.component);
      var refusal, previousEnd := EnsureAfterPrevious(d.component, d.startedAt);
      if refusal.Some? { return Refused(refusal.value); }
      AdmissibleStartHolds(Snapshot(), d, receipt, seen);
      if receipt !in receipts { FreeStartOverlapsExactly(Snapshot(), d, receipt, seen); }
      o := TransactStart(d, receipt, seen, previousEnd);
    }

    /** The end transaction on a row that is still open. */
    method TransactEnd(row: Deployment, end: int, sequence: Option<int>, stamp: int)
      requires Valid() && EndTarget(Snapshot(), row, end) && EndFailures(Snapshot(), row, sequence) == {}
      requires row.History() in history && history[row.History()] == row && mirror[row.Mirror()] == row
      modifies this
      ensures Valid() && Snapshot() == EndedTable(old(Snapshot()), row, sequence, end, stamp)
    {
      EndKeepsWellFormed(Snapshot(), EndCommit(row, end, sequence), stamp);
      WriteEnd(row, end, sequence, stamp);
    }

    method WriteEnd(row: Deployment, end: int, sequence: Option<int>, stamp: int)
      requires row.Mirror() in mirror && mirror[row.Mirror()] == row
      requires row.History() in history && history[row.History()] == row
      modifies this
      ensures Snapshot() == EndedTable(old(Snapshot()), row, sequence, end, stamp)
    {
      var ended := row.EndedAt(end, stamp);
      mirror := mirror[row.Mirror() := ended];
      history := history[row.History() := ended];
      current := current - {row.component};
      marker := marker[row.component :=
                       Marker(row.tenant, if sequence.None? then 1 else sequence.value + 1, Some(end))];
    }

    /** `end_deployment`.  It succeeds exactly when the deployment is open at the expected version
        and the end lies after its start. */
    method EndDeployment(tenant: nat, id: nat, expectedVersion: int, end: int, clock: int) returns (o: Outcome)
      requires Valid()
      modifies this
      ensures Valid()
      ensures o.Ended? <==> CanEnd(old(Snapshot()), tenant, id, expectedVersion, end)
      ensures o.Ended? ==>
                var row := old(mirror)[MirrorKey(tenant, id)];
                && o.deployment == row.EndedAt(end, Max(clock, row.updatedAt))
                && mirror == old(mirror)[row.Mirror() := o.deployment]
                && history == old(history)[row.History() := o.deployment]
                && current == old(current) - {row.component}
      ensures !o.Ended? ==> Snapshot() == old(Snapshot())
      ensures o == NotFound <==> MirrorKey(tenant, id) !in old(mirror)
    {
      if MirrorKey(tenant, id) !in mirror { return NotFound; }
      var row := mirror[MirrorKey(tenant, id)];
      if !row.Active() { return Refused(NotActive); }
      if row.version != expectedVersion { return Refused(VersionChanged); }
      if end <= row.startedAt { return InvalidRequest; }
      var sequence := if row.component in marker then Some(marker[row.component].sequence) else None;
      var stamp := Max(clock, row.updatedAt);
      OpenRowCanEnd(Snapshot(), row, sequence);
      TransactEnd(row, end, sequence, stamp);
      return Ended(row.EndedAt(end, stamp));
    }
  }

  lemma OpenRowCanEnd(t: Table, row: Deployment, sequence: Option<int>)
    requires WellFormed(t) && row.Active() && row.Mirror() in t.mirror && t.mirror[row.Mirror()] == row
    requires sequence == if row.component in t.marker then Some(t.marker[row.component].sequence) else None
    ensures row.History() in t.history && t.history[row.History()] == row
    ensures EndFailures(t, row, sequence) == {}
  {
    assert t.current[row.component] == row;
  }

  /** With a free interval and an active parent of the right tenant, neither the CURRENT row
      nor the marker can refuse a start that runs alone. */
  lemma AdmissibleStartHolds(t: Table, d: Deployment, receipt: nat, seen: Option<Marker>)
    requires WellFormed(t) && IntervalFree(t, d.component, d.startedAt) && d.Active()
    requires seen == Lookup(t.marker, d.component)
    ensures StartFailures(t, d, receipt, seen) == {} <==> CanStart(t, d, receipt)
    ensures ParentActive(t, d) ==> ClassifyStart(StartFailures(t, d, receipt, seen)) !in {AlreadyActive, Overlaps}
  {
    assert d.History() in t.history ==> t.history[d.History()].Valid();
    assert d.component in t.current ==> t.current[d.component].History() in t.history;
    if ParentActive(t, d) && seen.Some? {
      assert LatestEnd(t, d.component, seen.value.lastEndedAt);
      assert StartMarkerHolds(t, d, seen);
    }
    if StartFailures(t, d, receipt, seen) == {} { StartHolds(t, d, receipt, seen); }
  }

  /** With a free interval, a start is refused as an overlap if and only if the Component has a marker
      and belongs to another tenant: the marker's condition is looked at before the parent's. */
  lemma FreeStartOverlapsExactly(t: Table, d: Deployment, receipt: nat, seen: Option<Marker>)
    requires WellFormed(t) && IntervalFree(t, d.component, d.startedAt) && d.Active()
    requires seen == Lookup(t.marker, d.component) && receipt !in t.receipts
    ensures (StartFailures(t, d, receipt, seen) != {}
             && ClassifyStart(StartFailures(t, d, receipt, seen)) == Overlaps) <==>
              d.component in t.marker && t.components[d.component].tenant != d.tenant
  {
    assert d.component in t.current ==> t.current[d.component].History() in t.history;
    if seen.Some? {
      assert LatestEnd(t, d.component, seen.value.lastEndedAt);
      assert StartMarkerHolds(t, d, seen) <==> t.marker[d.component].tenant == d.tenant;
    }
    assert 2 !in StartFailures(t, d, receipt, seen) && 4 !in StartFailures(t, d, receipt, seen);
    assert 3 in StartFailures(t, d, receipt, seen) <==> !StartMarkerHolds(t, d, seen);
  }

  /** Without a marker the inactive or foreign parent is what a free start hears of. */
  lemma UnmarkedReadsAsInactive(t: Table, d: Deployment, receipt: nat)
    requires WellFormed(t) && IntervalFree(t, d.component, d.startedAt) && d.Active()
    requires d.component !in t.marker && receipt !in t.receipts && !ParentActive(t, d)
    ensures ClassifyStart(StartFailures(t, d, receipt, None)) == ComponentInactive
  {
    FreeStartOverlapsExactly(t, d, receipt, None);
    assert 5 in StartFailures(t, d, receipt, None);
    assert d.component in t.current ==> t.current[d.component].History() in t.history;
  }

  /** The table one ended deployment leaves behind. */
  function OneEnded(ended: Deployment, m: map<nat, Marker>): Table {
    Table(map[ended.Mirror() := ended], map[ended.History() := ended], map[], m, {0},
          map[ended.component := Parent(ended.tenant, true)], {(2, 8)}, {(2, 7)})
  }

  lemma OneEndedIsWellFormed(ended: Deployment, sequence: int)
    requires ended.endedAt.Some? && ended.Valid()
    ensures WellFormed(OneEnded(ended, map[ended.component := Marker(ended.tenant, sequence, ended.endedAt)]))
    ensures WellFormed(OneEnded(ended, map[]))
  {
    var t := OneEnded(ended, map[ended.component := Marker(ended.tenant, sequence, ended.endedAt)]);
    assert ended.History() in t.history && t.history[ended.History()].endedAt == ended.endedAt;
  }

  /** Tenant 2 asks for a Component that tenant 1 deployed until instant 90, and is told of an overlap
      although it starts at 100; the same history from before markers reads as an inactive Component. */
  lemma WrongTenantReadsAsOverlap()
    ensures var d := Deployment(2, 10, 5, 7, 8, 100, None, 100, 1);
            var ended, seen := Deployment(1, 3, 5, 6, 4, 50, Some(90), 90, 2), Some(Marker(1, 2, Some(90)));
            var t, unmarked := OneEnded(ended, map[5 := seen.value]), OneEnded(ended, map[]);
            && WellFormed(t) && IntervalFree(t, 5, 100) && WellFormed(unmarked)
            && ClassifyStart(StartFailures(t, d, 1, seen)) == Overlaps
            && ClassifyStart(StartFailures(unmarked, d, 1, None)) == ComponentInactive
  {
    var d := Deployment(2, 10, 5, 7, 8, 100, None, 100, 1);
    var ended, seen := Deployment(1, 3, 5, 6, 4, 50, Some(90), 90, 2), Some(Marker(1, 2, Some(90)));
    OneEndedIsWellFormed(ended, 2);
    FreeStartOverlapsExactly(OneEnded(ended, map[5 := seen.value]), d, 1, seen);
    UnmarkedReadsAsInactive(OneEnded(ended, map[]), d, 1);
  }
}
