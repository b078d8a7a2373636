/**
 Discovery of due relay work: three lanes, one per kind, each with a cursor per bucket over a
 paginated index.  Waves of queries take one page per cursor until every lane is exhausted, has
 reached the work cap, or time runs out.
 */
module RelayDiscovery {
  import opened Wrappers
  import opened RelayPriority

  type LaneKind = k: Kind | Listed(k) witness Delivery

  /** `next` is the page a cursor will read; the pages before it have been read. */
  datatype Cursor = Cursor(bucket: nat, next: nat, done: bool, inFlight: bool)

  datatype Lane = Lane(cursors: seq<Cursor>, nextCursor: nat, candidates: seq<Candidate>, skipped: nat,
                       capReached: bool)

  /** One entry per kind. */
  datatype PerKind<T> = PerKind(delivery: T, intent: T, dependency: T) {
    function Get(k: LaneKind): T {
      match k case Delivery => delivery case Intent => intent case Dependency => dependency
    }

    function Set(k: LaneKind, value: T): PerKind<T> {
      match k
      case Delivery => this.(delivery := value)
      case Intent => this.(intent := value)
      case Dependency => this.(dependency := value)
    }
  }

  type Lanes = PerKind<Lane>

  /** The index holds, for every kind and bucket, a finite list of pages, some of them perhaps empty.
      `filtering` says that Telegram delivery is configured but switched off. */
  datatype Setup = Setup(
    index: map<(Kind, nat), seq<seq<Candidate>>>, buckets: seq<nat>, maxWork: nat, parallelism: nat, filtering: bool)

  datatype Query = Query(kind: LaneKind, cursor: nat)

  datatype Result =
    | Failure
    | Found(candidates: seq<Candidate>, skipped: nat, complete: bool, capReached: bool, deadlineReached: bool)

  /** What reloading a candidate says. */
  datatype Reload = ReloadFailed | Stale | Current(telegram: bool)

  /** The configuration loader admits only positive limits, and every query returns at least one page. */
  ghost predicate Sensible(s: Setup) {
    && s.maxWork >= 1 && s.parallelism >= 1
    && forall k: LaneKind, b :: b in s.buckets ==> Pages(s, k, b) != []
  }

  // What a lane has read

  function Pages(s: Setup, k: LaneKind, bucket: nat): seq<seq<Candidate>> {
    if (k, bucket) in s.index then s.index[(k, bucket)] else []
  }

  function PagesRead(s: Setup, k: LaneKind, c: Cursor): (n: nat)
    ensures n <= |Pages(s, k, c.bucket)|
  {
    if c.done || c.next > |Pages(s, k, c.bucket)| then |Pages(s, k, c.bucket)| else c.next
  }

  function Rows(pages: seq<seq<Candidate>>): multiset<Candidate> {
    if pages == [] then multiset{} else Rows(pages[..|pages| - 1]) + multiset(pages[|pages| - 1])
  }

  function RowsOf(s: Setup, k: LaneKind, c: Cursor): multiset<Candidate> {
    Rows(Pages(s, k, c.bucket)[..PagesRead(s, k, c)])
  }

  function RowsRead(s: Setup, k: LaneKind, cursors: seq<Cursor>): multiset<Candidate> {
    if cursors == [] then multiset{} else RowsOf(s, k, cursors[0]) + RowsRead(s, k, cursors[1..])
  }

  /** Every row the index holds for a kind. */
  function AllRows(s: Setup, k: LaneKind, buckets: seq<nat>): multiset<Candidate> {
    if buckets == [] then multiset{} else Rows(Pages(s, k, buckets[0])) + AllRows(s, k, buckets[1..])
  }

  function UnreadOf(s: Setup, k: LaneKind, c: Cursor): nat {
    |Pages(s, k, c.bucket)| - PagesRead(s, k, c)
  }

  function Unread(s: Setup, k: LaneKind, cursors: seq<Cursor>): nat {
    if cursors == [] then 0 else UnreadOf(s, k, cursors[0]) + Unread(s, k, cursors[1..])
  }

  /** The termination measure: pages no cursor has read yet. */
  function UnreadPages(s: Setup, lanes: Lanes): nat {
    Unread(s, Delivery, lanes.delivery.cursors) + Unread(s, Intent, lanes.intent.cursors)
    + Unread(s, Dependency, lanes.dependency.cursors)
  }

  lemma {:induction false} UpdateUnread(s: Setup, k: LaneKind, cursors: seq<Cursor>, i: nat, c: Cursor)
    requires i < |cursors|
    ensures Unread(s, k, cursors[i := c]) + UnreadOf(s, k, cursors[i]) == Unread(s, k, cursors) + UnreadOf(s, k, c)
    decreases i
  {
    var next := cursors[i := c];
    if i == 0 {
      assert next[1..] == cursors[1..];
    } else {
      assert next[1..] == cursors[1..][i - 1 := c];
      UpdateUnread(s, k, cursors[1..], i - 1, c);
    }
  }

  lemma {:induction false} UpdateRows(s: Setup, k: LaneKind, cursors: seq<Cursor>, i: nat, c: Cursor)
    requires i < |cursors|
    ensures RowsRead(s, k, cursors[i := c]) + RowsOf(s, k, cursors[i]) == RowsRead(s, k, cursors) + RowsOf(s, k, c)
    decreases i
  {
    var next := cursors[i := c];
    if i == 0 {
      assert next[1..] == cursors[1..];
      Swap(RowsOf(s, k, c), RowsRead(s, k, cursors[1..]), RowsOf(s, k, cursors[i]));
    } else {
      assert next[1..] == cursors[1..][i - 1 := c];
      UpdateRows(s, k, cursors[1..], i - 1, c);
      AddBoth(RowsOf(s, k, cursors[0]), RowsRead(s, k, next[1..]), RowsOf(s, k, cursors[i]),
              RowsRead(s, k, cursors[1..]), RowsOf(s, k, c));
    }
  }

  lemma Swap(a: multiset<Candidate>, b: multiset<Candidate>, c: multiset<Candidate>)
    ensures a + b + c == c + b + a
  {
  }

  lemma AddBoth(h: multiset<Candidate>, x: multiset<Candidate>, a: multiset<Candidate>,
                y: multiset<Candidate>, b: multiset<Candidate>)
    requires x + a == y + b
    ensures h + x + a == h + y + b
  {
    assert h + x + a == h + (x + a);
    assert h + y + b == h + (y + b);
  }

  lemma Cancels(a: multiset<Candidate>, b: multiset<Candidate>, c: multiset<Candidate>)
    requires a + c == b + c
    ensures a == b
  {
    assert a == (a + c) - c;
    assert b == (b + c) - c;
  }

  /** Marking a cursor in flight, or back, reads nothing. */
  lemma FlagCursor(s: Setup, k: LaneKind, cursors: seq<Cursor>, i: nat, inFlight: bool)
    requires i < |cursors|
    ensures var next := cursors[i := cursors[i].(inFlight := inFlight)];
            RowsRead(s, k, next) == RowsRead(s, k, cursors) && Unread(s, k, next) == Unread(s, k, cursors)
  {
    var c := cursors[i].(inFlight := inFlight);
    UpdateRows(s, k, cursors, i, c);
    UpdateUnread(s, k, cursors, i, c);
    Cancels(RowsRead(s, k, cursors[i := c]), RowsRead(s, k, cursors), RowsOf(s, k, c));
  }

  /** What a cursor becomes once its page has been read: done after the last page. */
  function Advanced(s: Setup, k: LaneKind, c: Cursor): Cursor {
    if c.next + 1 == |Pages(s, k, c.bucket)| then c.(done := true, inFlight := false)
    else c.(next := c.next + 1, inFlight := false)
  }

  predicate Readable(s: Setup, k: LaneKind, c: Cursor) { c.next < |Pages(s, k, c.bucket)| }

  lemma AdvanceOne(s: Setup, k: LaneKind, c: Cursor)
    requires Readable(s, k, c) && !c.done
    ensures var d := Advanced(s, k, c);
            && RowsOf(s, k, d) == RowsOf(s, k, c) + multiset(Pages(s, k, c.bucket)[c.next])
            && UnreadOf(s, k, d) + 1 == UnreadOf(s, k, c)
            && Readable(s, k, d)
  {
    var pages, d := Pages(s, k, c.bucket), Advanced(s, k, c);
    assert pages[..PagesRead(s, k, d)][..c.next] == pages[..c.next];
  }

  lemma AdvanceCursor(s: Setup, k: LaneKind, cursors: seq<Cursor>, i: nat)
    requires i < |cursors| && !cursors[i].done && Readable(s, k, cursors[i])
    ensures var next := cursors[i := Advanced(s, k, cursors[i])];
            && RowsRead(s, k, next)
                 == RowsRead(s, k, cursors) + multiset(Pages(s, k, cursors[i].bucket)[cursors[i].next])
            && Unread(s, k, next) + 1 == Unread(s, k, cursors)
  {
    var c := cursors[i];
    var d, page := Advanced(s, k, c), multiset(Pages(s, k, c.bucket)[c.next]);
    AdvanceOne(s, k, c);
    UpdateRows(s, k, cursors, i, d);
    UpdateUnread(s, k, cursors, i, d);
    assert RowsRead(s, k, cursors) + RowsOf(s, k, d) == RowsRead(s, k, cursors) + page + RowsOf(s, k, c);
    Cancels(RowsRead(s, k, cursors[i := d]), RowsRead(s, k, cursors) + page, RowsOf(s, k, c));
  }

  lemma {:induction false} ExhaustedMeansAll(s: Setup, k: LaneKind, buckets: seq<nat>, cursors: seq<Cursor>)
    requires |cursors| == |buckets|
    requires forall i :: 0 <= i < |cursors| ==> cursors[i].bucket == buckets[i] && cursors[i].done
    ensures RowsRead(s, k, cursors) == AllRows(s, k, buckets)
  {
    if cursors != [] {
      var pages := Pages(s, k, cursors[0].bucket);
      assert pages[..|pages|] == pages;
      ExhaustedMeansAll(s, k, buckets[1..], cursors[1..]);
    }
  }

  lemma {:induction false} NothingReadYet(s: Setup, k: LaneKind, cursors: seq<Cursor>)
    requires forall i :: 0 <= i < |cursors| ==> cursors[i].next == 0 && !cursors[i].done
    ensures RowsRead(s, k, cursors) == multiset{}
  {
    if cursors != [] {
      NothingReadYet(s, k, cursors[1..]);
    }
  }

  // The filter for switched-off Telegram

  predicate Drops(answer: Reload) { answer.Stale? || (answer.Current? && answer.telegram) }

  function Kept(rows: seq<Candidate>, answers: seq<Reload>): (kept: seq<Candidate>)
    requires |answers| == |rows|
    ensures |kept| <= |rows|
  {
    if rows == [] then []
    else
      var n := |rows| - 1;
      Kept(rows[..n], answers[..n]) + (if Drops(answers[n]) then [] else [rows[n]])
  }

  function Filtered(filtering: bool, rows: seq<Candidate>, answers: seq<Reload>, stop: nat): seq<Candidate>
    requires |answers| == |rows| && stop <= |rows|
  {
    if !filtering then rows else Kept(rows[..stop], answers[..stop]) + rows[stop..]
  }

  /** A reload that was made, and what it said. */
  datatype Reloaded = Reloaded(row: Candidate, answer: Reload)

  function Logged(rows: seq<Candidate>, answers: seq<Reload>): (log: seq<Reloaded>)
    requires |rows| == |answers|
    ensures |log| == |rows|
  {
    if rows == [] then []
    else
      var n := |rows| - 1;
      Logged(rows[..n], answers[..n]) + [Reloaded(rows[n], answers[n])]
  }

  /** The rows whose reload said that they are stale or for Telegram, one for each such reload. */
  function ToldToDrop(log: seq<Reloaded>): seq<Candidate> {
    if log == [] then []
    else ToldToDrop(log[..|log| - 1]) + (if Drops(log[|log| - 1].answer) then [log[|log| - 1].row] else [])
  }

  lemma {:induction false} ToldJoin(a: seq<Reloaded>, b: seq<Reloaded>)
    ensures ToldToDrop(a + b) == ToldToDrop(a) + ToldToDrop(b)
    decreases |b|
  {
    if b == [] {
      assert a + b == a;
    } else {
      assert (a + b)[..|a + b| - 1] == a + b[..|b| - 1];
      ToldJoin(a, b[..|b| - 1]);
    }
  }

  lemma {:induction false} KeptOrDropped(rows: seq<Candidate>, answers: seq<Reload>)
    requires |answers| == |rows|
    ensures Splits(rows, Kept(rows, answers), ToldToDrop(Logged(rows, answers)))
  {
    if rows == [] {
      assert Splits([], [], []);
    } else {
      var n := |rows| - 1;
      var log := Logged(rows[..n], answers[..n]);
      KeptOrDropped(rows[..n], answers[..n]);
      ToldSnoc(log, Reloaded(rows[n], answers[n]));
      OneMoreRow(rows[..n], Kept(rows[..n], answers[..n]), ToldToDrop(log), rows[n], Drops(answers[n]),
                 Kept(rows, answers), ToldToDrop(Logged(rows, answers)));
      assert rows == rows[..n] + [rows[n]];
    }
  }

  /** Every row is kept or dropped. */
  ghost predicate Splits(rows: seq<Candidate>, kept: seq<Candidate>, dropped: seq<Candidate>) {
    multiset(kept) + multiset(dropped) == multiset(rows) && |kept| + |dropped| == |rows|
  }

  lemma OneMoreRow(rows: seq<Candidate>, kept: seq<Candidate>, dropped: seq<Candidate>, c: Candidate, drops: bool,
                   kept': seq<Candidate>, dropped': seq<Candidate>)
    requires Splits(rows, kept, dropped)
    requires kept' == kept + (if drops then [] else [c]) && dropped' == dropped + (if drops then [c] else [])
    ensures Splits(rows + [c], kept', dropped')
  {
  }

  lemma ToldSnoc(log: seq<Reloaded>, r: Reloaded)
    ensures ToldToDrop(log + [r]) == ToldToDrop(log) + (if Drops(r.answer) then [r.row] else [])
  {
    assert (log + [r])[..|log|] == log;
  }

  /** The reloads a page costs: none unless filtering, and none once time has run out. */
  function PageLog(filtering: bool, rows: seq<Candidate>, answers: seq<Reload>, stop: nat): seq<Reloaded>
    requires |answers| == |rows| && stop <= |rows|
  {
    if !filtering then [] else Logged(rows[..stop], answers[..stop])
  }

  /** A row is left out exactly where its reload said so. */
  lemma FilteredOrDropped(filtering: bool, rows: seq<Candidate>, answers: seq<Reload>, stop: nat)
    requires |answers| == |rows| && stop <= |rows|
    ensures Splits(rows, Filtered(filtering, rows, answers, stop), ToldToDrop(PageLog(filtering, rows, answers, stop)))
  {
    if filtering {
      var kept, dropped := Kept(rows[..stop], answers[..stop]), ToldToDrop(Logged(rows[..stop], answers[..stop]));
      KeptOrDropped(rows[..stop], answers[..stop]);
      RestIsKept(rows, stop, kept, dropped);
    }
  }

  lemma RestIsKept(rows: seq<Candidate>, stop: nat, kept: seq<Candidate>, dropped: seq<Candidate>)
    requires stop <= |rows| && Splits(rows[..stop], kept, dropped)
    ensures Splits(rows, kept + rows[stop..], dropped)
  {
    assert rows == rows[..stop] + rows[stop..];
  }

  /** What the reloads said to drop; without filtering, nothing. */
  function AllTold(filtering: bool, reloads: PerKind<seq<Reloaded>>): PerKind<seq<Candidate>> {
    if !filtering then PerKind([], [], [])
    else PerKind(ToldToDrop(reloads.delivery), ToldToDrop(reloads.intent), ToldToDrop(reloads.dependency))
  }

  lemma ToldMore(filtering: bool, reloads: PerKind<seq<Reloaded>>, k: LaneKind, log: seq<Reloaded>)
    requires !filtering ==> log == []
    ensures var told := AllTold(filtering, reloads);
            AllTold(filtering, reloads.Set(k, reloads.Get(k) + log)) == told.Set(k, told.Get(k) + ToldToDrop(log))
  {
    ToldJoin(reloads.Get(k), log);
    var told := AllTold(filtering, reloads);
    assert told.Get(k) + [] == told.Get(k);
  }

  // Lanes

  predicate HasRemaining(lane: Lane) { exists i :: 0 <= i < |lane.cursors| && !lane.cursors[i].done }

  predicate Active(lane: Lane, maxWork: nat) {
    !lane.capReached && |lane.candidates| < maxWork && HasRemaining(lane)
  }

  predicate Resting(lane: Lane) { forall i :: 0 <= i < |lane.cursors| ==> !lane.cursors[i].inFlight }

  /** Every row the lane was given is kept, dropped, or was cut off by the cap. */
  ghost predicate Accounted(lane: Lane, returned: multiset<Candidate>, dropped: seq<Candidate>) {
    && |dropped| == lane.skipped
    && multiset(lane.candidates) + multiset(dropped) <= returned
    && (!lane.capReached ==> multiset(lane.candidates) + multiset(dropped) == returned)
  }

  ghost predicate CursorsOk(s: Setup, k: LaneKind, lane: Lane) {
    && |lane.cursors| == |s.buckets| && (lane.cursors == [] || lane.nextCursor < |lane.cursors|)
    && forall i :: 0 <= i < |lane.cursors| ==>
         lane.cursors[i].bucket == s.buckets[i] && Readable(s, k, lane.cursors[i])
  }

  ghost predicate LaneOk(s: Setup, k: LaneKind, lane: Lane, dropped: seq<Candidate>) {
    && CursorsOk(s, k, lane)
    && |lane.candidates| <= s.maxWork && (lane.capReached ==> |lane.candidates| == s.maxWork)
    && Accounted(lane, RowsRead(s, k, lane.cursors), dropped)
  }

  ghost predicate LanesOk(s: Setup, lanes: Lanes, dropped: PerKind<seq<Candidate>>) {
    && LaneOk(s, Delivery, lanes.delivery, dropped.delivery)
    && LaneOk(s, Intent, lanes.intent, dropped.intent)
    && LaneOk(s, Dependency, lanes.dependency, dropped.dependency)
  }

  /** Taking in what is left of a page after the filter, up to the cap. */
  function Absorbed(lane: Lane, i: nat, c: Cursor, eligible: seq<Candidate>, skipped: nat, maxWork: nat): Lane
    requires i < |lane.cursors| && |lane.candidates| <= maxWork
  {
    var remaining := maxWork - |lane.candidates|;
    Lane(lane.cursors[i := c], lane.nextCursor,
         lane.candidates + (if |eligible| > remaining then eligible[..remaining] else eligible),
         lane.skipped + skipped, lane.capReached || |eligible| > remaining)
  }

  lemma AccountedAfter(lane: Lane, i: nat, c: Cursor, returned: multiset<Candidate>, dropped: seq<Candidate>,
                       eligible: seq<Candidate>, more: seq<Candidate>, maxWork: nat)
    requires i < |lane.cursors| && |lane.candidates| <= maxWork && Accounted(lane, returned, dropped)
    ensures Accounted(Absorbed(lane, i, c, eligible, |more|, maxWork),
                      returned + (multiset(eligible) + multiset(more)), dropped + more)
  {
    var remaining := maxWork - |lane.candidates|;
    if |eligible| > remaining {
      assert eligible == eligible[..remaining] + eligible[remaining..];
    }
  }

  lemma AbsorbKeeps(s: Setup, k: LaneKind, lane: Lane, dropped: seq<Candidate>, i: nat,
                    eligible: seq<Candidate>, more: seq<Candidate>)
    requires LaneOk(s, k, lane, dropped) && i < |lane.cursors| && !lane.cursors[i].done
    requires multiset(eligible) + multiset(more) == multiset(Pages(s, k, lane.cursors[i].bucket)[lane.cursors[i].next])
    ensures var next := Absorbed(lane, i, Advanced(s, k, lane.cursors[i]), eligible, |more|, s.maxWork);
            LaneOk(s, k, next, dropped + more) && Unread(s, k, next.cursors) + 1 == Unread(s, k, lane.cursors)
  {
    var d := Advanced(s, k, lane.cursors[i]);
    AdvanceOne(s, k, lane.cursors[i]);
    AdvanceCursor(s, k, lane.cursors, i);
    AccountedAfter(lane, i, d, RowsRead(s, k, lane.cursors), dropped, eligible, more, s.maxWork);
  }

  lemma SetLane(s: Setup, lanes: Lanes, dropped: PerKind<seq<Candidate>>, k: LaneKind, lane: Lane, gone: seq<Candidate>)
    requires LanesOk(s, lanes, dropped) && LaneOk(s, k, lane, gone)
    ensures LanesOk(s, lanes.Set(k, lane), dropped.Set(k, gone))
    ensures UnreadPages(s, lanes.Set(k, lane)) + Unread(s, k, lanes.Get(k).cursors)
         == UnreadPages(s, lanes) + Unread(s, k, lane.cursors)
  {
  }

  lemma GetLane(s: Setup, lanes: Lanes, dropped: PerKind<seq<Candidate>>, k: LaneKind)
    requires LanesOk(s, lanes, dropped)
    ensures LaneOk(s, k, lanes.Get(k), dropped.Get(k))
    ensures dropped.Set(k, dropped.Get(k)) == dropped
  {
  }

  predicate Busy(lane: Lane, i: nat) { i < |lane.cursors| && (lane.cursors[i].done || lane.cursors[i].inFlight) }

  /** The cursor `e` places after the next one. */
  function Nth(lane: Lane, e: nat): (i: nat)
    requires lane.cursors != []
    ensures i < |lane.cursors|
  {
    (lane.nextCursor + e) % |lane.cursors|
  }

  function Taken(lane: Lane, i: nat): Lane
    requires i < |lane.cursors|
  {
    lane.(cursors := lane.cursors[i := lane.cursors[i].(inFlight := true)], nextCursor := (i + 1) % |lane.cursors|)
  }

  /** A full round visits every cursor. */
  lemma AllBusy(lane: Lane)
    requires lane.cursors != [] && lane.nextCursor < |lane.cursors|
    requires forall e :: 0 <= e < |lane.cursors| ==> Busy(lane, Nth(lane, e))
    ensures forall i :: 0 <= i < |lane.cursors| ==> Busy(lane, i)
  {
    var n := |lane.cursors|;
    forall i | 0 <= i < n ensures Busy(lane, i) {
      var e := if i >= lane.nextCursor then i - lane.nextCursor else i - lane.nextCursor + n;
      Wraps(lane.nextCursor, e, n, i);
      assert Nth(lane, e) == i;
    }
  }

  lemma NothingFree(lane: Lane)
    requires forall i :: 0 <= i < |lane.cursors| ==> Busy(lane, i)
    ensures Resting(lane) ==> !HasRemaining(lane)
  {
    if Resting(lane) {
      forall i | 0 <= i < |lane.cursors| ensures lane.cursors[i].done {
        assert Busy(lane, i);
      }
    }
  }

  lemma Wraps(start: nat, e: nat, n: nat, i: nat)
    requires n > 0 && i < n && (start + e == i || start + e == i + n)
    ensures (start + e) % n == i
  {
  }

  ghost predicate FirstFree(lane: Lane, i: nat)
    requires lane.cursors != []
  {
    exists d :: 0 <= d < |lane.cursors| && i == Nth(lane, d) && forall e :: 0 <= e < d ==> Busy(lane, Nth(lane, e))
  }

  /** Round robin: the first cursor from the next one on that is neither done nor in flight. */
  method FindFree(lane: Lane) returns (free: Option<nat>)
    requires lane.cursors != [] && lane.nextCursor < |lane.cursors|
    ensures free.None? ==> forall i :: 0 <= i < |lane.cursors| ==> Busy(lane, i)
    ensures free.None? ==> (Resting(lane) ==> !HasRemaining(lane))
    ensures free.Some? ==> free.value < |lane.cursors| && !Busy(lane, free.value)
    ensures free.Some? ==> FirstFree(lane, free.value)
  {
    var offset := 0;
    while offset < |lane.cursors|
      invariant 0 <= offset <= |lane.cursors|
      invariant forall e :: 0 <= e < offset ==> Busy(lane, Nth(lane, e))
    {
      var i := Nth(lane, offset);
      if !lane.cursors[i].done && !lane.cursors[i].inFlight {
        return Some(i);
      }
      offset := offset + 1;
    }
    AllBusy(lane);
    NothingFree(lane);
    return None;
  }

  lemma TakenKeeps(s: Setup, k: LaneKind, lane: Lane, dropped: seq<Candidate>, i: nat)
    requires LaneOk(s, k, lane, dropped) && i < |lane.cursors|
    ensures LaneOk(s, k, Taken(lane, i), dropped)
    ensures Unread(s, k, Taken(lane, i).cursors) == Unread(s, k, lane.cursors)
  {
    FlagCursor(s, k, lane.cursors, i, true);
  }

  lemma HasNextCursor(s: Setup, lanes: Lanes, dropped: PerKind<seq<Candidate>>, k: LaneKind)
    requires LanesOk(s, lanes, dropped) && HasRemaining(lanes.Get(k))
    ensures lanes.Get(k).cursors != [] && lanes.Get(k).nextCursor < |lanes.Get(k).cursors|
  {
    GetLane(s, lanes, dropped, k);
  }

  lemma TakingKeeps(s: Setup, lanes: Lanes, dropped: PerKind<seq<Candidate>>, k: LaneKind, i: nat)
    requires LanesOk(s, lanes, dropped) && i < |lanes.Get(k).cursors|
    ensures LanesOk(s, lanes.Set(k, Taken(lanes.Get(k), i)), dropped)
    ensures UnreadPages(s, lanes.Set(k, Taken(lanes.Get(k), i))) == UnreadPages(s, lanes)
  {
    GetLane(s, lanes, dropped, k);
    TakenKeeps(s, k, lanes.Get(k), dropped.Get(k), i);
    SetLane(s, lanes, dropped, k, Taken(lanes.Get(k), i), dropped.Get(k));
  }

  function Grounded(lane: Lane, i: nat): Lane
    requires i < |lane.cursors|
  {
    lane.(cursors := lane.cursors[i := lane.cursors[i].(inFlight := false)])
  }

  lemma GroundedKeeps(s: Setup, k: LaneKind, lane: Lane, dropped: seq<Candidate>, i: nat)
    requires LaneOk(s, k, lane, dropped) && i < |lane.cursors|
    ensures LaneOk(s, k, Grounded(lane, i), dropped)
    ensures Unread(s, k, Grounded(lane, i).cursors) == Unread(s, k, lane.cursors)
  {
    FlagCursor(s, k, lane.cursors, i, false);
  }

  lemma GroundingKeeps(s: Setup, lanes: Lanes, dropped: PerKind<seq<Candidate>>, q: Query)
    requires LanesOk(s, lanes, dropped) && q.cursor < |lanes.Get(q.kind).cursors|
    ensures LanesOk(s, lanes.Set(q.kind, Grounded(lanes.Get(q.kind), q.cursor)), dropped)
    ensures UnreadPages(s, lanes.Set(q.kind, Grounded(lanes.Get(q.kind), q.cursor))) == UnreadPages(s, lanes)
  {
    GetLane(s, lanes, dropped, q.kind);
    GroundedKeeps(s, q.kind, lanes.Get(q.kind), dropped.Get(q.kind), q.cursor);
    SetLane(s, lanes, dropped, q.kind, Grounded(lanes.Get(q.kind), q.cursor), dropped.Get(q.kind));
  }

  lemma ReadyToLand(s: Setup, lanes: Lanes, dropped: PerKind<seq<Candidate>>, q: Query)
    requires LanesOk(s, lanes, dropped) && q.cursor < |lanes.Get(q.kind).cursors|
    ensures |lanes.Get(q.kind).candidates| <= s.maxWork && Readable(s, q.kind, lanes.Get(q.kind).cursors[q.cursor])
  {
    GetLane(s, lanes, dropped, q.kind);
  }

  lemma LandingKeeps(s: Setup, lanes: Lanes, dropped: PerKind<seq<Candidate>>, q: Query,
                     eligible: seq<Candidate>, left: seq<Candidate>, next: Lane)
    requires LanesOk(s, lanes, dropped) && q.cursor < |lanes.Get(q.kind).cursors|
    requires !lanes.Get(q.kind).cursors[q.cursor].done
    requires |lanes.Get(q.kind).candidates| <= s.maxWork && Readable(s, q.kind, lanes.Get(q.kind).cursors[q.cursor])
    requires var c := lanes.Get(q.kind).cursors[q.cursor];
             && multiset(eligible) + multiset(left) == multiset(Pages(s, q.kind, c.bucket)[c.next])
             && next == Absorbed(lanes.Get(q.kind), q.cursor, Advanced(s, q.kind, c), eligible, |left|, s.maxWork)
    ensures LanesOk(s, lanes.Set(q.kind, next), dropped.Set(q.kind, dropped.Get(q.kind) + left))
    ensures UnreadPages(s, lanes.Set(q.kind, next)) + 1 == UnreadPages(s, lanes)
  {
    GetLane(s, lanes, dropped, q.kind);
    AbsorbKeeps(s, q.kind, lanes.Get(q.kind), dropped.Get(q.kind), q.cursor, eligible, left);
    SetLane(s, lanes, dropped, q.kind, next, dropped.Get(q.kind) + left);
  }

  function Marked(lane: Lane, maxWork: nat): Lane {
    if |lane.candidates| >= maxWork && HasRemaining(lane) then lane.(capReached := true) else lane
  }

  lemma MarkedKeeps(s: Setup, k: LaneKind, lane: Lane, dropped: seq<Candidate>)
    requires LaneOk(s, k, lane, dropped)
    ensures LaneOk(s, k, Marked(lane, s.maxWork), dropped)
  {
  }

  // Queries in flight

  ghost predicate InFlight(lanes: Lanes, q: Query) {
    && q.cursor < |lanes.Get(q.kind).cursors|
    && lanes.Get(q.kind).cursors[q.cursor].inFlight && !lanes.Get(q.kind).cursors[q.cursor].done
  }

  /** Exactly these queries are in flight. */
  ghost predicate Flying(lanes: Lanes, queries: seq<Query>) {
    && (forall q :: q in queries ==> InFlight(lanes, q))
    && (forall k: LaneKind, i :: 0 <= i < |lanes.Get(k).cursors| && lanes.Get(k).cursors[i].inFlight ==>
        Query(k, i) in queries)
    && (forall i, j :: 0 <= i < j < |queries| ==> queries[i] != queries[j])
  }

  /** A cursor that was free joins the queries in flight. */
  lemma TakeOff(lanes: Lanes, queries: seq<Query>, k: LaneKind, i: nat)
    requires Flying(lanes, queries) && i < |lanes.Get(k).cursors|
    requires !lanes.Get(k).cursors[i].inFlight && !lanes.Get(k).cursors[i].done
    ensures Flying(lanes.Set(k, Taken(lanes.Get(k), i)), queries + [Query(k, i)])
  {
    assert Query(k, i) !in queries by {
      assert !InFlight(lanes, Query(k, i));
    }
  }

  /** The first query in flight comes back. */
  lemma TouchDown(lanes: Lanes, queries: seq<Query>, lane: Lane)
    requires queries != [] && Flying(lanes, queries)
    requires var q := queries[0]; var before := lanes.Get(q.kind);
             && |lane.cursors| == |before.cursors| && q.cursor < |before.cursors| && !lane.cursors[q.cursor].inFlight
             && forall i :: 0 <= i < |lane.cursors| && i != q.cursor ==> lane.cursors[i] == before.cursors[i]
    ensures Flying(lanes.Set(queries[0].kind, lane), queries[1..])
  {
    var q, next := queries[0], lanes.Set(queries[0].kind, lane);
    forall p | p in queries[1..] ensures InFlight(next, p) {
      var i :| 0 <= i < |queries[1..]| && queries[1..][i] == p;
      assert queries[i + 1] == p;
      assert InFlight(lanes, p);
    }
    forall k: LaneKind, i | 0 <= i < |next.Get(k).cursors| && next.Get(k).cursors[i].inFlight
      ensures Query(k, i) in queries[1..]
    {
      assert Query(k, i) in queries && Query(k, i) != q;
      var j :| 0 <= j < |queries| && queries[j] == Query(k, i);
      assert queries[1..][j - 1] == queries[j];
    }
  }

  lemma TouchDownAt(lanes: Lanes, queries: seq<Query>, lane: Lane, c: Cursor)
    requires queries != [] && Flying(lanes, queries) && queries[0].cursor < |lanes.Get(queries[0].kind).cursors|
    requires lane.cursors == lanes.Get(queries[0].kind).cursors[queries[0].cursor := c] && !c.inFlight
    ensures Flying(lanes.Set(queries[0].kind, lane), queries[1..])
  {
    TouchDown(lanes, queries, lane);
  }

  // Discovery itself

  /** A lane that stopped short of its last page has said so. */
  ghost predicate CapsMarked(s: Setup, lanes: Lanes) {
    forall k: LaneKind :: |lanes.Get(k).candidates| >= s.maxWork && HasRemaining(lanes.Get(k)) ==>
      lanes.Get(k).capReached
  }

  ghost predicate Exhausted(lane: Lane) { forall i :: 0 <= i < |lane.cursors| ==> lane.cursors[i].done }

  function MarkAll(lanes: Lanes, maxWork: nat): Lanes {
    PerKind(Marked(lanes.delivery, maxWork), Marked(lanes.intent, maxWork), Marked(lanes.dependency, maxWork))
  }

  lemma MarkingKeeps(s: Setup, lanes: Lanes, dropped: PerKind<seq<Candidate>>)
    requires LanesOk(s, lanes, dropped)
    ensures LanesOk(s, MarkAll(lanes, s.maxWork), dropped)
    ensures UnreadPages(s, MarkAll(lanes, s.maxWork)) == UnreadPages(s, lanes)
  {
    MarkedKeeps(s, Delivery, lanes.delivery, dropped.delivery);
    MarkedKeeps(s, Intent, lanes.intent, dropped.intent);
    MarkedKeeps(s, Dependency, lanes.dependency, dropped.dependency);
  }

  lemma MarkedIsVisible(s: Setup, lanes: Lanes)
    requires Flying(lanes, [])
    ensures var marked := MarkAll(lanes, s.maxWork);
            && Flying(marked, []) && CapsMarked(s, marked)
            && forall k: LaneKind ::
                 && marked.Get(k).cursors == lanes.Get(k).cursors
                 && (|lanes.Get(k).candidates| < s.maxWork ==> marked.Get(k) == lanes.Get(k))
  {
    var marked := MarkAll(lanes, s.maxWork);
    forall k: LaneKind ensures marked.Get(k) == Marked(lanes.Get(k), s.maxWork) {
    }
    forall k: LaneKind, i | 0 <= i < |marked.Get(k).cursors| && marked.Get(k).cursors[i].inFlight
      ensures Query(k, i) in []
    {
      assert lanes.Get(k).cursors[i].inFlight;
    }
  }

  /** The queries gathered from the first `j` kinds asked for. */
  ghost predicate Collected(s: Setup, start: Lanes, lanes: Lanes, queries: seq<Query>, kinds: seq<LaneKind>, j: nat)
    requires j <= |kinds|
  {
    && |queries| <= j && Flying(lanes, queries)
    && (forall q :: q in queries ==> q.kind in kinds)
    && (forall k: LaneKind :: k !in kinds ==> lanes.Get(k) == start.Get(k))
    && (queries == [] ==> lanes == start && forall i :: 0 <= i < j ==> !Active(start.Get(kinds[i]), s.maxWork))
  }

  lemma CollectOne(s: Setup, start: Lanes, lanes: Lanes, queries: seq<Query>, kinds: seq<LaneKind>, j: nat, i: nat)
    requires j < |kinds| && Collected(s, start, lanes, queries, kinds, j) && i < |lanes.Get(kinds[j]).cursors|
    requires !lanes.Get(kinds[j]).cursors[i].inFlight && !lanes.Get(kinds[j]).cursors[i].done
    ensures var k := kinds[j];
            Collected(s, start, lanes.Set(k, Taken(lanes.Get(k), i)), queries + [Query(k, i)], kinds, j + 1)
  {
    TakeOff(lanes, queries, kinds[j], i);
  }

  lemma RestingWhenNoneFly(lanes: Lanes, k: LaneKind)
    requires Flying(lanes, [])
    ensures Resting(lanes.Get(k))
  {
  }

  lemma CollectNone(s: Setup, start: Lanes, lanes: Lanes, queries: seq<Query>, kinds: seq<LaneKind>, j: nat)
    requires j < |kinds| && Collected(s, start, lanes, queries, kinds, j)
    requires Resting(lanes.Get(kinds[j])) ==> !Active(lanes.Get(kinds[j]), s.maxWork)
    ensures Collected(s, start, lanes, queries, kinds, j + 1)
  {
    if queries == [] {
      RestingWhenNoneFly(lanes, kinds[j]);
    }
  }

  /** Kinds nobody queried are as they were. */
  ghost predicate Untouched(start: Lanes, lanes: Lanes, queries: seq<Query>) {
    forall k: LaneKind :: (forall q :: q in queries ==> q.kind != k) ==> lanes.Get(k) == start.Get(k)
  }

  lemma StillUntouched(start: Lanes, before: Lanes, queries: seq<Query>, q: Query, lane: Lane)
    requires Untouched(start, before, queries) && q in queries
    ensures Untouched(start, before.Set(q.kind, lane), queries)
  {
  }

  /** Pages have been read since `start`, or the kind that was active then is still to come. */
  ghost predicate Progressing(s: Setup, start: Lanes, lanes: Lanes, base: seq<LaneKind>, offset: nat, a: LaneKind) {
    && UnreadPages(s, lanes) <= UnreadPages(s, start)
    && (UnreadPages(s, lanes) < UnreadPages(s, start) || !Active(start.Get(a), s.maxWork)
        || (offset <= |base| && a in base[offset..] && lanes.Get(a) == start.Get(a)))
  }

  lemma WaveProgresses(s: Setup, start: Lanes, before: Lanes, after: Lanes, base: seq<LaneKind>, offset: nat, end: nat,
                       a: LaneKind, queried: nat)
    requires offset < end <= |base| && Progressing(s, start, before, base, offset, a)
    requires UnreadPages(s, after) + queried == UnreadPages(s, before)
    requires a !in base[offset..end] && Active(before.Get(a), s.maxWork) ==> after.Get(a) == before.Get(a)
    requires queried == 0 && a in base[offset..end] ==> !Active(before.Get(a), s.maxWork)
    ensures Progressing(s, start, after, base, end, a)
  {
    assert base[offset..] == base[offset..end] + base[end..];
  }

  /** How a query ends: with its page, because time is up, or for a reason of its own. */
  datatype Reply = PageRead | TimeUp | Broken

  class Discovery {
    const setup: Setup
    var lanes: Lanes
    ghost var broken: seq<Query>
    ghost var reloads: PerKind<seq<Reloaded>>

    ghost predicate Valid()
      reads this`lanes, this`reloads
    {
      Sensible(setup) && LanesOk(setup, lanes, Dropped())
    }

    /** What the filter has dropped so far. */
    ghost function Dropped(): PerKind<seq<Candidate>>
      reads this`reloads
    {
      AllTold(setup.filtering, reloads)
    }

    constructor (setup: Setup)
      requires Sensible(setup)
      ensures Valid() && broken == [] && this.setup == setup && Flying(lanes, []) && CapsMarked(setup, lanes)
    {
      this.setup, reloads, broken := setup, PerKind([], [], []), [];
      var cursors := seq(|setup.buckets|, i requires 0 <= i < |setup.buckets| =>
                         Cursor(setup.buckets[i], 0, false, false));
      var lane := Lane(cursors, 0, [], 0, false);
      lanes := PerKind(lane, lane, lane);
      new;
      forall k: LaneKind ensures LaneOk(setup, k, lane, []) {
        NothingReadYet(setup, k, cursors);
      }
      assert forall k: LaneKind :: lanes.Get(k) == lane;
    }

    /** While Telegram is switched off, rows whose reload says stale or Telegram are dropped and counted;
        rows that cannot be reloaded, and all rows once time has run out, are kept.  `answers` are what
        the reloads would say and `stop` is the row at which time runs out. */
    method FilterDisabledTelegram(rows: seq<Candidate>, answers: seq<Reload>, stop: nat)
      returns (eligible: seq<Candidate>, skipped: nat)
      requires |answers| == |rows| && stop <= |rows|
      ensures eligible == Filtered(setup.filtering, rows, answers, stop)
      ensures skipped == |rows| - |eligible|
    {
      if !setup.filtering || rows == [] {
        return rows, 0;
      }
      eligible, skipped := [], 0;
      var i := 0;
      while i < |rows|
        invariant 0 <= i <= stop
        invariant eligible == Kept(rows[..i], answers[..i]) && skipped == i - |eligible|
      {
        if i == stop {
          return eligible + rows[i..], skipped;
        }
        assert rows[..i + 1][..i] == rows[..i] && answers[..i + 1][..i] == answers[..i];
        if Drops(answers[i]) {
          skipped := skipped + 1;
        } else {
          eligible := eligible + [rows[i]];
        }
        i := i + 1;
      }
    }

    /** Reloading the rows of a page until time runs out, if they have to be reloaded at all: each answer
        is whatever the store says, and is on record. */
    method ReloadRows(k: LaneKind, rows: seq<Candidate>) returns (answers: seq<Reload>, stop: nat)
      modifies this`reloads
      ensures |answers| == |rows| && stop <= |rows|
      ensures reloads == old(reloads).Set(k, old(reloads).Get(k) + PageLog(setup.filtering, rows, answers, stop))
    {
      assert |seq(|rows|, _ => Stale)| == |rows|;
      answers :| |answers| == |rows|;
      stop :| stop <= |rows|;
      reloads := reloads.Set(k, reloads.Get(k) + PageLog(setup.filtering, rows, answers, stop));
    }

    /** A page after the filter: what is left out is what the reloads said to drop. */
    method Reduce(k: LaneKind, page: seq<Candidate>)
      returns (eligible: seq<Candidate>, skipped: nat, ghost left: seq<Candidate>)
      modifies this`reloads
      ensures multiset(eligible) + multiset(left) == multiset(page) && |left| == skipped
      ensures Dropped() == old(Dropped()).Set(k, old(Dropped()).Get(k) + left)
    {
      var answers, stop := ReloadRows(k, page);
      eligible, skipped := FilterDisabledTelegram(page, answers, stop);
      FilteredOrDropped(setup.filtering, page, answers, stop);
      ToldMore(setup.filtering, old(reloads), k, PageLog(setup.filtering, page, answers, stop));
      left := ToldToDrop(PageLog(setup.filtering, page, answers, stop));
    }

    method Occupy(k: LaneKind, i: nat)
      requires Valid() && i < |lanes.Get(k).cursors|
      modifies this`lanes
      ensures Valid() && UnreadPages(setup, lanes) == old(UnreadPages(setup, lanes))
      ensures lanes == old(lanes).Set(k, Taken(old(lanes).Get(k), i))
    {
      TakingKeeps(setup, lanes, Dropped(), k, i);
      lanes := lanes.Set(k, Taken(lanes.Get(k), i));
    }

    /** The next free cursor of an active lane, round robin. */
    method TakeCursor(k: LaneKind) returns (taken: Option<nat>)
      requires Valid()
      modifies this`lanes
      ensures Valid() && UnreadPages(setup, lanes) == old(UnreadPages(setup, lanes))
      ensures taken.None? ==> lanes == old(lanes) && (Resting(lanes.Get(k)) ==> !Active(lanes.Get(k), setup.maxWork))
      ensures taken.Some? ==>
                && Active(old(lanes).Get(k), setup.maxWork)
                && taken.value < |old(lanes).Get(k).cursors|
                && !old(lanes).Get(k).cursors[taken.value].done && !old(lanes).Get(k).cursors[taken.value].inFlight
                && lanes == old(lanes).Set(k, Taken(old(lanes).Get(k), taken.value))
    {
      var lane := lanes.Get(k);
      if !Active(lane, setup.maxWork) {
        return None;
      }
      HasNextCursor(setup, lanes, Dropped(), k);
      taken := FindFree(lane);
      if taken.Some? {
        Occupy(k, taken.value);
      }
    }

    /** The first half of a wave: a free cursor for each kind asked for, where there is one. */
    method Collect(kinds: seq<LaneKind>) returns (queries: seq<Query>)
      requires Valid() && Flying(lanes, [])
      modifies this`lanes
      ensures Valid() && Flying(lanes, queries) && |queries| <= |kinds|
      ensures UnreadPages(setup, lanes) == old(UnreadPages(setup, lanes))
      ensures forall q :: q in queries ==> q.kind in kinds
      ensures forall k: LaneKind :: k !in kinds ==> lanes.Get(k) == old(lanes).Get(k)
      ensures queries == [] ==> forall k :: k in kinds ==> !Active(old(lanes).Get(k), setup.maxWork)
    {
      queries := [];
      var j := 0;
      while j < |kinds|
        invariant 0 <= j <= |kinds|
        invariant Valid() && UnreadPages(setup, lanes) == old(UnreadPages(setup, lanes))
        invariant Collected(setup, old(lanes), lanes, queries, kinds, j)
      {
        var k := kinds[j];
        ghost var before := lanes;
        var taken := TakeCursor(k);
        if taken.Some? {
          CollectOne(setup, old(lanes), before, queries, kinds, j, taken.value);
          queries := queries + [Query(k, taken.value)];
        } else {
          CollectNone(setup, old(lanes), before, queries, kinds, j);
        }
        j := j + 1;
      }
    }

    /** Reading one page of one cursor: rows are filtered, kept up to the cap, and the cursor moves on. */
    method Land(q: Query)
      requires Valid() && q.cursor < |lanes.Get(q.kind).cursors| && !lanes.Get(q.kind).cursors[q.cursor].done
      modifies this`lanes, this`reloads
      ensures Valid() && UnreadPages(setup, lanes) + 1 == old(UnreadPages(setup, lanes))
      ensures lanes == old(lanes).Set(q.kind, lanes.Get(q.kind))
      ensures var before := old(lanes).Get(q.kind);
              lanes.Get(q.kind).cursors ==
                before.cursors[q.cursor := Advanced(setup, q.kind, before.cursors[q.cursor])]
    {
      var lane := lanes.Get(q.kind);
      ReadyToLand(setup, lanes, Dropped(), q);
      var cursor := lane.cursors[q.cursor];
      var page := Pages(setup, q.kind, cursor.bucket)[cursor.next];
      var eligible, skipped;
      ghost var left;
      eligible, skipped, left := Reduce(q.kind, page);
      var next := Absorbed(lane, q.cursor, Advanced(setup, q.kind, cursor), eligible, skipped, setup.maxWork);
      LandingKeeps(setup, lanes, old(Dropped()), q, eligible, left, next);
      lanes := lanes.Set(q.kind, next);
    }

    /** A query that failed leaves its cursor where it was. */
    method Ground(q: Query)
      requires Valid() && q.cursor < |lanes.Get(q.kind).cursors|
      modifies this`lanes
      ensures Valid() && UnreadPages(setup, lanes) == old(UnreadPages(setup, lanes))
      ensures lanes == old(lanes).Set(q.kind, Grounded(old(lanes).Get(q.kind), q.cursor))
    {
      var lane := lanes.Get(q.kind);
      GroundingKeeps(setup, lanes, Dropped(), q);
      lanes := lanes.Set(q.kind, Grounded(lane, q.cursor));
    }

    /** The store's answer to a query, with the broken ones on record. */
    method Ask(q: Query) returns (reply: Reply)
      modifies this`broken
      ensures broken == old(broken) + (if reply.Broken? then [q] else [])
    {
      reply :| true;
      broken := broken + (if reply.Broken? then [q] else []);
    }

    method ApplyOne(q: Query, ghost pending: seq<Query>) returns (reply: Reply)
      requires Valid() && pending != [] && pending[0] == q && Flying(lanes, pending)
      modifies this
      ensures Valid() && Flying(lanes, pending[1..])
      ensures lanes == old(lanes).Set(q.kind, lanes.Get(q.kind))
      ensures UnreadPages(setup, lanes) + (if reply.PageRead? then 1 else 0) == old(UnreadPages(setup, lanes))
      ensures broken == old(broken) + (if reply.Broken? then [q] else [])
    {
      assert InFlight(lanes, q);
      reply := Ask(q);
      ghost var c;
      if reply.PageRead? {
        Land(q);
        c := Advanced(setup, q.kind, old(lanes).Get(q.kind).cursors[q.cursor]);
      } else {
        Ground(q);
        c := old(lanes).Get(q.kind).cursors[q.cursor].(inFlight := false);
      }
      TouchDownAt(old(lanes), pending, lanes.Get(q.kind), c);
    }

    /** The second half of a wave.  A query may fail because time ran out, which stops discovery, or
        for another reason, which fails it. */
    method Apply(queries: seq<Query>) returns (stopped: bool, failed: bool)
      requires Valid() && Flying(lanes, queries)
      modifies this
      ensures Valid() && (!failed ==> Flying(lanes, []))
      ensures UnreadPages(setup, lanes) <= old(UnreadPages(setup, lanes))
      ensures !stopped && !failed ==> UnreadPages(setup, lanes) + |queries| == old(UnreadPages(setup, lanes))
      ensures Untouched(old(lanes), lanes, queries)
      ensures if failed then |broken| > |old(broken)| else broken == old(broken)
    {
      stopped, failed := false, false;
      var j := 0;
      while j < |queries|
        invariant 0 <= j <= |queries|
        invariant Valid() && Flying(lanes, queries[j..])
        invariant UnreadPages(setup, lanes) <= old(UnreadPages(setup, lanes))
        invariant !stopped ==> UnreadPages(setup, lanes) + j == old(UnreadPages(setup, lanes))
        invariant Untouched(old(lanes), lanes, queries) && broken == old(broken)
      {
        var q := queries[j];
        assert queries[j..][0] == q && queries[j..][1..] == queries[j + 1..];
        ghost var before := lanes;
        var reply := ApplyOne(q, queries[j..]);
        StillUntouched(old(lanes), before, queries, q, lanes.Get(q.kind));
        if reply.Broken? {
          return stopped, true;
        }
        stopped := stopped || reply.TimeUp?;
        j := j + 1;
      }
    }

    /** A lane that is full while cursors remain has reached the cap. */
    method MarkCaps()
      requires Valid() && Flying(lanes, [])
      modifies this`lanes
      ensures Valid() && Flying(lanes, []) && CapsMarked(setup, lanes)
      ensures UnreadPages(setup, lanes) == old(UnreadPages(setup, lanes))
      ensures forall k: LaneKind :: lanes.Get(k).cursors == old(lanes).Get(k).cursors
      ensures forall k: LaneKind :: |old(lanes).Get(k).candidates| < setup.maxWork ==> lanes.Get(k) == old(lanes).Get(k)
    {
      MarkingKeeps(setup, lanes, Dropped());
      MarkedIsVisible(setup, lanes);
      lanes := MarkAll(lanes, setup.maxWork);
    }

    /** One wave: a page for every kind asked for that still has something to read. */
    method QueryWave(kinds: seq<LaneKind>) returns (queried: nat, stopped: bool, failed: bool)
      requires Valid() && Flying(lanes, [])
      modifies this
      ensures Valid() && queried <= |kinds|
      ensures !failed ==> Flying(lanes, []) && CapsMarked(setup, lanes)
      ensures UnreadPages(setup, lanes) <= old(UnreadPages(setup, lanes))
      ensures !stopped && !failed ==> UnreadPages(setup, lanes) + queried == old(UnreadPages(setup, lanes))
      ensures forall k: LaneKind :: k !in kinds && Active(old(lanes).Get(k), setup.maxWork) ==>
                lanes.Get(k) == old(lanes).Get(k)
      ensures queried == 0 && !stopped && !failed ==>
                forall k :: k in kinds ==> !Active(old(lanes).Get(k), setup.maxWork)
      ensures if failed then |broken| > |old(broken)| else broken == old(broken)
    {
      var queries := Collect(kinds);
      stopped, failed := Apply(queries);
      if failed {
        return 0, stopped, true;
      }
      MarkCaps();
      queried := |queries|;
    }

    /** Waves over all kinds, `parallelism` at a time.  If any lane was active, a page gets read. */
    method BaseWaves(base: seq<LaneKind>) returns (stopped: bool, failed: bool)
      requires Valid() && Flying(lanes, []) && CapsMarked(setup, lanes) && (forall k: LaneKind :: k in base)
      modifies this
      ensures Valid() && (!failed ==> Flying(lanes, []) && CapsMarked(setup, lanes))
      ensures UnreadPages(setup, lanes) <= old(UnreadPages(setup, lanes))
      ensures !stopped && !failed && AnyActive(old(lanes), setup.maxWork) ==>
                UnreadPages(setup, lanes) < old(UnreadPages(setup, lanes))
      ensures if failed then |broken| > |old(broken)| else broken == old(broken)
    {
      stopped, failed := false, false;
      var offset := 0;
      ghost var a: LaneKind := ActiveKind(lanes, setup.maxWork);
      ghost var start := lanes;
      while offset < |base|
        invariant 0 <= offset
        invariant !failed && broken == old(broken)
        invariant Valid() && Flying(lanes, []) && CapsMarked(setup, lanes)
        invariant Progressing(setup, start, lanes, base, offset, a)
      {
        if * {
          return true, false;
        }
        var end := if offset + setup.parallelism < |base| then offset + setup.parallelism else |base|;
        ghost var before := lanes;
        var queried;
        queried, stopped, failed := QueryWave(base[offset..end]);
        if stopped || failed {
          return;
        }
        WaveProgresses(setup, start, before, lanes, base, offset, end, a, queried);
        offset := end;
      }
    }

    /** Deliveries weigh four times as much: up to three more pages for them per round. */
    method DeliveryWaves() returns (stopped: bool, failed: bool)
      requires Valid() && Flying(lanes, []) && CapsMarked(setup, lanes)
      modifies this
      ensures Valid() && (!failed ==> Flying(lanes, []) && CapsMarked(setup, lanes))
      ensures UnreadPages(setup, lanes) <= old(UnreadPages(setup, lanes))
      ensures if failed then |broken| > |old(broken)| else broken == old(broken)
    {
      stopped, failed := false, false;
      var weight := 3;
      while weight > 0 && Active(lanes.delivery, setup.maxWork)
        invariant 0 <= weight <= 3
        invariant !failed && broken == old(broken)
        invariant Valid() && Flying(lanes, []) && CapsMarked(setup, lanes)
        invariant UnreadPages(setup, lanes) <= old(UnreadPages(setup, lanes))
        decreases weight
      {
        if * {
          return true, false;
        }
        var size := if weight < setup.parallelism then weight else setup.parallelism;
        var queried;
        queried, stopped, failed := QueryWave(seq(size, _ => Delivery));
        if stopped || failed || queried == 0 {
          return;
        }
        weight := weight - queried;
      }
    }

    method Report(deadline: bool) returns (result: Result)
      requires Valid() && CapsMarked(setup, lanes) && (deadline || !AnyActive(lanes, setup.maxWork))
      ensures result.Found? && Reported(setup, lanes, Dropped(), result)
    {
      var capReached := lanes.delivery.capReached || lanes.intent.capReached || lanes.dependency.capReached;
      result := Found(lanes.delivery.candidates + lanes.intent.candidates + lanes.dependency.candidates,
                      lanes.delivery.skipped + lanes.intent.skipped + lanes.dependency.skipped,
                      !deadline && !capReached, capReached, deadline);
      LanesReported(setup, lanes, Dropped(), result);
    }

    /** Discovery ends, holds at most `maxWork` candidates per kind, and calls itself complete exactly
        when no deadline and no cap cut it short; a complete result has read every page, and each row
        it was given is among the candidates or counted as skipped.  The skipped rows are exactly
        those that a reload said to be stale or for Telegram, and rows are reloaded only while filtering.
        Discovery fails exactly when a query broke for a reason other than time. */
    method Discover(minute: int) returns (result: Result)
      requires Valid() && broken == [] && Flying(lanes, []) && CapsMarked(setup, lanes)
      modifies this
      ensures result.Found? ==> Valid() && Reported(setup, lanes, Dropped(), result)
      ensures result.Failure? <==> broken != []
    {
      var deadline, round := false, 0;
      while !deadline && AnyActive(lanes, setup.maxWork)
        invariant Valid() && broken == [] && Flying(lanes, []) && CapsMarked(setup, lanes)
        decreases UnreadPages(setup, lanes), !deadline
      {
        var expired: bool := *;
        if expired {
          deadline := true;
        } else {
          var stopped, failed := BaseWaves(LaneOrder(minute + round));
          if !stopped && !failed {
            stopped, failed := DeliveryWaves();
          }
          if failed {
            return Failure;
          }
          deadline := stopped;
        }
        round := round + 1;
      }
      result := Report(deadline);
    }
  }

  predicate AnyActive(lanes: Lanes, maxWork: nat) {
    Active(lanes.delivery, maxWork) || Active(lanes.intent, maxWork) || Active(lanes.dependency, maxWork)
  }

  /** An active kind, if there is one. */
  function ActiveKind(lanes: Lanes, maxWork: nat): (k: LaneKind)
    ensures AnyActive(lanes, maxWork) ==> Active(lanes.Get(k), maxWork)
  {
    if Active(lanes.delivery, maxWork) then Delivery else if Active(lanes.intent, maxWork) then Intent else Dependency
  }

  /** The order of the kinds in a round. */
  function LaneOrder(slot: int): (order: seq<LaneKind>)
    ensures forall k: LaneKind :: k in order
  {
    match slot % 3
    case 0 => [Delivery, Intent, Dependency]
    case 1 => [Intent, Dependency, Delivery]
    case _ => [Dependency, Delivery, Intent]
  }

  lemma LaneOrderRotates(slot: int)
    ensures LaneOrder(slot) == Rotate(KINDS, slot)
  {
    var n := slot % |KINDS|;
    assert KINDS[n..] + KINDS[..n] == LaneOrder(slot);
  }

  /** Nothing of a kind was lost. */
  ghost predicate ReadAll(s: Setup, k: LaneKind, lane: Lane, dropped: seq<Candidate>) {
    && Exhausted(lane)
    && multiset(lane.candidates) + multiset(dropped) == AllRows(s, k, s.buckets)
    && |dropped| == lane.skipped
  }

  ghost predicate Reported(s: Setup, lanes: Lanes, dropped: PerKind<seq<Candidate>>, r: Result)
    requires r.Found?
  {
    && r.candidates == lanes.delivery.candidates + lanes.intent.candidates + lanes.dependency.candidates
    && |lanes.delivery.candidates| <= s.maxWork && |lanes.intent.candidates| <= s.maxWork
    && |lanes.dependency.candidates| <= s.maxWork
    && r.skipped == lanes.delivery.skipped + lanes.intent.skipped + lanes.dependency.skipped
    && (r.complete <==> !r.deadlineReached && !r.capReached)
    && (r.capReached ==> exists k: LaneKind :: |lanes.Get(k).candidates| == s.maxWork)
    && (r.complete ==>
          && ReadAll(s, Delivery, lanes.delivery, dropped.delivery)
          && ReadAll(s, Intent, lanes.intent, dropped.intent)
          && ReadAll(s, Dependency, lanes.dependency, dropped.dependency))
  }

  lemma LanesReported(s: Setup, lanes: Lanes, dropped: PerKind<seq<Candidate>>, r: Result)
    requires LanesOk(s, lanes, dropped) && CapsMarked(s, lanes)
    requires r.Found? && (r.deadlineReached || !AnyActive(lanes, s.maxWork))
    requires r.candidates == lanes.delivery.candidates + lanes.intent.candidates + lanes.dependency.candidates
    requires r.skipped == lanes.delivery.skipped + lanes.intent.skipped + lanes.dependency.skipped
    requires r.capReached == (lanes.delivery.capReached || lanes.intent.capReached || lanes.dependency.capReached)
    requires r.complete == (!r.deadlineReached && !r.capReached)
    ensures Reported(s, lanes, dropped, r)
  {
    if r.capReached { FullLane(s, lanes, dropped); }
    if r.complete { AllLanesRead(s, lanes, dropped); }
  }

  lemma AllLanesRead(s: Setup, lanes: Lanes, dropped: PerKind<seq<Candidate>>)
    requires LanesOk(s, lanes, dropped) && CapsMarked(s, lanes) && !AnyActive(lanes, s.maxWork)
    requires !lanes.delivery.capReached && !lanes.intent.capReached && !lanes.dependency.capReached
    ensures ReadAll(s, Delivery, lanes.delivery, dropped.delivery) && ReadAll(s, Intent, lanes.intent, dropped.intent)
    ensures ReadAll(s, Dependency, lanes.dependency, dropped.dependency)
  {
    assert ReadAll(s, Delivery, lanes.delivery, dropped.delivery) by { CompleteReadsAll(s, lanes, dropped, Delivery); }
    assert ReadAll(s, Intent, lanes.intent, dropped.intent) by { CompleteReadsAll(s, lanes, dropped, Intent); }
    assert ReadAll(s, Dependency, lanes.dependency, dropped.dependency) by {
      CompleteReadsAll(s, lanes, dropped, Dependency);
    }
  }

  lemma FullLane(s: Setup, lanes: Lanes, dropped: PerKind<seq<Candidate>>)
    requires LanesOk(s, lanes, dropped)
    requires lanes.delivery.capReached || lanes.intent.capReached || lanes.dependency.capReached
    ensures exists k: LaneKind :: |lanes.Get(k).candidates| == s.maxWork
  {
    var k: LaneKind := if lanes.delivery.capReached then Delivery else if lanes.intent.capReached then Intent
      else Dependency;
    assert |lanes.Get(k).candidates| == s.maxWork;
  }

  lemma CompleteReadsAll(s: Setup, lanes: Lanes, dropped: PerKind<seq<Candidate>>, k: LaneKind)
    requires LanesOk(s, lanes, dropped) && CapsMarked(s, lanes)
    requires !Active(lanes.Get(k), s.maxWork) && !lanes.Get(k).capReached
    ensures ReadAll(s, k, lanes.Get(k), dropped.Get(k))
  {
    GetLane(s, lanes, dropped, k);
    var lane := lanes.Get(k);
    assert !HasRemaining(lane);
    ExhaustedMeansAll(s, k, s.buckets, lane.cursors);
  }
}
