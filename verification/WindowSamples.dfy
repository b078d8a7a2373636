/**
 Evaluating one window of samples: at most one canonical sample per device and bucket, coverage by
 occupied buckets, and an aggregate.  Values are reals; a sample that is not a finite number is ignored.
 */
module WindowSamples {
  import opened Wrappers

  datatype Value = Finite(number: real) | NotFinite

  datatype Sample = Sample(time: int, device: nat, value: Value, sequence: int)

  datatype Aggregation = Min | Max | Mean | Last | Unsupported

  /** `device` restricts the window to one device when present. */
  datatype Window = Window(
    start: int, end: int, device: Option<nat>, interval: int, cadence: int,
    minimumCoverage: real, minimumPoints: int, maximumAge: int, aggregation: Aggregation)

  datatype Quality = InsufficientData | StaleData | Sufficient

  datatype Result = Result(
    quality: Quality, value: real, coverage: real, expected: nat, occupied: nat, points: nat, devices: nat,
    latest: Option<int>)

  datatype Key = Key(device: nat, bucket: int)

  type Canonical = map<Key, Sample>

  // The canonical samples

  function BucketCount(window: int, interval: int): nat {
    if window <= 0 || interval <= 0 then 0 else (window + interval - 1) / interval
  }

  predicate Usable(w: Window) { w.interval > 0 && w.end > w.start }

  predicate Eligible(w: Window, s: Sample) {
    w.start <= s.time < w.end && (w.device.None? || s.device == w.device.value) && s.value.Finite?
  }

  function KeyOf(w: Window, s: Sample): Key
    requires w.interval > 0
  {
    Key(s.device, (s.time - w.start) / w.interval)
  }

  predicate NoNewer(x: Sample, y: Sample) { x.time < y.time || (x.time == y.time && x.sequence <= y.sequence) }

  /** `x` is eligible, and no eligible sample of its device and bucket is newer. */
  ghost predicate Newest(w: Window, samples: seq<Sample>, x: Sample)
    requires w.interval > 0
  {
    && x in samples && Eligible(w, x)
    && forall y :: y in samples && Eligible(w, y) && KeyOf(w, y) == KeyOf(w, x) ==> NoNewer(y, x)
  }

  /** `s` is at position `i`, and what its bucket held before was strictly older. */
  ghost predicate Arrives(w: Window, samples: seq<Sample>, s: Sample, i: nat)
    requires w.interval > 0
  {
    && i < |samples| && samples[i] == s
    && forall j :: 0 <= j < i && Eligible(w, samples[j]) && KeyOf(w, samples[j]) == KeyOf(w, s) ==>
         !NoNewer(s, samples[j])
  }

  /** For every device and bucket with an eligible sample, the first of the newest ones. */
  ghost predicate IsCanonical(w: Window, samples: seq<Sample>, m: Canonical)
    requires w.interval > 0
  {
    && (forall k :: k in m ==>
        Newest(w, samples, m[k]) && KeyOf(w, m[k]) == k && exists i :: Arrives(w, samples, m[k], i))
    && (forall x :: x in samples && Eligible(w, x) ==> KeyOf(w, x) in m)
  }

  lemma OneArrivesFirst(w: Window, samples: seq<Sample>, x: Sample, i: nat, y: Sample, j: nat)
    requires w.interval > 0 && Newest(w, samples, x) && Newest(w, samples, y) && KeyOf(w, x) == KeyOf(w, y)
    requires Arrives(w, samples, x, i) && Arrives(w, samples, y, j)
    ensures x == y
  {
  }

  /** The samples alone determine the canonical map, ties or no ties. */
  lemma CanonicalIsDetermined(w: Window, samples: seq<Sample>, m: Canonical, n: Canonical)
    requires w.interval > 0 && IsCanonical(w, samples, m) && IsCanonical(w, samples, n)
    ensures m == n
  {
    assert m.Keys == n.Keys;
    forall k | k in m ensures n[k] == m[k] {
      var i: nat :| Arrives(w, samples, m[k], i);
      var j: nat :| Arrives(w, samples, n[k], j);
      OneArrivesFirst(w, samples, m[k], i, n[k], j);
    }
  }

  /** No two different samples of one device and bucket are both newest. */
  ghost predicate NoTie(w: Window, samples: seq<Sample>)
    requires w.interval > 0
  {
    forall x, y :: Newest(w, samples, x) && Newest(w, samples, y) && KeyOf(w, x) == KeyOf(w, y) ==> x == y
  }

  /** Without ties the canonical samples depend on which samples arrived, not on their order or repetition. */
  lemma CanonicalIsUnique(w: Window, samples: seq<Sample>, again: seq<Sample>, m: Canonical, n: Canonical)
    requires w.interval > 0 && NoTie(w, samples)
    requires forall x :: x in samples <==> x in again
    requires IsCanonical(w, samples, m) && IsCanonical(w, again, n)
    ensures m == n
  {
    forall k | k in m ensures k in n && n[k] == m[k] {
      assert m[k] in again;
      assert Newest(w, samples, n[k]);
    }
    forall k | k in n ensures k in m {
      assert n[k] in samples;
    }
  }

  function Absorbed(w: Window, m: Canonical, s: Sample): Canonical
    requires w.interval > 0
  {
    if Eligible(w, s) && (KeyOf(w, s) !in m || !NoNewer(s, m[KeyOf(w, s)])) then m[KeyOf(w, s) := s] else m
  }

  lemma OneMore(w: Window, samples: seq<Sample>, m: Canonical, s: Sample)
    requires w.interval > 0 && IsCanonical(w, samples, m)
    ensures IsCanonical(w, samples + [s], Absorbed(w, m, s))
  {
    var all, n := samples + [s], Absorbed(w, m, s);
    assert forall x :: x in all <==> x in samples || x == s;
    forall k | k in n
      ensures Newest(w, all, n[k]) && KeyOf(w, n[k]) == k && exists i :: Arrives(w, all, n[k], i)
    {
      if k in m && n[k] == m[k] {
        assert Newest(w, samples, m[k]);
        var i :| Arrives(w, samples, m[k], i);
        assert Arrives(w, all, m[k], i);
      } else {
        NewestSoFar(w, samples, m, s);
        assert Arrives(w, all, s, |samples|);
      }
    }
  }

  lemma NewestSoFar(w: Window, samples: seq<Sample>, m: Canonical, s: Sample)
    requires w.interval > 0 && IsCanonical(w, samples, m) && Eligible(w, s)
    requires KeyOf(w, s) in m ==> !NoNewer(s, m[KeyOf(w, s)])
    ensures forall y :: y in samples && Eligible(w, y) && KeyOf(w, y) == KeyOf(w, s) ==> NoNewer(y, s) && !NoNewer(s, y)
  {
    forall y | y in samples && Eligible(w, y) && KeyOf(w, y) == KeyOf(w, s) ensures NoNewer(y, s) && !NoNewer(s, y) {
      assert Newest(w, samples, m[KeyOf(w, s)]);
      assert NoNewer(y, m[KeyOf(w, s)]);
    }
  }

  method Canonicalise(w: Window, samples: seq<Sample>) returns (m: Canonical)
    requires w.interval > 0
    ensures IsCanonical(w, samples, m)
  {
    m := map[];
    var i := 0;
    while i < |samples|
      invariant 0 <= i <= |samples|
      invariant IsCanonical(w, samples[..i], m)
    {
      var s := samples[i];
      assert samples[..i + 1] == samples[..i] + [s];
      OneMore(w, samples[..i], m, s);
      if Eligible(w, s) {
        var k := KeyOf(w, s);
        if k !in m || s.time > m[k].time || (s.time == m[k].time && s.sequence > m[k].sequence) {
          m := m[k := s];
        }
      }
      i := i + 1;
    }
    assert samples[..|samples|] == samples;
  }

  // Whether the order of the samples matters

  lemma {:induction false} CanonicalExists(w: Window, samples: seq<Sample>)
    requires w.interval > 0
    ensures exists m :: IsCanonical(w, samples, m)
    decreases |samples|
  {
    if samples == [] {
      assert IsCanonical(w, samples, map[]);
    } else {
      var before, s := samples[..|samples| - 1], samples[|samples| - 1];
      CanonicalExists(w, before);
      var m :| IsCanonical(w, before, m);
      OneMore(w, before, m, s);
      assert before + [s] == samples;
    }
  }

  /** Among tied samples the one that comes first is kept. */
  lemma FirstOfTheNewestIsKept(w: Window, samples: seq<Sample>, rest: seq<Sample>, x: Sample, m: Canonical)
    requires w.interval > 0 && samples == [x] + rest && Newest(w, samples, x) && IsCanonical(w, samples, m)
    ensures KeyOf(w, x) in m && m[KeyOf(w, x)] == x
  {
    var k := KeyOf(w, x);
    assert samples[0] == x;
    assert Newest(w, samples, m[k]);
    var i: nat :| Arrives(w, samples, m[k], i);
    OneArrivesFirst(w, samples, x, 0, m[k], i);
  }

  function Removed(samples: seq<Sample>, i: nat): (rest: seq<Sample>)
    requires i < |samples|
    ensures multiset([samples[i]] + rest) == multiset(samples)
  {
    assert samples == samples[..i] + [samples[i]] + samples[i + 1..];
    samples[..i] + samples[i + 1..]
  }

  lemma SameMembers(samples: seq<Sample>, again: seq<Sample>)
    requires multiset(samples) == multiset(again)
    ensures forall x :: x in samples <==> x in again
  {
    forall x ensures x in samples <==> x in again {
      assert x in samples <==> x in multiset(samples);
      assert x in again <==> x in multiset(again);
    }
  }

  /** Some order of the samples has `x` first, and then `x` is the canonical sample of its bucket. */
  lemma SomeOrderKeeps(w: Window, samples: seq<Sample>, x: Sample) returns (again: seq<Sample>, m: Canonical)
    requires w.interval > 0 && Newest(w, samples, x)
    ensures multiset(again) == multiset(samples) && IsCanonical(w, again, m) && KeyOf(w, x) in m && m[KeyOf(w, x)] == x
  {
    var i :| 0 <= i < |samples| && samples[i] == x;
    var rest := Removed(samples, i);
    again := [x] + rest;
    SameMembers(samples, again);
    CanonicalExists(w, again);
    m :| IsCanonical(w, again, m);
    FirstOfTheNewestIsKept(w, again, rest, x, m);
  }

  ghost predicate Reordered(again: seq<Sample>, samples: seq<Sample>) { multiset(again) == multiset(samples) }

  /** Every order of the same samples gives the same canonical map. */
  ghost predicate OrderIsIrrelevant(w: Window, samples: seq<Sample>)
    requires w.interval > 0
  {
    forall again, other, m, n | Reordered(again, samples) && Reordered(other, samples) ::
      IsCanonical(w, again, m) && IsCanonical(w, other, n) ==> m == n
  }

  /** The order of the samples is irrelevant if and only if no two of them tie. */
  lemma OrderMattersExactlyForTies(w: Window, samples: seq<Sample>)
    requires w.interval > 0
    ensures OrderIsIrrelevant(w, samples) <==> NoTie(w, samples)
  {
    if NoTie(w, samples) {
      CanonicalExists(w, samples);
      var c :| IsCanonical(w, samples, c);
      forall again, m | Reordered(again, samples) && IsCanonical(w, again, m) ensures m == c {
        SameMembers(samples, again);
        CanonicalIsUnique(w, samples, again, c, m);
      }
    }
    if OrderIsIrrelevant(w, samples) {
      forall x, y | Newest(w, samples, x) && Newest(w, samples, y) && KeyOf(w, x) == KeyOf(w, y) ensures x == y {
        var again, m := SomeOrderKeeps(w, samples, x);
        var other, n := SomeOrderKeeps(w, samples, y);
      }
    }
  }

  /** Two readings of one device for one instant: whichever comes first is the canonical one. */
  lemma TiesDependOnOrder(m: Canonical, n: Canonical)
    requires var w := Window(0, 60, None, 60, 60, 0.0, 0, 0, Min);
             var x, y := Sample(5, 1, Finite(1.0), 7), Sample(5, 1, Finite(2.0), 7);
             IsCanonical(w, [x, y], m) && IsCanonical(w, [y, x], n)
    ensures m == map[Key(1, 0) := Sample(5, 1, Finite(1.0), 7)] && n == map[Key(1, 0) := Sample(5, 1, Finite(2.0), 7)]
  {
    var w := Window(0, 60, None, 60, 60, 0.0, 0, 0, Min);
    var x, y := Sample(5, 1, Finite(1.0), 7), Sample(5, 1, Finite(2.0), 7);
    OnlyTheFirst(w, x, y, m);
    OnlyTheFirst(w, y, x, n);
  }

  lemma OnlyTheFirst(w: Window, x: Sample, y: Sample, m: Canonical)
    requires w.interval > 0 && Eligible(w, x) && Eligible(w, y) && KeyOf(w, x) == KeyOf(w, y) && NoNewer(y, x)
    requires IsCanonical(w, [x, y], m)
    ensures m == map[KeyOf(w, x) := x]
  {
    assert [x, y] == [x] + [y];
    FirstOfTheNewestIsKept(w, [x, y], [y], x, m);
    forall k | k in m ensures k == KeyOf(w, x) {
      assert m[k] in [x, y];
    }
  }

  // Sums over finite maps, independent of any order

  function Number(s: Sample): real { if s.value.Finite? then s.value.number else 0.0 }

  ghost function Total<T(!new)>(v: map<T, real>): real {
    if v == map[] then 0.0 else var k :| k in v; v[k] + Total(v - {k})
  }

  lemma {:induction false} TotalSplits<T(!new)>(v: map<T, real>, k: T)
    requires k in v
    ensures Total(v) == v[k] + Total(v - {k})
    decreases |v|
  {
    var j :| j in v && Total(v) == v[j] + Total(v - {j});
    if j != k {
      TotalSplits(v - {j}, k);
      TotalSplits(v - {k}, j);
      assert v - {j} - {k} == v - {k} - {j};
    }
  }

  lemma TotalAdds<T(!new)>(v: map<T, real>, k: T, x: real)
    requires k !in v
    ensures Total(v[k := x]) == Total(v) + x
  {
    TotalSplits(v[k := x], k);
    assert v[k := x] - {k} == v;
  }

  function Times(x: real, n: nat): real { if n == 0 then 0.0 else Times(x, n - 1) + x }

  lemma {:induction false} TimesIsProduct(x: real, n: nat)
    ensures Times(x, n) == x * (n as real)
  {
    if n > 0 {
      TimesIsProduct(x, n - 1);
    }
  }

  lemma {:induction false} TotalBetween<T(!new)>(v: map<T, real>, low: real, high: real)
    requires forall k :: k in v ==> low <= v[k] <= high
    ensures Times(low, |v|) <= Total(v) <= Times(high, |v|)
    decreases |v|
  {
    if v != map[] {
      var k :| k in v;
      TotalSplits(v, k);
      TotalBetween(v - {k}, low, high);
      assert |v - {k}| == |v| - 1;
    }
  }

  lemma QuotientBetween(sum: real, n: nat, low: real, high: real)
    requires n > 0 && Times(low, n) <= sum <= Times(high, n)
    ensures low <= sum / (n as real) <= high
  {
    TimesIsProduct(low, n);
    TimesIsProduct(high, n);
    var q := sum / (n as real);
    assert q * (n as real) == sum;
    assert q < low ==> q * (n as real) < low * (n as real);
    assert q > high ==> q * (n as real) > high * (n as real);
  }

  // The reference: what each aggregate means

  ghost function Average<T(!new)>(v: map<T, real>): real
    requires v != map[]
  {
    Total(v) / (|v| as real)
  }

  lemma AverageBetween<T(!new)>(v: map<T, real>, low: real, high: real)
    requires v != map[] && forall k :: k in v ==> low <= v[k] <= high
    ensures low <= Average(v) <= high
  {
    TotalBetween(v, low, high);
    QuotientBetween(Total(v), |v|, low, high);
  }

  ghost function Buckets(m: Canonical): set<int> { set k | k in m :: k.bucket }

  ghost function Devices(m: Canonical): set<nat> { set k | k in m :: k.device }

  ghost function BucketValues(m: Canonical, b: int): map<Key, real> { map k | k in m && k.bucket == b :: Number(m[k]) }

  lemma BucketIsOccupied(m: Canonical, b: int)
    requires b in Buckets(m)
    ensures BucketValues(m, b) != map[]
  {
    var k :| k in m && k.bucket == b;
    assert k in BucketValues(m, b);
  }

  ghost function BucketMean(m: Canonical, b: int): real
    requires b in Buckets(m)
  {
    BucketIsOccupied(m, b);
    Average(BucketValues(m, b))
  }

  ghost function BucketMeans(m: Canonical): map<int, real> { map b | b in Buckets(m) :: BucketMean(m, b) }

  /** The mean over occupied buckets of the mean within each bucket. */
  ghost function MeanOf(m: Canonical): real
    requires BucketMeans(m) != map[]
  {
    Average(BucketMeans(m))
  }

  ghost predicate IsLeast(m: Canonical, v: real) {
    (exists k :: k in m && Number(m[k]) == v) && (forall k :: k in m ==> v <= Number(m[k]))
  }

  ghost predicate IsGreatest(m: Canonical, v: real) {
    (exists k :: k in m && Number(m[k]) == v) && (forall k :: k in m ==> Number(m[k]) <= v)
  }

  lemma MeansExist(m: Canonical)
    requires m != map[]
    ensures BucketMeans(m) != map[]
  {
    var k :| k in m;
    assert k.bucket in BucketMeans(m);
  }

  /** The mean of bucket means lies between the minimum and the maximum of the same window. */
  lemma MeanIsBetween(m: Canonical, low: real, high: real)
    requires IsLeast(m, low) && IsGreatest(m, high)
    ensures BucketMeans(m) != map[] && low <= MeanOf(m) <= high
  {
    MeansExist(m);
    forall b | b in Buckets(m) ensures low <= BucketMean(m, b) <= high {
      BucketIsOccupied(m, b);
      AverageBetween(BucketValues(m, b), low, high);
    }
    AverageBetween(BucketMeans(m), low, high);
  }

  // Coverage

  lemma {:induction false} BelowCount(s: set<int>, n: nat)
    requires forall b :: b in s ==> 0 <= b < n
    ensures |s| <= n
  {
    if n > 0 {
      BelowCount(s - {n - 1}, n - 1);
      assert |s| <= |s - {n - 1}| + 1;
    } else {
      assert forall b :: b !in s;
      assert s == {};
    }
  }

  lemma BucketInRange(start: int, end: int, interval: int, t: int)
    requires interval > 0 && start <= t < end
    ensures 0 <= (t - start) / interval < BucketCount(end - start, interval)
  {
    var q, n := (t - start) / interval, BucketCount(end - start, interval);
    assert interval * q <= t - start;
    assert end - start + interval - 1 < interval * (n + 1);
    assert interval * q < interval * n;
    assert q < n;
  }

  /** Occupied buckets never outnumber the expected ones, so the coverage ratio never needs its clamp. */
  lemma CoverageIsNeverClamped(w: Window, samples: seq<Sample>, m: Canonical)
    requires Usable(w) && IsCanonical(w, samples, m)
    ensures |Buckets(m)| <= BucketCount(w.end - w.start, w.interval)
  {
    forall b | b in Buckets(m) ensures 0 <= b < BucketCount(w.end - w.start, w.interval) {
      var k :| k in m && k.bucket == b;
      BucketInRange(w.start, w.end, w.interval, m[k].time);
    }
    BelowCount(Buckets(m), BucketCount(w.end - w.start, w.interval));
  }

  // Walking the canonical map, in whatever order it comes

  ghost predicate Enumerates(m: Canonical, order: seq<Key>, values: seq<Sample>) {
    && |order| == |values|
    && (forall i :: 0 <= i < |order| ==> order[i] in m && values[i] == m[order[i]])
    && (forall k :: k in m ==> k in order)
  }

  ghost predicate IsLatest(m: Canonical, latest: Option<int>) {
    && (latest.None? <==> m == map[])
    && (latest.Some? ==>
          (exists k :: k in m && m[k].time == latest.value) && (forall k :: k in m ==> m[k].time <= latest.value))
  }

  datatype Tally = Tally(occupied: set<int>, devices: set<nat>, values: seq<Sample>, latest: Option<int>)

  /** What one walk over the canonical map has collected. */
  ghost predicate Tallied(m: Canonical, order: seq<Key>, t: Tally) {
    t.occupied == Buckets(m) && t.devices == Devices(m) && Enumerates(m, order, t.values) && IsLatest(m, t.latest)
  }

  function Visit(t: Tally, k: Key, s: Sample): Tally {
    Tally(t.occupied + {k.bucket}, t.devices + {k.device}, t.values + [s],
          if t.latest.None? || s.time > t.latest.value then Some(s.time) else t.latest)
  }

  lemma LatestAfter(seen: Canonical, k: Key, s: Sample, latest: Option<int>)
    requires k !in seen && IsLatest(seen, latest)
    ensures IsLatest(seen[k := s], if latest.None? || s.time > latest.value then Some(s.time) else latest)
  {
    var next := seen[k := s];
    assert k in next && next[k] == s;
    if latest.Some? && s.time <= latest.value {
      var x :| x in seen && seen[x].time == latest.value;
      assert next[x].time == latest.value;
    }
  }

  lemma VisitOneMore(seen: Canonical, order: seq<Key>, t: Tally, k: Key, s: Sample)
    requires k !in seen && Tallied(seen, order, t)
    ensures Tallied(seen[k := s], order + [k], Visit(t, k, s))
  {
    var next := seen[k := s];
    LatestAfter(seen, k, s, t.latest);
    assert forall x :: x in next <==> x in seen || x == k;
    assert Enumerates(next, order + [k], t.values + [s]);
  }

  method Gather(m: Canonical) returns (t: Tally, ghost order: seq<Key>)
    ensures t.occupied == Buckets(m) && t.devices == Devices(m) && IsLatest(m, t.latest)
    ensures Enumerates(m, order, t.values)
  {
    t, order := Tally({}, {}, [], None), [];
    var left := m.Keys;
    ghost var seen: Canonical := map[];
    while left != {}
      invariant seen == m - left && left <= m.Keys
      invariant Tallied(seen, order, t)
      decreases |left|
    {
      var k :| k in left;
      VisitOneMore(seen, order, t, k, m[k]);
      seen := seen[k := m[k]];
      t, order, left := Visit(t, k, m[k]), order + [k], left - {k};
    }
    assert seen == m;
  }

  method Least(values: seq<Sample>, ghost m: Canonical, ghost order: seq<Key>) returns (v: real)
    requires values != [] && Enumerates(m, order, values)
    ensures IsLeast(m, v)
  {
    v := Number(values[0]);
    ghost var at := 0;
    var i := 1;
    while i < |values|
      invariant 1 <= i <= |values| && 0 <= at < i && v == Number(values[at])
      invariant forall j :: 0 <= j < i ==> v <= Number(values[j])
    {
      if Number(values[i]) < v {
        v, at := Number(values[i]), i;
      }
      i := i + 1;
    }
    assert Number(m[order[at]]) == v;
  }

  method Greatest(values: seq<Sample>, ghost m: Canonical, ghost order: seq<Key>) returns (v: real)
    requires values != [] && Enumerates(m, order, values)
    ensures IsGreatest(m, v)
  {
    v := Number(values[0]);
    ghost var at := 0;
    var i := 1;
    while i < |values|
      invariant 1 <= i <= |values| && 0 <= at < i && v == Number(values[at])
      invariant forall j :: 0 <= j < i ==> v >= Number(values[j])
    {
      if Number(values[i]) > v {
        v, at := Number(values[i]), i;
      }
      i := i + 1;
    }
    assert Number(m[order[at]]) == v;
  }

  // The mean of bucket means

  predicate Before(a: Key, b: Key) { a.bucket < b.bucket || (a.bucket == b.bucket && a.device <= b.device) }

  ghost predicate Sorted(keys: seq<Key>) {
    forall i, j :: 0 <= i < j < |keys| ==> Before(keys[i], keys[j]) && keys[i] != keys[j]
  }

  lemma {:induction false} HasFirst(s: set<Key>)
    requires s != {}
    ensures exists k :: k in s && forall x :: x in s ==> Before(k, x)
  {
    var k :| k in s;
    var rest := s - {k};
    if rest == {} {
      forall x | x in s ensures Before(k, x) {
        assert x == k || x in rest;
      }
    } else {
      HasFirst(rest);
      var f :| f in rest && forall x :: x in rest ==> Before(f, x);
      var first := if Before(k, f) then k else f;
      assert forall x :: x in s ==> x == k || x in rest;
      assert forall x :: x in s ==> Before(first, x);
    }
  }

  method SortKeys(s: set<Key>) returns (keys: seq<Key>)
    ensures Sorted(keys) && KeysIn(keys) == s
  {
    keys := [];
    var left := s;
    while left != {}
      invariant left <= s && Sorted(keys)
      invariant forall k :: k in keys <==> k in s && k !in left
      invariant forall i, k :: 0 <= i < |keys| && k in left ==> Before(keys[i], k)
      decreases |left|
    {
      HasFirst(left);
      var k :| k in left && forall x :: x in left ==> Before(k, x);
      assert k !in keys;
      keys, left := keys + [k], left - {k};
    }
  }

  ghost function KeysIn(keys: seq<Key>): set<Key> { set k | k in keys }

  /** A bucket is a stretch of the sorted keys: nothing before `start`, nothing from `end` on. */
  ghost predicate IsStretch(keys: seq<Key>, start: nat, end: nat) {
    && start < end <= |keys|
    && (forall i :: 0 <= i < start ==> keys[i].bucket < keys[start].bucket)
    && (forall i :: start <= i < end ==> keys[i].bucket == keys[start].bucket)
    && (forall i :: end <= i < |keys| ==> keys[start].bucket < keys[i].bucket)
  }

  /** Sorted keys change bucket only where their neighbours do. */
  lemma StretchEnds(keys: seq<Key>, start: nat, end: nat)
    requires Sorted(keys) && start < end <= |keys| && keys[end - 1].bucket == keys[start].bucket
    requires start == 0 || keys[start - 1].bucket < keys[start].bucket
    requires end == |keys| || keys[end].bucket != keys[start].bucket
    ensures IsStretch(keys, start, end)
    ensures end == |keys| || keys[end - 1].bucket < keys[end].bucket
  {
    forall i | 0 <= i < start ensures keys[i].bucket < keys[start].bucket {
      assert i < start - 1 ==> Before(keys[i], keys[start - 1]);
    }
    forall i | start <= i < end ensures keys[i].bucket == keys[start].bucket {
      assert start < i ==> Before(keys[start], keys[i]);
      assert i < end - 1 ==> Before(keys[i], keys[end - 1]);
    }
    forall i | end <= i < |keys| ensures keys[start].bucket < keys[i].bucket {
      assert Before(keys[start], keys[end]);
      assert end < i ==> Before(keys[end], keys[i]);
    }
  }

  ghost predicate Known(m: Canonical, keys: seq<Key>) { forall i :: 0 <= i < |keys| ==> keys[i] in m }

  /** The values seen so far of the bucket that starts at `start`. */
  ghost function PartOf(m: Canonical, keys: seq<Key>, start: nat, end: nat): map<Key, real>
    requires start <= end <= |keys| && Known(m, keys)
    decreases end
  {
    if end == start then map[] else PartOf(m, keys, start, end - 1)[keys[end - 1] := Number(m[keys[end - 1]])]
  }

  lemma {:induction false} PartHolds(m: Canonical, keys: seq<Key>, start: nat, end: nat)
    requires start <= end <= |keys| && Known(m, keys)
    ensures forall k :: k in PartOf(m, keys, start, end) <==> k in keys[start..end]
    ensures forall k :: k in PartOf(m, keys, start, end) ==> k in m && PartOf(m, keys, start, end)[k] == Number(m[k])
    decreases end
  {
    if start < end {
      PartHolds(m, keys, start, end - 1);
      assert keys[start..end] == keys[start..end - 1] + [keys[end - 1]];
    }
  }

  lemma StretchIsBucket(m: Canonical, keys: seq<Key>, start: nat, end: nat)
    requires KeysIn(keys) == m.Keys && Known(m, keys) && IsStretch(keys, start, end)
    ensures PartOf(m, keys, start, end) == BucketValues(m, keys[start].bucket)
    ensures keys[start].bucket in Buckets(m)
  {
    var b := keys[start].bucket;
    PartHolds(m, keys, start, end);
    forall k | k in m && k.bucket == b ensures k in keys[start..end] {
      assert k in KeysIn(keys);
      var i :| 0 <= i < |keys| && keys[i] == k;
      assert keys[start..end][i - start] == k;
    }
  }

  ghost predicate Ordered(m: Canonical, keys: seq<Key>) { Sorted(keys) && KeysIn(keys) == m.Keys }

  /** The first key of a bucket. */
  ghost predicate Opens(keys: seq<Key>, start: nat) {
    start == 0 || start >= |keys| || keys[start - 1].bucket < keys[start].bucket
  }

  /** The numbers of a stretch of keys, added one by one. */
  ghost function RangeSum(m: Canonical, keys: seq<Key>, start: nat, end: nat): real
    requires start <= end <= |keys| && Known(m, keys)
    decreases end
  {
    if end == start then 0.0 else RangeSum(m, keys, start, end - 1) + Number(m[keys[end - 1]])
  }

  lemma NotYet(m: Canonical, keys: seq<Key>, start: nat, end: nat)
    requires Sorted(keys) && start <= end < |keys| && Known(m, keys)
    ensures keys[end] !in PartOf(m, keys, start, end)
  {
    PartHolds(m, keys, start, end);
  }

  lemma OneMoreValue(v: map<Key, real>, k: Key, x: real)
    requires k !in v
    ensures Total(v[k := x]) == Total(v) + x && |v[k := x]| == |v| + 1
  {
    TotalAdds(v, k, x);
  }

  lemma {:induction false} RangeSumIsTotal(m: Canonical, keys: seq<Key>, start: nat, end: nat)
    requires Sorted(keys) && start <= end <= |keys| && Known(m, keys)
    ensures RangeSum(m, keys, start, end) == Total(PartOf(m, keys, start, end))
    ensures |PartOf(m, keys, start, end)| == end - start
    decreases end
  {
    if start < end {
      RangeSumIsTotal(m, keys, start, end - 1);
      NotYet(m, keys, start, end - 1);
      OneMoreValue(PartOf(m, keys, start, end - 1), keys[end - 1], Number(m[keys[end - 1]]));
    }
  }

  lemma AllKnown(m: Canonical, keys: seq<Key>)
    requires Ordered(m, keys)
    ensures Known(m, keys)
  {
    forall i | 0 <= i < |keys| ensures keys[i] in m {
      assert keys[i] in KeysIn(keys);
    }
  }

  lemma StretchTotal(m: Canonical, keys: seq<Key>, start: nat, end: nat)
    requires Ordered(m, keys) && Opens(keys, start) && start < end <= |keys|
    requires keys[end - 1].bucket == keys[start].bucket
    requires end == |keys| || keys[end].bucket != keys[start].bucket
    requires Known(m, keys)
    ensures IsStretch(keys, start, end) && Opens(keys, end) && keys[start].bucket in Buckets(m)
    ensures var v := BucketValues(m, keys[start].bucket);
            v != map[] && RangeSum(m, keys, start, end) == Total(v) && end - start == |v|
  {
    StretchEnds(keys, start, end);
    StretchIsBucket(m, keys, start, end);
    RangeSumIsTotal(m, keys, start, end);
  }

  /** One stretch of equal buckets, added up. */
  method StretchSum(m: Canonical, keys: seq<Key>, start: nat) returns (sum: real, end: nat)
    requires Known(m, keys)
    requires start < |keys|
    ensures start < end <= |keys| && keys[end - 1].bucket == keys[start].bucket
    ensures end == |keys| || keys[end].bucket != keys[start].bucket
    ensures sum == RangeSum(m, keys, start, end)
  {
    sum, end := 0.0, start;
    while end < |keys| && keys[end].bucket == keys[start].bucket
      invariant start <= end <= |keys| && (end == start || keys[end - 1].bucket == keys[start].bucket)
      invariant sum == RangeSum(m, keys, start, end)
      decreases |keys| - end
    {
      sum := sum + Number(m[keys[end]]);
      end := end + 1;
    }
  }

  method Divide<T(!new)>(sum: real, n: nat, ghost v: map<T, real>) returns (q: real)
    requires v != map[] && sum == Total(v) && n == |v|
    ensures q == Average(v)
  {
    q := sum / (n as real);
  }

  /** The bucket means of the keys before `start`. */
  ghost function MeansBefore(m: Canonical, keys: seq<Key>, start: nat): map<int, real>
    requires start <= |keys| && Known(m, keys)
  {
    if start == 0 then map[]
    else
      var b := keys[start - 1].bucket;
      assert b in Buckets(m);
      MeansBefore(m, keys, start - 1)[b := BucketMean(m, b)]
  }

  lemma {:induction false} MeansHold(m: Canonical, keys: seq<Key>, start: nat)
    requires start <= |keys| && Known(m, keys)
    ensures forall i :: 0 <= i < start ==> keys[i].bucket in MeansBefore(m, keys, start)
    ensures forall b :: b in MeansBefore(m, keys, start) ==>
              b in Buckets(m) && MeansBefore(m, keys, start)[b] == BucketMean(m, b)
  {
    if start > 0 {
      MeansHold(m, keys, start - 1);
    }
  }

  lemma {:induction false} FreshBucket(m: Canonical, keys: seq<Key>, start: nat, b: int)
    requires start <= |keys| && Known(m, keys) && forall i :: 0 <= i < start ==> keys[i].bucket < b
    ensures b !in MeansBefore(m, keys, start)
  {
    if start > 0 {
      FreshBucket(m, keys, start - 1, b);
    }
  }

  /** Within a bucket nothing new is added after its first key. */
  lemma {:induction false} SameBucket(m: Canonical, keys: seq<Key>, start: nat, end: nat)
    requires start < end <= |keys| && Known(m, keys)
    requires forall i :: start <= i < end ==> keys[i].bucket == keys[start].bucket
    ensures MeansBefore(m, keys, end) == MeansBefore(m, keys, start + 1)
  {
    if start + 1 < end {
      SameBucket(m, keys, start, end - 1);
      assert keys[end - 1].bucket == keys[start].bucket;
    }
  }

  lemma MeansGrow(m: Canonical, keys: seq<Key>, start: nat, end: nat)
    requires IsStretch(keys, start, end) && Known(m, keys) && keys[start].bucket in Buckets(m)
    ensures var now, next := MeansBefore(m, keys, start), MeansBefore(m, keys, end);
            Total(next) == Total(now) + BucketMean(m, keys[start].bucket) && |next| == |now| + 1
  {
    var b := keys[start].bucket;
    SameBucket(m, keys, start, end);
    FreshBucket(m, keys, start, b);
    TotalAdds(MeansBefore(m, keys, start), b, BucketMean(m, b));
  }

  lemma AllBucketsMet(m: Canonical, keys: seq<Key>)
    requires KeysIn(keys) == m.Keys && Known(m, keys)
    ensures forall b :: b in Buckets(m) ==> b in MeansBefore(m, keys, |keys|)
  {
    forall b | b in Buckets(m) ensures b in MeansBefore(m, keys, |keys|) {
      var k :| k in m && k.bucket == b;
      assert k in KeysIn(keys);
      var i :| 0 <= i < |keys| && keys[i] == k;
      MeansHold(m, keys, |keys|);
    }
  }

  lemma SameMeans(m: Canonical, v: map<int, real>)
    requires forall b :: b in Buckets(m) ==> b in v
    requires forall b :: b in v ==> b in Buckets(m) && v[b] == BucketMean(m, b)
    ensures v == BucketMeans(m)
  {
    var w := BucketMeans(m);
    forall b | b in v ensures b in w && w[b] == v[b] {
    }
    forall b | b in w ensures b in v {
      assert b in Buckets(m);
    }
  }

  lemma AllMeans(m: Canonical, keys: seq<Key>)
    requires KeysIn(keys) == m.Keys && Known(m, keys)
    ensures MeansBefore(m, keys, |keys|) == BucketMeans(m)
  {
    AllBucketsMet(m, keys);
    MeansHold(m, keys, |keys|);
    SameMeans(m, MeansBefore(m, keys, |keys|));
  }

  /** The means of the buckets before `start`, added up and counted. */
  ghost predicate Averaging(m: Canonical, keys: seq<Key>, start: nat, sum: real, buckets: nat) {
    && Ordered(m, keys) && start <= |keys| && Opens(keys, start) && Known(m, keys)
    && sum == Total(MeansBefore(m, keys, start)) && buckets == |MeansBefore(m, keys, start)|
  }

  lemma NothingAveraged(m: Canonical, keys: seq<Key>)
    requires Ordered(m, keys)
    ensures Averaging(m, keys, 0, 0.0, 0)
  {
    AllKnown(m, keys);
  }

  method AddBucket(m: Canonical, keys: seq<Key>, start: nat, sum: real, buckets: nat)
    returns (next: real, count: nat, end: nat)
    requires start < |keys| && Averaging(m, keys, start, sum, buckets)
    ensures start < end && Averaging(m, keys, end, next, count)
  {
    var inBucket;
    inBucket, end := StretchSum(m, keys, start);
    StretchTotal(m, keys, start, end);
    var mean := Divide(inBucket, end - start, BucketValues(m, keys[start].bucket));
    MeansGrow(m, keys, start, end);
    next, count := sum + mean, buckets + 1;
  }

  lemma AveragedAll(m: Canonical, keys: seq<Key>, sum: real, buckets: nat)
    requires m != map[] && Averaging(m, keys, |keys|, sum, buckets)
    ensures BucketMeans(m) != map[] && sum == Total(BucketMeans(m)) && buckets == |BucketMeans(m)|
  {
    AllMeans(m, keys);
    MeansExist(m);
  }

  method SumBuckets(m: Canonical, keys: seq<Key>) returns (temporalSum: real, buckets: nat)
    requires Averaging(m, keys, 0, 0.0, 0)
    ensures Averaging(m, keys, |keys|, temporalSum, buckets)
  {
    temporalSum, buckets := 0.0, 0;
    var start := 0;
    while start < |keys|
      invariant Averaging(m, keys, start, temporalSum, buckets)
      decreases |keys| - start
    {
      temporalSum, buckets, start := AddBucket(m, keys, start, temporalSum, buckets);
    }
  }

  method MeanOfBuckets(m: Canonical) returns (v: real)
    requires m != map[]
    ensures BucketMeans(m) != map[] && v == MeanOf(m)
  {
    var keys := SortKeys(m.Keys);
    NothingAveraged(m, keys);
    var temporalSum, buckets := SumBuckets(m, keys);
    AveragedAll(m, keys, temporalSum, buckets);
    v := Divide(temporalSum, buckets, BucketMeans(m));
  }

  // The average of each device's last sample

  ghost predicate IsNewestByDevice(m: Canonical, cutoff: int, l: map<nat, Sample>) {
    && (forall d :: d in l ==> l[d].device == d && l[d].time >= cutoff && exists k :: k in m && m[k] == l[d])
    && (forall k :: k in m && m[k].time >= cutoff ==> m[k].device in l && NoNewer(m[k], l[m[k].device]))
  }

  ghost predicate NewestOf(values: seq<Sample>, cutoff: int, l: map<nat, Sample>) {
    && (forall d :: d in l ==> l[d].device == d && l[d].time >= cutoff && l[d] in values)
    && (forall x :: x in values && x.time >= cutoff ==> x.device in l && NoNewer(x, l[x.device]))
  }

  method NewestByDevice(values: seq<Sample>, cutoff: int) returns (l: map<nat, Sample>)
    ensures NewestOf(values, cutoff, l)
  {
    l := map[];
    var i := 0;
    while i < |values|
      invariant 0 <= i <= |values|
      invariant NewestOf(values[..i], cutoff, l)
    {
      var s := values[i];
      assert values[..i + 1] == values[..i] + [s];
      if s.time >= cutoff {
        if s.device !in l || s.time > l[s.device].time
           || (s.time == l[s.device].time && s.sequence > l[s.device].sequence) {
          l := l[s.device := s];
        }
      }
      i := i + 1;
    }
    assert values[..|values|] == values;
  }

  lemma NewestOfMap(m: Canonical, order: seq<Key>, values: seq<Sample>, cutoff: int, l: map<nat, Sample>)
    requires Enumerates(m, order, values) && NewestOf(values, cutoff, l)
    ensures IsNewestByDevice(m, cutoff, l)
  {
    forall d | d in l ensures exists k :: k in m && m[k] == l[d] {
      var i :| 0 <= i < |values| && values[i] == l[d];
      assert order[i] in m && m[order[i]] == l[d];
    }
    forall k | k in m && m[k].time >= cutoff ensures m[k].device in l && NoNewer(m[k], l[m[k].device]) {
      var i :| 0 <= i < |order| && order[i] == k;
      assert values[i] in values;
    }
  }

  /** Every sample of the map sits under its own device and bucket. */
  ghost predicate Keyed(w: Window, m: Canonical)
    requires w.interval > 0
  {
    forall k :: k in m ==> KeyOf(w, m[k]) == k
  }

  lemma NewestAgree(w: Window, m: Canonical, cutoff: int, a: map<nat, Sample>, b: map<nat, Sample>)
    requires w.interval > 0 && Keyed(w, m)
    requires IsNewestByDevice(m, cutoff, a) && IsNewestByDevice(m, cutoff, b)
    ensures forall d :: d in a ==> d in b && a[d] == b[d]
  {
    forall d | d in a ensures d in b && a[d] == b[d] {
      var k :| k in m && m[k] == a[d];
      var j :| j in m && m[j] == b[d];
      assert KeyOf(w, m[k]) == KeyOf(w, m[j]);
    }
  }

  /** A canonical map holds one sample per device and instant, so the newest ones are determined. */
  lemma NewestIsUnique(w: Window, samples: seq<Sample>, m: Canonical, cutoff: int, a: map<nat, Sample>,
                       b: map<nat, Sample>)
    requires w.interval > 0 && IsCanonical(w, samples, m)
    requires IsNewestByDevice(m, cutoff, a) && IsNewestByDevice(m, cutoff, b)
    ensures a == b
  {
    NewestAgree(w, m, cutoff, a, b);
    NewestAgree(w, m, cutoff, b, a);
  }

  ghost function Numbers(l: map<nat, Sample>): map<nat, real> { map d | d in l :: Number(l[d]) }

  method SumDevices(l: map<nat, Sample>) returns (sum: real)
    ensures sum == Total(Numbers(l)) && |Numbers(l)| == |l|
  {
    sum := 0.0;
    var left := l.Keys;
    ghost var seen: map<nat, real> := map[];
    while left != {}
      invariant left <= l.Keys && seen.Keys == l.Keys - left && forall d :: d in seen ==> seen[d] == Number(l[d])
      invariant sum == Total(seen)
      decreases |left|
    {
      var d :| d in left;
      TotalAdds(seen, d, Number(l[d]));
      seen := seen[d := Number(l[d])];
      sum, left := sum + Number(l[d]), left - {d};
    }
    assert seen == Numbers(l);
    assert Numbers(l).Keys == l.Keys;
  }

  // The whole evaluation

  /** What the aggregate of the canonical samples is, if there is one. */
  ghost predicate IsAggregate(w: Window, m: Canonical, v: Option<real>) {
    if m == map[] then v.None?
    else
      match w.aggregation
      case Min => v.Some? && IsLeast(m, v.value)
      case Max => v.Some? && IsGreatest(m, v.value)
      case Mean => BucketMeans(m) != map[] && v == Some(MeanOf(m))
      case Last =>
        exists l :: IsNewestByDevice(m, w.end - w.cadence, l)
                    && (if Numbers(l) == map[] then v.None? else v == Some(Average(Numbers(l))))
      case Unsupported => v.None?
  }

  method Aggregate(w: Window, m: Canonical, values: seq<Sample>, ghost order: seq<Key>) returns (v: Option<real>)
    requires Enumerates(m, order, values)
    ensures IsAggregate(w, m, v)
  {
    if values == [] {
      NothingThere(m, order, values);
      return None;
    }
    assert order[0] in m;
    match w.aggregation {
      case Min =>
        var least := Least(values, m, order);
        v := Some(least);
      case Max =>
        var greatest := Greatest(values, m, order);
        v := Some(greatest);
      case Mean =>
        var mean := MeanOfBuckets(m);
        v := Some(mean);
      case Last =>
        v := AverageOfLast(w, m, values, order);
      case Unsupported =>
        v := None;
    }
  }

  lemma NothingThere(m: Canonical, order: seq<Key>, values: seq<Sample>)
    requires Enumerates(m, order, values) && values == []
    ensures m == map[]
  {
    assert forall k :: k !in m;
  }

  method AverageOfLast(w: Window, m: Canonical, values: seq<Sample>, ghost order: seq<Key>) returns (v: Option<real>)
    requires Enumerates(m, order, values)
    ensures exists l :: IsNewestByDevice(m, w.end - w.cadence, l)
                        && (if Numbers(l) == map[] then v.None? else v == Some(Average(Numbers(l))))
  {
    var l := NewestByDevice(values, w.end - w.cadence);
    NewestOfMap(m, order, values, w.end - w.cadence, l);
    var sum := SumDevices(l);
    if l == map[] {
      assert Numbers(l) == map[];
      v := None;
    } else {
      assert Numbers(l) != map[] by {
        var d :| d in l;
        assert d in Numbers(l);
      }
      var q := Divide(sum, |l|, Numbers(l));
      v := Some(q);
    }
  }

  lemma AggregateIsUnique(w: Window, samples: seq<Sample>, m: Canonical, a: Option<real>, b: Option<real>)
    requires w.interval > 0 && IsCanonical(w, samples, m) && IsAggregate(w, m, a) && IsAggregate(w, m, b)
    ensures a == b
  {
    if m != map[] && w.aggregation == Last {
      var cutoff := w.end - w.cadence;
      var x :| IsNewestByDevice(m, cutoff, x)
               && (if Numbers(x) == map[] then a.None? else a == Some(Average(Numbers(x))));
      var y :| IsNewestByDevice(m, cutoff, y)
               && (if Numbers(y) == map[] then b.None? else b == Some(Average(Numbers(y))));
      NewestIsUnique(w, samples, m, cutoff, x, y);
    }
  }

  function Coverage(occupied: nat, expected: nat): real
    requires expected > 0
  {
    var ratio := occupied as real / expected as real;
    if ratio < 1.0 then ratio else 1.0
  }

  predicate Covered(w: Window, r: Result) {
    !(r.coverage < w.minimumCoverage) && !(w.aggregation != Last && r.occupied < w.minimumPoints)
  }

  predicate Stale(w: Window, r: Result) {
    w.maximumAge > 0 && r.latest.Some? && w.end - r.latest.value > w.maximumAge
  }

  /** What the canonical samples say about a usable window. */
  ghost predicate IsResult(w: Window, m: Canonical, r: Result)
    requires Usable(w)
  {
    && r.expected == BucketCount(w.end - w.start, w.interval) && r.points == |m|
    && r.occupied == |Buckets(m)| && r.devices == |Devices(m)| && IsLatest(m, r.latest)
    && r.expected > 0 && r.coverage == Coverage(r.occupied, r.expected)
    && (!Covered(w, r) ==> r.quality == InsufficientData && r.value == 0.0)
    && (Covered(w, r) ==> exists v :: IsAggregate(w, m, v) && Judged(w, r, v))
  }

  predicate Judged(w: Window, r: Result, v: Option<real>) {
    match v
    case None => r.quality == InsufficientData && r.value == 0.0
    case Some(x) => r.value == x && r.quality == (if Stale(w, r) then StaleData else Sufficient)
  }

  lemma WindowHasBuckets(window: int, interval: int)
    requires window > 0 && interval > 0
    ensures BucketCount(window, interval) > 0
  {
    assert window + interval - 1 >= interval;
  }

  /** Coverage first, then the aggregate and its age. */
  method Assess(w: Window, canonical: Canonical) returns (r: Result)
    requires Usable(w)
    ensures IsResult(w, canonical, r)
  {
    WindowHasBuckets(w.end - w.start, w.interval);
    var expected := BucketCount(w.end - w.start, w.interval);
    r := Result(InsufficientData, 0.0, 0.0, expected, 0, |canonical|, 0, None);
    var t;
    ghost var order;
    t, order := Gather(canonical);
    r := r.(occupied := |t.occupied|, devices := |t.devices|, latest := t.latest);
    r := r.(coverage := Coverage(r.occupied, expected));
    if !Covered(w, r) {
      return;
    }
    var value := Aggregate(w, canonical, t.values, order);
    if value.Some? {
      r := r.(value := value.value);
      r := r.(quality := if Stale(w, r) then StaleData else Sufficient);
    }
    assert IsAggregate(w, canonical, value) && Judged(w, r, value);
  }

  /** One window: its canonical samples, and what they say. */
  method EvaluateSamples(w: Window, samples: seq<Sample>) returns (r: Result, ghost m: Canonical)
    ensures !Usable(w) ==>
              r.quality == InsufficientData && r.points == 0 && r.expected == BucketCount(w.end - w.start, w.interval)
    ensures Usable(w) ==> IsCanonical(w, samples, m) && IsResult(w, m, r)
  {
    var expected := BucketCount(w.end - w.start, w.interval);
    r, m := Result(InsufficientData, 0.0, 0.0, expected, 0, 0, 0, None), map[];
    if expected == 0 || w.interval <= 0 || w.end <= w.start {
      assert !Usable(w) by {
        if Usable(w) {
          WindowHasBuckets(w.end - w.start, w.interval);
        }
      }
      return;
    }
    var canonical := Canonicalise(w, samples);
    m := canonical;
    r := Assess(w, canonical);
  }

  lemma LatestIsUnique(m: Canonical, a: Option<int>, b: Option<int>)
    requires IsLatest(m, a) && IsLatest(m, b)
    ensures a == b
  {
  }

  lemma ResultIsUnique(w: Window, samples: seq<Sample>, m: Canonical, a: Result, b: Result)
    requires Usable(w) && IsCanonical(w, samples, m) && IsResult(w, m, a) && IsResult(w, m, b)
    ensures a == b
  {
    LatestIsUnique(m, a.latest, b.latest);
    assert Covered(w, a) == Covered(w, b);
    if Covered(w, a) {
      var x :| IsAggregate(w, m, x) && Judged(w, a, x);
      var y :| IsAggregate(w, m, y) && Judged(w, b, y);
      AggregateIsUnique(w, samples, m, x, y);
    }
  }

  /** The samples alone determine the result. */
  lemma ResultIsDetermined(w: Window, samples: seq<Sample>, m: Canonical, n: Canonical, a: Result, b: Result)
    requires Usable(w)
    requires IsCanonical(w, samples, m) && IsResult(w, m, a) && IsCanonical(w, samples, n) && IsResult(w, n, b)
    ensures a == b
  {
    CanonicalIsDetermined(w, samples, m, n);
    ResultIsUnique(w, samples, m, a, b);
  }

  /** Without ties the result does not depend on the order of the samples, nor on any of them arriving twice. */
  lemma OrderDoesNotMatter(w: Window, samples: seq<Sample>, again: seq<Sample>, m: Canonical, n: Canonical, a: Result,
                           b: Result)
    requires Usable(w) && NoTie(w, samples) && forall x :: x in samples <==> x in again
    requires IsCanonical(w, samples, m) && IsResult(w, m, a) && IsCanonical(w, again, n) && IsResult(w, n, b)
    ensures a == b
  {
    CanonicalIsUnique(w, samples, again, m, n);
    ResultIsUnique(w, samples, m, a, b);
  }

  // A tie in the result

  lemma OneTotal<T(!new)>(k: T, x: real)
    ensures map[k := x] != map[] && Total(map[k := x]) == x && Average(map[k := x]) == x
  {
    assert k in map[k := x];
    TotalSplits(map[k := x], k);
    assert map[k := x] - {k} == map[];
  }

  lemma OneMean(k: Key, s: Sample)
    ensures BucketMeans(map[k := s]) == map[k.bucket := Number(s)]
  {
    var m := map[k := s];
    assert k in m && k.bucket in Buckets(m);
    assert BucketValues(m, k.bucket) == map[k := Number(s)];
    OneTotal(k, Number(s));
  }

  /** The aggregate counts this sample: only the last-value aggregate looks at its age. */
  predicate Aggregates(w: Window, s: Sample) {
    match w.aggregation
    case Min | Max | Mean => true
    case Last => s.time >= w.end - w.cadence
    case Unsupported => false
  }

  lemma OneLast(w: Window, k: Key, s: Sample, l: map<nat, Sample>)
    requires w.interval > 0 && KeyOf(w, s) == k && IsNewestByDevice(map[k := s], w.end - w.cadence, l)
    ensures if s.time >= w.end - w.cadence then Numbers(l) == map[s.device := Number(s)] else Numbers(l) == map[]
  {
    var m := map[k := s];
    assert k in m && m[k] == s;
    forall d | d in l ensures d == s.device && l[d] == s {
      var x :| x in m && m[x] == l[d];
    }
  }

  /** With one canonical sample every aggregate that counts it is its value. */
  lemma OneAggregate(w: Window, k: Key, s: Sample, v: Option<real>)
    requires w.interval > 0 && KeyOf(w, s) == k && IsAggregate(w, map[k := s], v)
    ensures v == if Aggregates(w, s) then Some(Number(s)) else None
  {
    var m := map[k := s];
    assert k in m;
    match w.aggregation
    case Min =>
    case Max =>
    case Unsupported =>
    case Mean =>
      OneMean(k, s);
      OneTotal(k.bucket, Number(s));
    case Last =>
      var l :| IsNewestByDevice(m, w.end - w.cadence, l)
               && (if Numbers(l) == map[] then v.None? else v == Some(Average(Numbers(l))));
      OneLast(w, k, s, l);
      OneTotal(s.device, Number(s));
  }

  lemma OneResult(w: Window, x: Sample, y: Sample, m: Canonical, a: Result)
    requires Usable(w) && Tied(w, x, y) && IsCanonical(w, [x, y], m) && IsResult(w, m, a)
    ensures a.occupied == 1 && a.coverage == Coverage(1, BucketCount(w.end - w.start, w.interval))
    ensures m == map[KeyOf(w, x) := x] && a.latest == Some(x.time)
    ensures a.value == (if Covered(w, a) && Aggregates(w, x) then Number(x) else 0.0)
    ensures a.quality == (if !Covered(w, a) || !Aggregates(w, x) then InsufficientData
                          else if Stale(w, a) then StaleData else Sufficient)
  {
    OnlyTheFirst(w, x, y, m);
    var k := KeyOf(w, x);
    assert Buckets(m) == {k.bucket} && k in m;
    if Covered(w, a) {
      var v :| IsAggregate(w, m, v) && Judged(w, a, v);
      OneAggregate(w, k, x, v);
    }
  }

  /** Two readings of one device for one instant and sequence number. */
  predicate Tied(w: Window, x: Sample, y: Sample)
    requires w.interval > 0
  {
    Eligible(w, x) && Eligible(w, y) && KeyOf(w, x) == KeyOf(w, y) && x.time == y.time && x.sequence == y.sequence
  }

  lemma OneDevice(k: Key, s: Sample)
    ensures |map[k := s]| == 1 && Devices(map[k := s]) == {k.device}
  {
    assert k in map[k := s];
  }

  /** For every window and any two tied readings: their order changes the result if and only if the window
      is covered, its aggregate counts the readings and their values differ. */
  lemma TieChangesResultExactly(w: Window, x: Sample, y: Sample, m: Canonical, n: Canonical, a: Result, b: Result)
    requires Usable(w) && Tied(w, x, y)
    requires IsCanonical(w, [x, y], m) && IsResult(w, m, a) && IsCanonical(w, [y, x], n) && IsResult(w, n, b)
    ensures a != b <==> Covered(w, a) && Aggregates(w, x) && Number(x) != Number(y)
  {
    OneResult(w, x, y, m, a);
    OneResult(w, y, x, n, b);
    OneDevice(KeyOf(w, x), x);
    OneDevice(KeyOf(w, y), y);
  }

  /** Without thresholds the first of two tied readings is the result. */
  lemma FirstIsTheResult(w: Window, x: Sample, y: Sample, m: Canonical, a: Result)
    requires Usable(w) && Tied(w, x, y) && IsCanonical(w, [x, y], m) && IsResult(w, m, a)
    requires w.minimumCoverage <= 0.0 && w.minimumPoints <= 0 && w.maximumAge <= 0 && w.aggregation == Min
    ensures a.quality == Sufficient && a.value == Number(x)
  {
    OneResult(w, x, y, m, a);
    CoverageIsPositive(1, a.expected);
  }

  lemma CoverageIsPositive(occupied: nat, expected: nat)
    requires expected > 0
    ensures Coverage(occupied, expected) >= 0.0
  {
  }

  const MINUTE := Window(0, 60, None, 60, 60, 0.0, 0, 0, Min)
  const ONE := Sample(5, 1, Finite(1.0), 7)
  const TWO := Sample(5, 1, Finite(2.0), 7)

  lemma ReadingsTie()
    ensures Usable(MINUTE) && Tied(MINUTE, ONE, TWO) && Tied(MINUTE, TWO, ONE)
  {
  }

  /** The minimum of readings 1 and 2 for one instant is whichever came first. */
  lemma MinimumDependsOnOrder(m: Canonical, n: Canonical, a: Result, b: Result)
    requires Usable(MINUTE) && IsCanonical(MINUTE, [ONE, TWO], m) && IsResult(MINUTE, m, a)
    requires IsCanonical(MINUTE, [TWO, ONE], n) && IsResult(MINUTE, n, b)
    ensures a.quality == Sufficient && a.value == 1.0 && b.quality == Sufficient && b.value == 2.0
  {
    ReadingsTie();
    FirstIsTheResult(MINUTE, ONE, TWO, m, a);
    FirstIsTheResult(MINUTE, TWO, ONE, n, b);
  }
}
