/**
 The Telegram rate limiter: one atomic script over a provider-wide token bucket and one bucket per
 destination.  Tokens are real numbers and the clock never runs backwards.
 */
module TelegramLimiter {
  import opened Wrappers

  // ---------------------------------------------------------------- the script

  datatype Key = Global | Destination(id: nat)

  datatype Config = Config(globalRate: real, globalBurst: nat, destinationRate: real, destinationBurst: nat)
  {
    /** What `NewRedisLimiter` accepts. */
    predicate Valid() { globalRate > 0.0 && globalBurst >= 1 && destinationRate > 0.0 && destinationBurst >= 1 }

    function Rate(key: Key): real { if key == Global then globalRate else destinationRate }

    function Burst(key: Key): real { if key == Global then globalBurst as real else destinationBurst as real }
  }

  datatype Entry = Entry(tokens: real, updatedAt: int, expiresAt: int)

  datatype Answer = Answer(allowed: bool, wait: int)

  function Min(a: real, b: real): real { if a <= b then a else b }

  function MaxInt(a: int, b: int): int { if a < b then b else a }

  function Ceil(x: real): (n: int)
    ensures (n - 1) as real < x <= n as real
  {
    if x == x.Floor as real then x.Floor else x.Floor + 1
  }

  /** Tokens earned in `ms` milliseconds. */
  function Earned(rate: real, ms: int): real { ms as real * rate / 1000.0 }

  /** A stored bucket counts only until it expires; with `keep` it never expires. */
  predicate Present(st: map<Key, Entry>, key: Key, now: int, keep: bool) {
    key in st && (keep || now < st[key].expiresAt)
  }

  /** Tokens a bucket holds at `now`, refilled since its last update and capped at the burst. */
  function Level(cfg: Config, st: map<Key, Entry>, key: Key, now: int, keep: bool): real {
    if !Present(st, key, now, keep) then cfg.Burst(key)
    else if now > st[key].updatedAt
      then Min(cfg.Burst(key), st[key].tokens + Earned(cfg.Rate(key), now - st[key].updatedAt))
    else st[key].tokens
  }

  function WaitFor(tokens: real, rate: real): int
    requires rate > 0.0
  {
    if tokens < 1.0 then Ceil((1.0 - tokens) * 1000.0 / rate) else 0
  }

  function TimeToLive(cfg: Config, key: Key): int
    requires cfg.Valid()
  {
    MaxInt(60000, Ceil(cfg.Burst(key) / cfg.Rate(key) * 2000.0))
  }

  function Persist(cfg: Config, st: map<Key, Entry>, key: Key, tokens: real, now: int): map<Key, Entry>
    requires cfg.Valid()
  {
    st[key := Entry(tokens, now, now + TimeToLive(cfg, key))]
  }

  function Ask(cfg: Config, st: map<Key, Entry>, dest: nat, now: int, keep: bool): Answer
    requires cfg.Valid()
  {
    var g := WaitFor(Level(cfg, st, Global, now, keep), cfg.globalRate);
    var d := WaitFor(Level(cfg, st, Destination(dest), now, keep), cfg.destinationRate);
    if g == 0 && d == 0 then Answer(true, 0) else Answer(false, MaxInt(g, d))
  }

  function After(cfg: Config, st: map<Key, Entry>, dest: nat, now: int, keep: bool): map<Key, Entry>
    requires cfg.Valid()
  {
    var spent := if Ask(cfg, st, dest, now, keep).allowed then 1.0 else 0.0;
    var g := Level(cfg, st, Global, now, keep) - spent;
    var d := Level(cfg, st, Destination(dest), now, keep) - spent;
    Persist(cfg, Persist(cfg, st, Global, g, now), Destination(dest), d, now)
  }

  // ---------------------------------------------------------------- the limiter object

  class RedisLimiter {
    const cfg: Config
    var entries: map<Key, Entry>

    constructor (cfg: Config)
      requires cfg.Valid()
      ensures this.cfg == cfg && entries == map[]
    {
      this.cfg := cfg;
      entries := map[];
    }

    /** The script as it runs: read both buckets, decide, take a token from both or from neither,
        write both back with their expiry. */
    method Eval(dest: nat, now: int) returns (answer: Answer)
      requires cfg.Valid()
      modifies this`entries
      ensures answer == Ask(cfg, old(entries), dest, now, false)
      ensures entries == After(cfg, old(entries), dest, now, false)
    {
      var globalTokens := Level(cfg, entries, Global, now, false);
      var globalWait := WaitFor(globalTokens, cfg.globalRate);
      var destinationTokens := Level(cfg, entries, Destination(dest), now, false);
      var destinationWait := WaitFor(destinationTokens, cfg.destinationRate);
      var allowed := globalWait == 0 && destinationWait == 0;
      if allowed {
        globalTokens := globalTokens - 1.0;
        destinationTokens := destinationTokens - 1.0;
      }
      entries := entries[Global := Entry(globalTokens, now, now + TimeToLive(cfg, Global))];
      entries := entries[Destination(dest) := Entry(destinationTokens, now, now + TimeToLive(cfg, Destination(dest)))];
      answer := if allowed then Answer(true, 0) else Answer(false, MaxInt(globalWait, destinationWait));
    }

    /** `WaitFor`: no error, or the milliseconds after which to try again, at least one. */
    method Acquire(dest: nat, now: int) returns (retryAfter: Option<int>)
      requires cfg.Valid()
      modifies this`entries
      ensures retryAfter.None? <==> Ask(cfg, old(entries), dest, now, false).allowed
      ensures retryAfter.Some? ==>
                retryAfter.value >= 1 && retryAfter.value == Ask(cfg, old(entries), dest, now, false).wait
      ensures entries == After(cfg, old(entries), dest, now, false)
    {
      var answer := Eval(dest, now);
      WaitIsPositive(Level(cfg, old(entries), Global, now, false), cfg.globalRate);
      WaitIsPositive(Level(cfg, old(entries), Destination(dest), now, false), cfg.destinationRate);
      if answer.allowed { return None; }
      return Some(if answer.wait < 1 then 1 else answer.wait);
    }
  }

  // ---------------------------------------------------------------- arithmetic

  lemma EarnedAdds(rate: real, a: int, b: int)
    ensures Earned(rate, a) + Earned(rate, b) == Earned(rate, a + b)
  {
  }

  lemma EarnedGrows(rate: real, a: int, b: int)
    requires rate > 0.0 && a <= b
    ensures Earned(rate, a) <= Earned(rate, b)
  {
    ProductGrows(a as real, b as real, rate);
  }

  lemma ProductGrows(x: real, y: real, r: real)
    requires x <= y && r > 0.0
    ensures x * r <= y * r
  {
  }

  /** The wait is the least whole number of milliseconds that earns the missing part of a token. */
  lemma WaitIsExact(tokens: real, rate: real, x: int)
    requires rate > 0.0 && x >= 0
    ensures tokens + Earned(rate, x) >= 1.0 <==> x >= WaitFor(tokens, rate)
  {
    if tokens < 1.0 {
      var missing := 1.0 - tokens;
      var q := missing * 1000.0 / rate;
      assert q * rate == missing * 1000.0;
      if x as real >= q {
        ProductGrows(q, x as real, rate);
      } else {
        StrictProductGrows(x as real, q, rate);
      }
    } else {
      EarnedGrows(rate, 0, x);
    }
  }

  lemma StrictProductGrows(x: real, y: real, r: real)
    requires x < y && r > 0.0
    ensures x * r < y * r
  {
  }

  lemma WaitIsPositive(tokens: real, rate: real)
    requires rate > 0.0
    ensures WaitFor(tokens, rate) >= 0 && (WaitFor(tokens, rate) == 0 <==> tokens >= 1.0)
  {
    if tokens < 1.0 {
      var missing := 1.0 - tokens;
      var q := missing * 1000.0 / rate;
      assert q * rate == missing * 1000.0;
      if q <= 0.0 { ProductGrows(q, 0.0, rate); }
    }
  }

  // ---------------------------------------------------------------- runs

  datatype Call = Call(dest: nat, now: int)

  ghost predicate Ordered(calls: seq<Call>) { forall i, j :: 0 <= i < j < |calls| ==> calls[i].now <= calls[j].now }

  /** Buckets hold between nothing and their burst. */
  ghost predicate Sane(cfg: Config, st: map<Key, Entry>) {
    forall k :: k in st ==> 0.0 <= st[k].tokens <= cfg.Burst(k) && st[k].expiresAt == st[k].updatedAt + TimeTo(cfg, k)
  }

  ghost function TimeTo(cfg: Config, k: Key): int { if cfg.Valid() then TimeToLive(cfg, k) else 0 }

  ghost predicate Before(st: map<Key, Entry>, now: int) { forall k :: k in st ==> st[k].updatedAt <= now }

  function StateAfter(cfg: Config, st: map<Key, Entry>, calls: seq<Call>, keep: bool): map<Key, Entry>
    requires cfg.Valid()
    decreases |calls|
  {
    if calls == [] then st
    else StateAfter(cfg, After(cfg, st, calls[0].dest, calls[0].now, keep), calls[1..], keep)
  }

  function Answers(cfg: Config, st: map<Key, Entry>, calls: seq<Call>, keep: bool): (r: seq<Answer>)
    requires cfg.Valid()
    ensures |r| == |calls|
    decreases |calls|
  {
    if calls == [] then []
    else [Ask(cfg, st, calls[0].dest, calls[0].now, keep)]
         + Answers(cfg, After(cfg, st, calls[0].dest, calls[0].now, keep), calls[1..], keep)
  }

  predicate Touches(key: Key, call: Call) { key == Global || key == Destination(call.dest) }

  /** How many of the calls that draw on a bucket are admitted. */
  function Admitted(cfg: Config, st: map<Key, Entry>, key: Key, calls: seq<Call>, keep: bool): nat
    requires cfg.Valid()
    decreases |calls|
  {
    if calls == [] then 0
    else Taken(cfg, st, key, calls[0], keep)
         + Admitted(cfg, After(cfg, st, calls[0].dest, calls[0].now, keep), key, calls[1..], keep)
  }

  function Taken(cfg: Config, st: map<Key, Entry>, key: Key, call: Call, keep: bool): nat
    requires cfg.Valid()
  {
    if Touches(key, call) && Ask(cfg, st, call.dest, call.now, keep).allowed then 1 else 0
  }

  lemma LevelInRange(cfg: Config, st: map<Key, Entry>, key: Key, now: int, keep: bool)
    requires cfg.Valid() && Sane(cfg, st)
    ensures 0.0 <= Level(cfg, st, key, now, keep) <= cfg.Burst(key)
  {
    if Present(st, key, now, keep) && now > st[key].updatedAt {
      EarnedGrows(cfg.Rate(key), 0, now - st[key].updatedAt);
    }
  }

  lemma AllowedMeansTokens(cfg: Config, st: map<Key, Entry>, dest: nat, now: int, keep: bool)
    requires cfg.Valid()
    ensures Ask(cfg, st, dest, now, keep).allowed <==>
              Level(cfg, st, Global, now, keep) >= 1.0 && Level(cfg, st, Destination(dest), now, keep) >= 1.0
  {
    WaitIsPositive(Level(cfg, st, Global, now, keep), cfg.globalRate);
    WaitIsPositive(Level(cfg, st, Destination(dest), now, keep), cfg.destinationRate);
  }

  lemma CallKeepsSane(cfg: Config, st: map<Key, Entry>, dest: nat, now: int, keep: bool)
    requires cfg.Valid() && Sane(cfg, st) && Before(st, now)
    ensures Sane(cfg, After(cfg, st, dest, now, keep)) && Before(After(cfg, st, dest, now, keep), now)
  {
    LevelInRange(cfg, st, Global, now, keep);
    LevelInRange(cfg, st, Destination(dest), now, keep);
    AllowedMeansTokens(cfg, st, dest, now, keep);
  }

  // ---------------------------------------------------------------- expiry never changes an answer

  lemma FullByThen(burst: real, rate: real, ms: int)
    requires burst > 0.0 && rate > 0.0 && ms as real >= burst / rate * 2000.0
    ensures ms > 0 && Earned(rate, ms) >= burst
  {
    var share := burst / rate;
    assert share * rate == burst;
    if share <= 0.0 { ProductGrows(share, 0.0, rate); }
    ProductGrows(share * 2000.0, ms as real, rate);
    assert share * 2000.0 * rate == share * rate * 2000.0;
  }

  /** By the time a bucket expires it would be full anyway. */
  lemma ExpiryChangesNoLevel(cfg: Config, st: map<Key, Entry>, key: Key, now: int)
    requires cfg.Valid() && Sane(cfg, st)
    ensures Level(cfg, st, key, now, false) == Level(cfg, st, key, now, true)
  {
    if key in st && st[key].expiresAt <= now {
      FullByThen(cfg.Burst(key), cfg.Rate(key), now - st[key].updatedAt);
    }
  }

  lemma ExpiryChangesNoCall(cfg: Config, st: map<Key, Entry>, dest: nat, now: int)
    requires cfg.Valid() && Sane(cfg, st)
    ensures Ask(cfg, st, dest, now, false) == Ask(cfg, st, dest, now, true)
    ensures After(cfg, st, dest, now, false) == After(cfg, st, dest, now, true)
  {
    ExpiryChangesNoLevel(cfg, st, Global, now);
    ExpiryChangesNoLevel(cfg, st, Destination(dest), now);
  }

  /** For every sequence of calls, keys that expire give the same answers as keys that never do. */
  lemma {:induction false} ExpiryIsInvisible(cfg: Config, st: map<Key, Entry>, calls: seq<Call>)
    requires cfg.Valid() && Ordered(calls) && Sane(cfg, st) && (calls != [] ==> Before(st, calls[0].now))
    ensures Answers(cfg, st, calls, false) == Answers(cfg, st, calls, true)
    ensures StateAfter(cfg, st, calls, false) == StateAfter(cfg, st, calls, true)
    ensures forall key :: Admitted(cfg, st, key, calls, false) == Admitted(cfg, st, key, calls, true)
    ensures Sane(cfg, StateAfter(cfg, st, calls, true))
    ensures calls != [] ==> Before(StateAfter(cfg, st, calls, true), calls[|calls| - 1].now)
    decreases |calls|
  {
    if calls != [] {
      var c := calls[0];
      ExpiryChangesNoCall(cfg, st, c.dest, c.now);
      CallKeepsSane(cfg, st, c.dest, c.now, false);
      ExpiryIsInvisible(cfg, After(cfg, st, c.dest, c.now, false), calls[1..]);
    }
  }

  // ---------------------------------------------------------------- the rate is kept

  /** One call: what it takes plus what is left never exceeds what there was plus what was earned. */
  lemma CallSpends(cfg: Config, st: map<Key, Entry>, key: Key, call: Call, later: int)
    requires cfg.Valid() && Sane(cfg, st) && Before(st, call.now) && call.now <= later
    ensures Taken(cfg, st, key, call, true) as real + Level(cfg, After(cfg, st, call.dest, call.now, true), key, later,
                                                            true)
              <= Level(cfg, st, key, call.now, true) + Earned(cfg.Rate(key), later - call.now)
    ensures Taken(cfg, st, key, call, true) as real <= Level(cfg, st, key, call.now, true)
  {
    LevelInRange(cfg, st, key, call.now, true);
    EarnedGrows(cfg.Rate(key), 0, later - call.now);
    AllowedMeansTokens(cfg, st, call.dest, call.now, true);
    if !Touches(key, call) && key in st {
      EarnedAdds(cfg.Rate(key), call.now - st[key].updatedAt, later - call.now);
    }
  }

  lemma Chain(taken: nat, rest: nat, level: real, next: real, e: real, f: real, all: real)
    requires rest as real <= next + f && taken as real + next <= level + e && e + f == all
    ensures (taken + rest) as real <= level + all
  {
  }

  lemma SpendThenRest(cfg: Config, st: map<Key, Entry>, key: Key, c: Call, d: int, end: int, rest: nat)
    requires cfg.Valid() && Sane(cfg, st) && Before(st, c.now) && c.now <= d
    requires rest as real
               <= Level(cfg, After(cfg, st, c.dest, c.now, true), key, d, true) + Earned(cfg.Rate(key), end - d)
    ensures (Taken(cfg, st, key, c, true) + rest) as real
              <= Level(cfg, st, key, c.now, true) + Earned(cfg.Rate(key), end - c.now)
  {
    CallSpends(cfg, st, key, c, d);
    EarnedAdds(cfg.Rate(key), d - c.now, end - d);
    Chain(Taken(cfg, st, key, c, true), rest,
          Level(cfg, st, key, c.now, true), Level(cfg, After(cfg, st, c.dest, c.now, true), key, d, true),
          Earned(cfg.Rate(key), d - c.now), Earned(cfg.Rate(key), end - d), Earned(cfg.Rate(key), end - c.now));
  }

  lemma {:induction false} AdmittedAtMostLevel(cfg: Config, st: map<Key, Entry>, key: Key, calls: seq<Call>)
    requires cfg.Valid() && Ordered(calls) && Sane(cfg, st) && calls != [] && Before(st, calls[0].now)
    ensures Admitted(cfg, st, key, calls, true) as real
              <= Level(cfg, st, key, calls[0].now, true) + Earned(cfg.Rate(key), calls[|calls| - 1].now - calls[0].now)
    decreases |calls|
  {
    var c, rest := calls[0], calls[1..];
    if rest == [] {
      CallSpends(cfg, st, key, c, c.now);
      assert Earned(cfg.Rate(key), 0) == 0.0;
    } else {
      var st' := After(cfg, st, c.dest, c.now, true);
      assert c.now <= rest[0].now && calls[|calls| - 1] == rest[|rest| - 1];
      CallKeepsSane(cfg, st, c.dest, c.now, true);
      AdmittedAtMostLevel(cfg, st', key, rest);
      SpendThenRest(cfg, st, key, c, rest[0].now, rest[|rest| - 1].now, Admitted(cfg, st', key, rest, true));
    }
  }

  lemma StretchIsBounded(cfg: Config, st: map<Key, Entry>, key: Key, calls: seq<Call>)
    requires cfg.Valid() && Ordered(calls) && Sane(cfg, st) && calls != [] && Before(st, calls[0].now)
    ensures Admitted(cfg, st, key, calls, true) as real
              <= cfg.Burst(key) + Earned(cfg.Rate(key), calls[|calls| - 1].now - calls[0].now)
  {
    AdmittedAtMostLevel(cfg, st, key, calls);
    LevelInRange(cfg, st, key, calls[0].now, true);
  }

  /** After every run from empty keys, with expiry, and for the global bucket and every destination at
      once: any further stretch of calls admits at most the burst plus what its duration earns. */
  lemma RateIsKept(cfg: Config, before: seq<Call>, stretch: seq<Call>, key: Key)
    requires cfg.Valid() && Ordered(before + stretch) && stretch != []
    ensures Admitted(cfg, StateAfter(cfg, map[], before, false), key, stretch, false) as real
              <= cfg.Burst(key) + Earned(cfg.Rate(key), stretch[|stretch| - 1].now - stretch[0].now)
  {
    var all := before + stretch;
    assert forall i :: 0 <= i < |before| ==> all[i] == before[i];
    assert forall i :: 0 <= i < |stretch| ==> all[|before| + i] == stretch[i];
    ExpiryIsInvisible(cfg, map[], before);
    var st := StateAfter(cfg, map[], before, false);
    ExpiryIsInvisible(cfg, st, stretch);
    StretchIsBounded(cfg, st, key, stretch);
  }

  // ---------------------------------------------------------------- denial and waiting

  /** Refilling in two steps is refilling once. */
  lemma RefillComposes(cfg: Config, st: map<Key, Entry>, key: Key, now: int, later: int, st': map<Key, Entry>)
    requires cfg.Valid() && Sane(cfg, st) && Before(st, now) && now <= later
    requires key in st' && st'[key].tokens == Level(cfg, st, key, now, true) && st'[key].updatedAt == now
    ensures Level(cfg, st', key, later, true) == Level(cfg, st, key, later, true)
  {
    var rate := cfg.Rate(key);
    LevelInRange(cfg, st, key, now, true);
    EarnedGrows(rate, 0, later - now);
    if key in st {
      EarnedAdds(rate, now - st[key].updatedAt, later - now);
    }
  }

  lemma DeniedCallChangesNoLevel(cfg: Config, st: map<Key, Entry>, dest: nat, now: int, key: Key, later: int)
    requires cfg.Valid() && Sane(cfg, st) && Before(st, now) && now <= later
    requires !Ask(cfg, st, dest, now, false).allowed
    ensures Level(cfg, After(cfg, st, dest, now, false), key, later, true) == Level(cfg, st, key, later, true)
  {
    ExpiryChangesNoLevel(cfg, st, Global, now);
    ExpiryChangesNoLevel(cfg, st, Destination(dest), now);
    if key == Global || key == Destination(dest) {
      RefillComposes(cfg, st, key, now, later, After(cfg, st, dest, now, false));
    }
  }

  /** No bucket tells the two states apart from `from` on. */
  ghost predicate SameLevels(cfg: Config, st: map<Key, Entry>, other: map<Key, Entry>, from: int) {
    forall key, later :: from <= later ==> Level(cfg, st, key, later, true) == Level(cfg, other, key, later, true)
  }

  lemma SameLevelsAfterCall(cfg: Config, st: map<Key, Entry>, other: map<Key, Entry>, dest: nat, now: int)
    requires cfg.Valid() && SameLevels(cfg, st, other, now)
    ensures Ask(cfg, st, dest, now, true) == Ask(cfg, other, dest, now, true)
    ensures SameLevels(cfg, After(cfg, st, dest, now, true), After(cfg, other, dest, now, true), now)
  {
    var next, otherNext := After(cfg, st, dest, now, true), After(cfg, other, dest, now, true);
    assert Level(cfg, st, Global, now, true) == Level(cfg, other, Global, now, true);
    assert Level(cfg, st, Destination(dest), now, true) == Level(cfg, other, Destination(dest), now, true);
    forall key, later | now <= later
      ensures Level(cfg, next, key, later, true) == Level(cfg, otherNext, key, later, true)
    {
      if key != Global && key != Destination(dest) {
        assert Level(cfg, next, key, later, true) == Level(cfg, st, key, later, true);
        assert Level(cfg, otherNext, key, later, true) == Level(cfg, other, key, later, true);
      }
    }
  }

  lemma {:induction false} SameLevelsSameAnswers(cfg: Config, st: map<Key, Entry>, other: map<Key, Entry>, from: int,
                                                 calls: seq<Call>)
    requires cfg.Valid() && SameLevels(cfg, st, other, from) && Ordered(calls) && (calls != [] ==> from <= calls[0].now)
    ensures Answers(cfg, st, calls, true) == Answers(cfg, other, calls, true)
    decreases |calls|
  {
    if calls != [] {
      var c := calls[0];
      SameLevelsAfterCall(cfg, st, other, c.dest, c.now);
      SameLevelsSameAnswers(cfg, After(cfg, st, c.dest, c.now, true), After(cfg, other, c.dest, c.now, true), c.now,
                            calls[1..]);
    }
  }

  /** A denied call takes no token: every later sequence of calls gets the answers it would have got
      without it. */
  lemma DeniedCallIsInvisible(cfg: Config, st: map<Key, Entry>, dest: nat, now: int, calls: seq<Call>)
    requires cfg.Valid() && Sane(cfg, st) && Before(st, now)
    requires Ordered(calls) && (calls != [] ==> now <= calls[0].now)
    requires !Ask(cfg, st, dest, now, false).allowed
    ensures Answers(cfg, After(cfg, st, dest, now, false), calls, false) == Answers(cfg, st, calls, false)
  {
    var next := After(cfg, st, dest, now, false);
    CallKeepsSane(cfg, st, dest, now, false);
    ExpiryIsInvisible(cfg, next, calls);
    ExpiryIsInvisible(cfg, st, calls);
    forall key, later | now <= later ensures Level(cfg, next, key, later, true) == Level(cfg, st, key, later, true) {
      DeniedCallChangesNoLevel(cfg, st, dest, now, key, later);
    }
    SameLevelsSameAnswers(cfg, next, st, now, calls);
  }

  lemma TokenLater(cfg: Config, st: map<Key, Entry>, key: Key, x: int)
    requires cfg.Valid() && key in st && x >= 0
    ensures Level(cfg, st, key, st[key].updatedAt + x, true) >= 1.0 <==>
              st[key].tokens + Earned(cfg.Rate(key), x) >= 1.0
  {
    assert cfg.Burst(key) >= 1.0;
    assert Earned(cfg.Rate(key), 0) == 0.0;
  }

  lemma LevelAfterDenial(cfg: Config, st: map<Key, Entry>, dest: nat, now: int, key: Key, x: int)
    requires cfg.Valid() && Sane(cfg, st) && Before(st, now) && x >= 0 && (key == Global || key == Destination(dest))
    requires !Ask(cfg, st, dest, now, false).allowed
    ensures Level(cfg, After(cfg, st, dest, now, false), key, now + x, false) >= 1.0 <==>
              x >= WaitFor(Level(cfg, st, key, now, false), cfg.Rate(key))
  {
    var st' := After(cfg, st, dest, now, false);
    assert st'[key].tokens == Level(cfg, st, key, now, false) && st'[key].updatedAt == now;
    assert Level(cfg, st', key, now + x, false) == Level(cfg, st', key, now + x, true) by {
      CallKeepsSane(cfg, st, dest, now, false);
      ExpiryChangesNoLevel(cfg, st', key, now + x);
    }
    TokenLater(cfg, st', key, x);
    WaitIsExact(st'[key].tokens, cfg.Rate(key), x);
  }

  /** The returned wait is exact: with no other caller, a retry after `x` milliseconds is admitted if
      and only if `x` is at least the wait. */
  lemma WaitingIsEnough(cfg: Config, st: map<Key, Entry>, dest: nat, now: int, x: int)
    requires cfg.Valid() && Sane(cfg, st) && Before(st, now) && x >= 0
    requires !Ask(cfg, st, dest, now, false).allowed
    ensures Ask(cfg, After(cfg, st, dest, now, false), dest, now + x, false).allowed <==>
              x >= Ask(cfg, st, dest, now, false).wait
  {
    LevelAfterDenial(cfg, st, dest, now, Global, x);
    LevelAfterDenial(cfg, st, dest, now, Destination(dest), x);
    AllowedMeansTokens(cfg, After(cfg, st, dest, now, false), dest, now + x, false);
  }
}
