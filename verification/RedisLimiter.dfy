/** The shared limiter: a script run by the store itself, on the store's clock, which counts calls
    under one expiring key per client and window.

    Instants are milliseconds. A key whose expiry lies strictly in the past is gone. */
module RedisLimiter {
  import opened RateWindows
  import Common
  import M = MemoryLimiter

  type Key = (Client, int)

  /** `expiresAt < 0` marks a key without expiry. */
  datatype Entry = Entry(count: nat, expiresAt: int)

  type Store = map<Key, Entry>

  datatype Call = Call(client: Client, at: nat)

  predicate Alive(store: Store, key: Key, at: nat) {
    key in store && (store[key].expiresAt < 0 || at <= store[key].expiresAt)
  }

  function Bucket(at: nat, window: nat): int
    requires window > 0
  {
    (at / 1000) / window
  }

  function CountAt(store: Store, key: Key, at: nat): nat {
    if Alive(store, key, at) then store[key].count else 0
  }

  /** INCR keeps the expiry of a living key; EXPIRE follows when the key is new or has none. */
  function Increment(store: Store, c: Call, window: nat): Store
    requires window > 0
  {
    var key := (c.client, Bucket(c.at, window));
    var count := CountAt(store, key, c.at) + 1;
    var keeps := Alive(store, key, c.at) && store[key].expiresAt >= 0;
    var expiresAt := if count == 1 || !keeps then c.at + window * 2 * 1000 else store[key].expiresAt;
    store[key := Entry(count, expiresAt)]
  }

  function Decide(cfg: M.Config, store: Store, c: Call): Decision
    requires cfg.Valid()
  {
    var count := CountAt(store, (c.client, Bucket(c.at, cfg.window)), c.at) + 1;
    var retryAfter := cfg.window - (c.at / 1000) % cfg.window;
    Decision(count <= cfg.limit, if retryAfter < 1 then 1 else retryAfter)
  }

  class RedisRateLimiter {
    const cfg: M.Config
    var store: Store

    constructor (cfg: M.Config)
      ensures this.cfg == cfg && store == map[]
    {
      this.cfg := cfg;
      store := map[];
    }

    /** The script, statement by statement. */
    method Eval(client: Client, at: nat) returns (count: nat, retryAfter: int)
      requires cfg.Valid()
      modifies this
      ensures store == Increment(old(store), Call(client, at), cfg.window)
      ensures count == CountAt(old(store), (client, Bucket(at, cfg.window)), at) + 1
      ensures retryAfter == cfg.window - (at / 1000) % cfg.window
    {
      var seconds := at / 1000;
      var key := (client, seconds / cfg.window);
      if !Alive(store, key, at) { store := store[key := Entry(0, -1)]; }
      store := store[key := store[key].(count := store[key].count + 1)];
      count := store[key].count;
      var maximumTtl := cfg.window * 2;
      if count == 1 || store[key].expiresAt < 0 {
        store := store[key := store[key].(expiresAt := at + maximumTtl * 1000)];
      }
      retryAfter := cfg.window - seconds % cfg.window;
    }

    method Check(client: Client, at: nat) returns (d: Decision)
      requires cfg.Valid()
      modifies this
      ensures store == Increment(old(store), Call(client, at), cfg.window)
      ensures d == Decide(cfg, old(store), Call(client, at))
    {
      var count, retryAfter := Eval(client, at);
      d := Decision(count <= cfg.limit, if retryAfter < 1 then 1 else retryAfter);
    }
  }

  // ----- Runs -----

  predicate InOrder(calls: seq<Call>) {
    forall i, j :: 0 <= i < j < |calls| ==> calls[i].at <= calls[j].at
  }

  function StoreAfter(calls: seq<Call>, window: nat): Store
    requires window > 0
  {
    if calls == [] then map[]
    else Increment(StoreAfter(calls[..|calls| - 1], window), calls[|calls| - 1], window)
  }

  function Decisions(cfg: M.Config, calls: seq<Call>): (ds: seq<Decision>)
    requires cfg.Valid()
    ensures |ds| == |calls|
  {
    if calls == [] then []
    else
      var before := calls[..|calls| - 1];
      Decisions(cfg, before) + [Decide(cfg, StoreAfter(before, cfg.window), calls[|calls| - 1])]
  }

  /** The same calls as the in-memory limiter would see them, both clock readings being equal. */
  function AsCheck(c: Call): Check {
    Check(c.client, c.at as real / 1000.0, c.at as real / 1000.0)
  }

  function History(calls: seq<Call>): (h: seq<Check>)
    ensures |h| == |calls|
    ensures forall i :: 0 <= i < |calls| ==> h[i] == AsCheck(calls[i])
  {
    seq(|calls|, i requires 0 <= i < |calls| => AsCheck(calls[i]))
  }

  // ----- Buckets are windows -----

  lemma Division(a: nat, b: nat)
    requires b > 0
    ensures a == (a / b) * b + a % b && 0 <= a % b < b
  {
  }

  lemma BucketIsWindow(at: nat, window: nat)
    requires window > 0
    ensures WindowOf(at as real / 1000.0, window) == Bucket(at, window)
  {
    var t, s := at as real / 1000.0, at / 1000;
    var k := s / window;
    Division(s, window);
    assert (k + 1) * window == k * window + window;
    assert k * window <= s < (k + 1) * window;
    assert s as real <= t < (s + 1) as real;
    WindowBounds(t, window, k);
  }

  lemma BucketMonotone(a: nat, b: nat, window: nat)
    requires window > 0 && a <= b
    ensures Bucket(a, window) <= Bucket(b, window)
  {
    BucketIsWindow(a, window);
    BucketIsWindow(b, window);
    WindowMonotone(a as real / 1000.0, b as real / 1000.0, window);
  }

  /** Two windows after any instant of a bucket is inside the second bucket after it. */
  lemma BucketShift(at: nat, window: nat)
    requires window > 0
    ensures Bucket(at + window * 2 * 1000, window) == Bucket(at, window) + 2
  {
    var s := at / 1000;
    assert (at + window * 2 * 1000) / 1000 == s + 2 * window;
    Division(s, window);
    Division(s + 2 * window, window);
    var k, q := s / window, (s + 2 * window) / window;
    assert (k + 2) * window == k * window + 2 * window;
    BetweenMultiples(q, k + 2, window, s + 2 * window);
  }

  lemma BetweenMultiples(q: int, k: int, window: nat, x: int)
    requires window > 0 && q * window <= x < (q + 1) * window && k * window <= x < (k + 1) * window
    ensures q == k
  {
    MultipleGrows(q + 1, k, window);
    MultipleGrows(k + 1, q, window);
  }

  lemma MultipleGrows(a: int, b: int, window: nat)
    ensures a <= b ==> a * window <= b * window
  {
  }

  // ----- The store stands for the whole history -----

  /** From the bucket of `now` on, the store knows every client's count; every key was set in its own
      bucket and lives into the second bucket after it. */
  ghost predicate Remembers(calls: seq<Call>, store: Store, now: nat, window: nat)
    requires window > 0
  {
    && (forall client, k :: k >= Bucket(now, window) ==>
          CountIn(History(calls), client, k, window) == Stored(store, (client, k)))
    && (forall key :: key in store ==> EntryOk(store, key, now, window))
  }

  function Stored(store: Store, key: Key): nat {
    if key in store then store[key].count else 0
  }

  predicate EntryOk(store: Store, key: Key, now: nat, window: nat)
    requires window > 0 && key in store
  {
    && store[key].count > 0
    && store[key].expiresAt >= 0
    && Bucket(store[key].expiresAt, window) == key.1 + 2
    && key.1 <= Bucket(now, window)
  }

  /** A key never expires inside its own bucket, nor in the next one. */
  lemma LivesLongEnough(store: Store, key: Key, now: nat, at: nat, window: nat)
    requires window > 0 && key in store && EntryOk(store, key, now, window)
    requires Bucket(at, window) <= key.1 + 1
    ensures Alive(store, key, at)
  {
    if at > store[key].expiresAt { BucketMonotone(store[key].expiresAt, at, window); }
  }

  lemma RemembersAfter(calls: seq<Call>, c: Call, store: Store, now: nat, window: nat)
    requires window > 0 && Remembers(calls, store, now, window) && now <= c.at
    ensures Remembers(calls + [c], Increment(store, c, window), c.at, window)
  {
    var next := Increment(store, c, window);
    var bucket := Bucket(c.at, window);
    BucketMonotone(now, c.at, window);
    BucketIsWindow(c.at, window);
    BucketShift(c.at, window);
    var key := (c.client, bucket);
    if key in store { LivesLongEnough(store, key, now, c.at, window); }
    var h := History(calls + [c]);
    assert h[..|calls|] == History(calls) && h[|calls|] == AsCheck(c);
    forall client, k | k >= bucket
      ensures CountIn(h, client, k, window) == Stored(next, (client, k))
    {
      assert CountIn(History(calls), client, k, window) == Stored(store, (client, k));
    }
    forall other | other in next ensures EntryOk(next, other, c.at, window) {
      if other != key { assert EntryOk(store, other, now, window); }
    }
  }

  lemma RemembersNothing(now: nat, window: nat)
    requires window > 0
    ensures Remembers([], map[], now, window)
  {
  }

  lemma {:induction false} StoreRemembers(calls: seq<Call>, window: nat)
    requires window > 0 && calls != [] && InOrder(calls)
    ensures Remembers(calls, StoreAfter(calls, window), calls[|calls| - 1].at, window)
  {
    var n := |calls| - 1;
    var before, c := calls[..n], calls[n];
    assert calls == before + [c];
    if n == 0 {
      assert before == [];
      assert StoreAfter(before, window) == map[];
      RemembersNothing(c.at, window);
      RemembersAfter(before, c, map[], c.at, window);
    } else {
      StoreRemembers(before, window);
      RemembersAfter(before, c, StoreAfter(before, window), before[n - 1].at, window);
    }
  }

  /** The last call is allowed exactly when the client had fewer than `limit` calls in its bucket. */
  lemma CallExact(cfg: M.Config, calls: seq<Call>, c: Call)
    requires cfg.Valid() && InOrder(calls + [c])
    ensures Decide(cfg, StoreAfter(calls, cfg.window), c).allowed <==>
      CountIn(History(calls), c.client, Bucket(c.at, cfg.window), cfg.window) < cfg.limit
  {
    var w, store := cfg.window, StoreAfter(calls, cfg.window);
    var k := Bucket(c.at, w);
    assert (calls + [c])[|calls|] == c && forall i :: 0 <= i < |calls| ==> (calls + [c])[i] == calls[i];
    if calls != [] {
      var now := calls[|calls| - 1].at;
      StoreRemembers(calls, w);
      BucketMonotone(now, c.at, w);
      assert CountIn(History(calls), c.client, k, w) == Stored(store, (c.client, k));
      if (c.client, k) in store { LivesLongEnough(store, (c.client, k), now, c.at, w); }
    }
  }

  ghost function AliveBuckets(store: Store, client: Client, at: nat): set<int> {
    set key | key in store && key.0 == client && Alive(store, key, at) :: key.1
  }

  /** At any time at most three keys of a client are alive. */
  lemma {:induction false} FewKeys(cfg: M.Config, calls: seq<Call>, client: Client, at: nat)
    requires cfg.Valid() && calls != [] && InOrder(calls) && calls[|calls| - 1].at <= at
    ensures |AliveBuckets(StoreAfter(calls, cfg.window), client, at)| <= 3
  {
    var w, store := cfg.window, StoreAfter(calls, cfg.window);
    var now, b := calls[|calls| - 1].at, Bucket(at, cfg.window);
    StoreRemembers(calls, w);
    BucketMonotone(now, at, w);
    var alive := AliveBuckets(store, client, at);
    forall k | k in alive ensures k in {b - 2, b - 1, b} {
      var key: Key := (client, k);
      assert EntryOk(store, key, now, w);
      BucketMonotone(at, store[key].expiresAt, w);
    }
    Common.SubsetCardinality(alive, {b - 2, b - 1, b});
  }

  // ----- The two limiters agree -----

  lemma HistoryOrdered(calls: seq<Call>)
    requires InOrder(calls)
    ensures Ordered(History(calls))
  {
  }

  lemma SameRetryAfter(at: nat, window: nat)
    requires window > 0
    ensures M.RetryAfter(at as real / 1000.0, window) == window - (at / 1000) % window
  {
    var s := at / 1000;
    BucketIsWindow(at, window);
    Division(s, window);
    var rest := M.Remainder(at as real / 1000.0, window);
    assert (s % window) as real <= rest < (s % window + 1) as real;
    assert rest.Floor == s % window;
  }

  /** On one clock, however many processes share the store, it decides every call as a single
      in-memory limiter would that sees all of them. */
  lemma {:induction false} AgreesWithMemory(cfg: M.Config, calls: seq<Call>)
    requires cfg.Valid() && InOrder(calls)
    ensures Decisions(cfg, calls) == M.Decisions(cfg, History(calls))
  {
    if calls != [] {
      var n := |calls| - 1;
      var before, c := calls[..n], calls[n];
      AgreesWithMemory(cfg, before);
      assert calls == before + [c];
      SameDecision(cfg, before, c);
      LastDecision(cfg, before, c);
    }
  }

  lemma LastDecision(cfg: M.Config, before: seq<Call>, c: Call)
    requires cfg.Valid()
    ensures Decisions(cfg, before + [c]) ==
      Decisions(cfg, before) + [Decide(cfg, StoreAfter(before, cfg.window), c)]
    ensures M.Decisions(cfg, History(before + [c])) ==
      M.Decisions(cfg, History(before)) + [M.Decide(cfg, M.TableAfter(History(before), cfg.window), AsCheck(c))]
  {
    var n := |before|;
    var calls, h := before + [c], History(before + [c]);
    assert calls[..n] == before && calls[n] == c;
    assert h[..n] == History(before) && h[n] == AsCheck(c);
  }

  lemma SameVerdict(cfg: M.Config, before: seq<Call>, c: Call)
    requires cfg.Valid() && InOrder(before + [c])
    ensures Decide(cfg, StoreAfter(before, cfg.window), c).allowed ==
      M.Decide(cfg, M.TableAfter(History(before), cfg.window), AsCheck(c)).allowed
  {
    CallExact(cfg, before, c);
    MemoryVerdict(cfg, before, c);
  }

  /** What the in-memory limiter, given the same history, decides of a call. */
  lemma MemoryVerdict(cfg: M.Config, before: seq<Call>, c: Call)
    requires cfg.Valid() && InOrder(before + [c])
    ensures M.Decide(cfg, M.TableAfter(History(before), cfg.window), AsCheck(c)).allowed <==>
      CountIn(History(before), c.client, Bucket(c.at, cfg.window), cfg.window) < cfg.limit
  {
    HistoryOrdered(before + [c]);
    assert History(before + [c]) == History(before) + [AsCheck(c)];
    M.CheckExact(cfg, History(before), AsCheck(c));
    BucketIsWindow(c.at, cfg.window);
  }

  lemma SameDecision(cfg: M.Config, before: seq<Call>, c: Call)
    requires cfg.Valid() && InOrder(before + [c])
    ensures Decide(cfg, StoreAfter(before, cfg.window), c) ==
      M.Decide(cfg, M.TableAfter(History(before), cfg.window), AsCheck(c))
  {
    SameVerdict(cfg, before, c);
    SameRetryAfter(c.at, cfg.window);
  }

  lemma {:induction false} OneReading(h: seq<Check>, client: Client, from: real, to: real, window: nat)
    requires window > 0 && forall i :: 0 <= i < |h| ==> h[i].first == h[i].second
    ensures M.StraddlesBetween(h, client, from, to, window) == 0
  {
    if h != [] { OneReading(h[..|h| - 1], client, from, to, window); }
  }

  /** Hence no window of the shared limiter ever lets more than `limit` calls of a client through, and
      `k` window lengths no more than `(k + 1) * limit`. */
  lemma AllowedOverTime(cfg: M.Config, calls: seq<Call>, client: Client, from: real, k: nat)
    requires cfg.Valid() && InOrder(calls)
    ensures AllowedBetween(History(calls), Decisions(cfg, calls), client, from, from + (k * cfg.window) as real)
      <= (k + 1) * cfg.limit
  {
    AgreesWithMemory(cfg, calls);
    HistoryOrdered(calls);
    OneReading(History(calls), client, from, from + (k * cfg.window) as real, cfg.window);
    M.AllowedOverTime(cfg, History(calls), client, from, k);
  }
}
