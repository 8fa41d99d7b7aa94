/** The in-memory fixed-window limiter: one counter per client, dropped when its window has passed. */
module MemoryLimiter {
  import opened RateWindows

  type Table = map<Client, (int, int)>

  datatype Config = Config(limit: nat, window: nat)
  {
    predicate Valid() { limit > 0 && window > 0 }
  }

  function Cleaned(requests: Table, now: real, window: nat): Table
    requires window > 0
  {
    map client | client in requests && requests[client].0 >= WindowOf(now, window) :: requests[client]
  }

  /** The count that a call stores for its client. */
  function NewCount(requests: Table, c: Check, window: nat): int
    requires window > 0
  {
    var kept := Cleaned(requests, c.second, window);
    1 + if c.client in kept && kept[c.client].0 == WindowOf(c.first, window) then kept[c.client].1 else 0
  }

  function After(requests: Table, c: Check, window: nat): Table
    requires window > 0
  {
    Cleaned(requests, c.second, window)[c.client := (WindowOf(c.first, window), NewCount(requests, c, window))]
  }

  /** Python's `%` on floats with a positive divisor. */
  function Remainder(t: real, window: nat): real
    requires window > 0
  {
    t - (WindowOf(t, window) * window) as real
  }

  function RetryAfter(t: real, window: nat): (r: int)
    requires window > 0
  {
    var wait := window - Remainder(t, window).Floor;
    if wait < 1 then 1 else wait
  }

  function Decide(cfg: Config, requests: Table, c: Check): Decision
    requires cfg.Valid()
  {
    Decision(NewCount(requests, c, cfg.window) <= cfg.limit, RetryAfter(c.first, cfg.window))
  }

  class RateLimiter {
    const cfg: Config
    var requests: Table

    constructor (cfg: Config)
      ensures this.cfg == cfg && requests == map[]
    {
      this.cfg := cfg;
      requests := map[];
    }

    /** Forgets the clients whose window is over at `now`. */
    method Cleanup(now: real)
      requires cfg.Valid()
      modifies this
      ensures requests == Cleaned(old(requests), now, cfg.window)
    {
      var currentWindow := WindowOf(now, cfg.window);
      requests := map client | client in requests && requests[client].0 >= currentWindow :: requests[client];
    }

    method Check(client: Client, first: real, second: real) returns (d: Decision)
      requires cfg.Valid()
      modifies this
      ensures var c := RateWindows.Check(client, first, second);
        requests == After(old(requests), c, cfg.window) && d == Decide(cfg, old(requests), c)
      ensures LeastWait(first, cfg.window, d.retryAfter)
    {
      RetryAfterLeast(first, cfg.window);
      var currentWindow := WindowOf(first, cfg.window);
      Cleanup(second);
      var storedWindow, count := currentWindow, 0;
      if client in requests { storedWindow, count := requests[client].0, requests[client].1; }
      if storedWindow != currentWindow { count := 0; }
      count := count + 1;
      requests := requests[client := (currentWindow, count)];
      d := Decision(count <= cfg.limit, RetryAfter(first, cfg.window));
    }
  }

  // ----- Runs -----

  function TableAfter(h: seq<RateWindows.Check>, window: nat): Table
    requires window > 0
  {
    if h == [] then map[] else After(TableAfter(h[..|h| - 1], window), h[|h| - 1], window)
  }

  function Decisions(cfg: Config, h: seq<RateWindows.Check>): (ds: seq<Decision>)
    requires cfg.Valid()
    ensures |ds| == |h|
  {
    if h == [] then []
    else
      var before := h[..|h| - 1];
      Decisions(cfg, before) + [Decide(cfg, TableAfter(before, cfg.window), h[|h| - 1])]
  }

  /** From window `from` on, the table knows every client's count, and it knows no later window. */
  ghost predicate Remembers(h: seq<RateWindows.Check>, requests: Table, from: int, window: nat)
    requires window > 0
  {
    && (forall client :: client in requests ==> requests[client].0 <= from)
    && (forall client, k :: k >= from ==>
          CountIn(h, client, k, window) == Stored(requests, client, k))
  }

  function Stored(requests: Table, client: Client, k: int): int {
    if client in requests && requests[client].0 == k then requests[client].1 else 0
  }

  lemma RemembersAfter(h: seq<RateWindows.Check>, c: RateWindows.Check, requests: Table, from: int, window: nat)
    requires window > 0 && Remembers(h, requests, from, window)
    requires from <= WindowOf(c.first, window) <= WindowOf(c.second, window)
    ensures Remembers(h + [c], After(requests, c, window), WindowOf(c.second, window), window)
  {
    var next := After(requests, c, window);
    assert (h + [c])[..|h|] == h;
    forall client, k | k >= WindowOf(c.second, window)
      ensures CountIn(h + [c], client, k, window) == Stored(next, client, k)
    {
      assert CountIn(h, client, k, window) == Stored(requests, client, k);
    }
  }

  lemma {:induction false} TableRemembers(h: seq<RateWindows.Check>, window: nat)
    requires window > 0 && h != [] && Ordered(h)
    ensures Remembers(h, TableAfter(h, window), WindowOf(h[|h| - 1].second, window), window)
  {
    var n := |h| - 1;
    var c := h[n];
    assert h == h[..n] + [c];
    WindowMonotone(c.first, c.second, window);
    if n == 0 {
      RemembersAfter([], c, map[], WindowOf(c.first, window), window);
      assert h[..n] == [];
    } else {
      TableRemembers(h[..n], window);
      WindowMonotone(h[n - 1].second, c.first, window);
      RemembersAfter(h[..n], c, TableAfter(h[..n], window), WindowOf(h[n - 1].second, window), window);
    }
  }

  /** The table forgets: it knows the last caller, and others only for the current window or later. */
  lemma TableForgets(h: seq<RateWindows.Check>, window: nat, client: Client)
    requires window > 0 && h != []
    ensures var c := h[|h| - 1];
      client in TableAfter(h, window) && client != c.client ==>
        TableAfter(h, window)[client].0 >= WindowOf(c.second, window)
  {
  }

  /** The last call of a history is allowed exactly when the client had fewer than `limit` calls in
      its window before, or when the window changed between the two clock readings of the call. */
  lemma CheckExact(cfg: Config, h: seq<RateWindows.Check>, c: RateWindows.Check)
    requires cfg.Valid() && Ordered(h + [c])
    ensures Decide(cfg, TableAfter(h, cfg.window), c).allowed <==>
      Straddles(c, cfg.window) || CountIn(h, c.client, WindowOf(c.first, cfg.window), cfg.window) < cfg.limit
  {
    var w := cfg.window;
    var k := WindowOf(c.first, w);
    assert (h + [c])[|h|] == c && forall i :: 0 <= i < |h| ==> (h + [c])[i] == h[i];
    WindowMonotone(c.first, c.second, w);
    if h != [] {
      TableRemembers(h, w);
      WindowMonotone(h[|h| - 1].second, c.first, w);
      assert CountIn(h, c.client, k, w) == Stored(TableAfter(h, w), c.client, k);
    }
  }

  // ----- Bounds -----

  /** Call `i` straddles the end of window `k` after the client has used up that window. */
  predicate Late(cfg: Config, h: seq<RateWindows.Check>, client: Client, k: int, i: nat)
    requires cfg.Valid() && i < |h|
  {
    && Hits(h[i], client, k, cfg.window) && Straddles(h[i], cfg.window)
    && CountIn(h[..i], client, k, cfg.window) >= cfg.limit
  }

  predicate HasLate(cfg: Config, h: seq<RateWindows.Check>, client: Client, k: int)
    requires cfg.Valid()
  {
    exists i :: 0 <= i < |h| && Late(cfg, h, client, k, i)
  }

  predicate Closed(h: seq<RateWindows.Check>, k: int, window: nat)
    requires window > 0
  {
    h != [] && WindowOf(h[|h| - 1].second, window) > k
  }

  function Smaller(a: nat, b: nat): nat {
    if a < b then a else b
  }

  /** The allowed calls of a window, as `AllowedPerWindow` counts them. */
  function Expected(cfg: Config, h: seq<RateWindows.Check>, client: Client, k: int): nat
    requires cfg.Valid()
  {
    Smaller(CountIn(h, client, k, cfg.window), cfg.limit) + if HasLate(cfg, h, client, k) then 1 else 0
  }

  lemma LateStays(cfg: Config, before: seq<RateWindows.Check>, c: RateWindows.Check, client: Client, k: int)
    requires cfg.Valid()
    ensures HasLate(cfg, before + [c], client, k) <==>
      HasLate(cfg, before, client, k) || Late(cfg, before + [c], client, k, |before|)
  {
    var h := before + [c];
    forall i | 0 <= i < |before| ensures Late(cfg, h, client, k, i) <==> Late(cfg, before, client, k, i) {
      assert h[..i] == before[..i];
    }
    if HasLate(cfg, before, client, k) {
      var i :| 0 <= i < |before| && Late(cfg, before, client, k, i);
      assert Late(cfg, h, client, k, i);
    }
  }

  /** After a late call its window is over. */
  lemma {:induction false} LateCloses(cfg: Config, h: seq<RateWindows.Check>, client: Client, k: int)
    requires cfg.Valid() && Ordered(h) && HasLate(cfg, h, client, k)
    ensures Closed(h, k, cfg.window)
  {
    var i :| 0 <= i < |h| && Late(cfg, h, client, k, i);
    WindowMonotone(h[i].first, h[i].second, cfg.window);
    WindowMonotone(h[i].second, h[|h| - 1].second, cfg.window);
  }

  /** A call in a window finds it open. */
  lemma HitFindsOpen(
    cfg: Config, before: seq<RateWindows.Check>, c: RateWindows.Check, client: Client, k: int)
    requires cfg.Valid() && Ordered(before + [c]) && Hits(c, client, k, cfg.window)
    ensures !HasLate(cfg, before, client, k)
  {
    var h := before + [c];
    assert forall i :: 0 <= i < |before| ==> before[i] == h[i];
    if HasLate(cfg, before, client, k) {
      LateCloses(cfg, before, client, k);
      assert h[|before|] == c;
      WindowMonotone(before[|before| - 1].second, c.first, cfg.window);
    }
  }

  lemma OneMoreCheck(
    cfg: Config, before: seq<RateWindows.Check>, c: RateWindows.Check, client: Client, k: int, allowed: bool)
    requires cfg.Valid() && Ordered(before + [c])
    requires allowed <==>
      (Straddles(c, cfg.window) ||
       CountIn(before, c.client, WindowOf(c.first, cfg.window), cfg.window) < cfg.limit)
    ensures Expected(cfg, before + [c], client, k) ==
      Expected(cfg, before, client, k) + if Hits(c, client, k, cfg.window) && allowed then 1 else 0
  {
    var h := before + [c];
    assert h[..|before|] == before && h[|before|] == c;
    LateStays(cfg, before, c, client, k);
    if Hits(c, client, k, cfg.window) { HitFindsOpen(cfg, before, c, client, k); }
  }

  /** A window allows its calls up to `limit`, and one more exactly when a call straddles the end of
      that window after the client has used it up. */
  lemma {:induction false} AllowedPerWindow(cfg: Config, h: seq<RateWindows.Check>, client: Client, k: int)
    requires cfg.Valid() && Ordered(h)
    ensures AllowedIn(h, Decisions(cfg, h), client, k, k, cfg.window) == Expected(cfg, h, client, k)
  {
    if h != [] {
      var m := |h| - 1;
      var before, c := h[..m], h[m];
      assert h == before + [c];
      AllowedPerWindow(cfg, before, client, k);
      assert Decisions(cfg, h)[..m] == Decisions(cfg, before);
      CheckExact(cfg, before, c);
      OneMoreCheck(cfg, before, c, client, k, Decisions(cfg, h)[m].allowed);
    }
  }

  /** So a window exceeds its limit if and only if it has such a call. */
  lemma ExceedsExact(cfg: Config, h: seq<RateWindows.Check>, client: Client, k: int)
    requires cfg.Valid() && Ordered(h)
    ensures var n := AllowedIn(h, Decisions(cfg, h), client, k, k, cfg.window);
      n <= cfg.limit + 1 && (n > cfg.limit <==> HasLate(cfg, h, client, k))
  {
    AllowedPerWindow(cfg, h, client, k);
    if HasLate(cfg, h, client, k) {
      var i :| 0 <= i < |h| && Late(cfg, h, client, k, i);
      CountGrows(h, client, k, cfg.window, i);
    }
  }

  lemma {:induction false} CountGrows(h: seq<RateWindows.Check>, client: Client, k: int, window: nat, i: nat)
    requires window > 0 && i <= |h|
    ensures CountIn(h[..i], client, k, window) <= CountIn(h, client, k, window)
  {
    if i == |h| {
      assert h[..i] == h;
    } else {
      assert h[..|h| - 1][..i] == h[..i];
      CountGrows(h[..|h| - 1], client, k, window, i);
    }
  }

  function Burst(client: Client, n: nat): (h: seq<RateWindows.Check>)
    ensures |h| == n
    ensures forall i :: 0 <= i < n ==> h[i] == RateWindows.Check(client, 0.0, 0.0)
  {
    seq(n, _ => RateWindows.Check(client, 0.0, 0.0))
  }

  lemma BurstOrdered(cfg: Config, client: Client, n: nat, last: RateWindows.Check)
    requires cfg.Valid() && last.first == 0.0 <= last.second
    ensures Ordered(Burst(client, n) + [last])
  {
  }

  lemma {:induction false} BurstAllowed(cfg: Config, client: Client, n: nat)
    requires cfg.Valid() && n <= cfg.limit
    ensures AllowedIn(Burst(client, n), Decisions(cfg, Burst(client, n)), client, 0, 0, cfg.window) == n
    ensures CountIn(Burst(client, n), client, 0, cfg.window) == n
  {
    if n > 0 {
      var before, c := Burst(client, n - 1), RateWindows.Check(client, 0.0, 0.0);
      BurstAllowed(cfg, client, n - 1);
      assert Burst(client, n) == before + [c];
      WindowBounds(0.0, cfg.window, 0);
      BurstOrdered(cfg, client, n - 1, c);
      CheckExact(cfg, before, c);
      OneMore(cfg, before, c, client);
    }
  }

  /** An allowed call in window 0 adds one to both counts. */
  lemma OneMore(cfg: Config, before: seq<RateWindows.Check>, c: RateWindows.Check, client: Client)
    requires cfg.Valid() && Hits(c, client, 0, cfg.window)
    requires Decide(cfg, TableAfter(before, cfg.window), c).allowed
    ensures var h := before + [c];
      && CountIn(h, client, 0, cfg.window) == CountIn(before, client, 0, cfg.window) + 1
      && AllowedIn(h, Decisions(cfg, h), client, 0, 0, cfg.window) ==
           AllowedIn(before, Decisions(cfg, before), client, 0, 0, cfg.window) + 1
  {
    var h := before + [c];
    assert h[..|before|] == before && Decisions(cfg, h)[..|before|] == Decisions(cfg, before);
  }

  /** The extra call is real: the limiter lets `limit + 1` calls of one window through when the
      second clock reading of the last one falls in the next window. */
  lemma ExtraCallPossible(cfg: Config, client: Client)
    requires cfg.Valid()
    ensures exists h :: Ordered(h) && AllowedIn(h, Decisions(cfg, h), client, 0, 0, cfg.window) == cfg.limit + 1
  {
    var late := RateWindows.Check(client, 0.0, cfg.window as real);
    var burst := Burst(client, cfg.limit);
    var h := burst + [late];
    BurstAllowed(cfg, client, cfg.limit);
    WindowBounds(0.0, cfg.window, 0);
    WindowBounds(cfg.window as real, cfg.window, 1);
    BurstOrdered(cfg, client, cfg.limit, late);
    CheckExact(cfg, burst, late);
    OneMore(cfg, burst, late, client);
    assert AllowedIn(h, Decisions(cfg, h), client, 0, 0, cfg.window) == cfg.limit + 1;
  }

  /** The decisions with straddling calls struck out. */
  function Plain(h: seq<RateWindows.Check>, ds: seq<Decision>, window: nat): (r: seq<Decision>)
    requires window > 0 && |h| == |ds|
    ensures |r| == |h|
    ensures forall i :: 0 <= i < |h| ==> r[i].allowed == (ds[i].allowed && !Straddles(h[i], window))
  {
    seq(|h|, i requires 0 <= i < |h| => ds[i].(allowed := ds[i].allowed && !Straddles(h[i], window)))
  }

  /** The client's straddling calls in a closed interval of time. */
  function StraddlesBetween(h: seq<RateWindows.Check>, client: Client, from: real, to: real, window: nat): nat
    requires window > 0
  {
    if h == [] then 0
    else
      var c := h[|h| - 1];
      StraddlesBetween(h[..|h| - 1], client, from, to, window) +
      if c.client == client && from <= c.first <= to && Straddles(c, window) then 1 else 0
  }

  lemma {:induction false} PlainPerWindow(cfg: Config, h: seq<RateWindows.Check>, client: Client, k: int)
    requires cfg.Valid() && Ordered(h)
    ensures var n := AllowedIn(h, Plain(h, Decisions(cfg, h), cfg.window), client, k, k, cfg.window);
      n <= cfg.limit && n <= CountIn(h, client, k, cfg.window)
  {
    if h != [] {
      var m := |h| - 1;
      var before, c := h[..m], h[m];
      assert h == before + [c];
      PlainPerWindow(cfg, before, client, k);
      assert Decisions(cfg, h)[..m] == Decisions(cfg, before);
      PlainPrefix(h, Decisions(cfg, h), cfg.window, client, k);
      CheckExact(cfg, before, c);
    }
  }

  lemma PlainPrefix(h: seq<RateWindows.Check>, ds: seq<Decision>, window: nat, client: Client, k: int)
    requires window > 0 && |h| == |ds| > 0
    ensures var m := |h| - 1;
      AllowedIn(h, Plain(h, ds, window), client, k, k, window) ==
      AllowedIn(h[..m], Plain(h[..m], ds[..m], window), client, k, k, window) +
      if Hits(h[m], client, k, window) && ds[m].allowed && !Straddles(h[m], window) then 1 else 0
  {
    var m := |h| - 1;
    assert Plain(h, ds, window)[..m] == Plain(h[..m], ds[..m], window);
  }

  lemma {:induction false} PlainOrStraddling(
    h: seq<RateWindows.Check>, ds: seq<Decision>, client: Client, from: real, to: real, window: nat)
    requires window > 0 && |h| == |ds|
    ensures AllowedBetween(h, ds, client, from, to) <=
      AllowedBetween(h, Plain(h, ds, window), client, from, to) + StraddlesBetween(h, client, from, to, window)
  {
    if h != [] {
      var m := |h| - 1;
      PlainOrStraddling(h[..m], ds[..m], client, from, to, window);
      assert Plain(h, ds, window)[..m] == Plain(h[..m], ds[..m], window);
    }
  }

  /** Sliding bound: over `k` window lengths a client gets at most `(k + 1) * limit` calls through, and
      one more for each of its own calls in that time that straddles the end of a window; in any case
      no more than `(k + 1) * (limit + 1)`. */
  lemma AllowedOverTime(cfg: Config, h: seq<RateWindows.Check>, client: Client, from: real, k: nat)
    requires cfg.Valid() && Ordered(h)
    ensures var to := from + (k * cfg.window) as real;
      var n := AllowedBetween(h, Decisions(cfg, h), client, from, to);
      && n <= (k + 1) * cfg.limit + StraddlesBetween(h, client, from, to, cfg.window)
      && n <= (k + 1) * (cfg.limit + 1)
  {
    var ds, to := Decisions(cfg, h), from + (k * cfg.window) as real;
    forall i ensures AllowedIn(h, ds, client, i, i, cfg.window) <= cfg.limit + 1 {
      ExceedsExact(cfg, h, client, i);
    }
    AllowedOverInterval(h, ds, client, from, k, cfg.window, cfg.limit + 1);
    PlainOverTime(cfg, h, client, from, k);
    PlainOrStraddling(h, ds, client, from, to, cfg.window);
  }

  lemma PlainOverTime(cfg: Config, h: seq<RateWindows.Check>, client: Client, from: real, k: nat)
    requires cfg.Valid() && Ordered(h)
    ensures AllowedBetween(h, Plain(h, Decisions(cfg, h), cfg.window), client, from, from + (k * cfg.window) as real)
      <= (k + 1) * cfg.limit
  {
    var plain := Plain(h, Decisions(cfg, h), cfg.window);
    forall i ensures AllowedIn(h, plain, client, i, i, cfg.window) <= cfg.limit {
      PlainPerWindow(cfg, h, client, i);
    }
    AllowedOverInterval(h, plain, client, from, k, cfg.window, cfg.limit);
  }

  /** The advertised delay is the least whole number of seconds that leads into the next window. */
  lemma RetryAfterLeast(t: real, window: nat)
    requires window > 0
    ensures LeastWait(t, window, RetryAfter(t, window))
  {
    var k := WindowOf(t, window);
    var r := RetryAfter(t, window);
    WindowBounds(t, window, k);
    OneMoreMultiple(k, window);
    OneMoreMultiple(k + 1, window);
    RoundedWait(t - (k * window) as real, window);
    WindowBounds(t + r as real, window, k + 1);
    WindowBounds(t + (r - 1) as real, window, k);
  }

  lemma RoundedWait(rest: real, window: nat)
    requires 0.0 <= rest < window as real
    ensures var r := window - rest.Floor;
      r >= 1 && (r - 1) as real + rest < window as real <= r as real + rest < (window + window) as real
  {
  }
}
