/** Fixed-window counting over the whole request history: what both rate limiters stand in for. */
module RateWindows {

  type Client = string

  datatype Decision = Decision(allowed: bool, retryAfter: int)

  /** One call of a limiter. The in-memory limiter reads the clock twice, the other once. */
  datatype Check = Check(client: Client, first: real, second: real)

  function WindowOf(t: real, window: nat): int
    requires window > 0
  {
    (t / window as real).Floor
  }

  lemma Product(a: real, b: real, c: real)
    requires c > 0.0
    ensures a <= b <==> a * c <= b * c
  {
    if a < b { Positive(b - a, c); } else if b < a { Positive(a - b, c); }
    assert (b - a) * c == b * c - a * c;
  }

  lemma Positive(a: real, c: real)
    requires a > 0.0 && c > 0.0
    ensures a * c > 0.0
  {
  }

  lemma Quotient(x: real, t: real, w: real)
    requires w > 0.0
    ensures x <= t / w <==> x * w <= t
  {
    var q := t / w;
    assert q * w == t;
    Product(x, q, w);
  }

  lemma {:induction false} CastProduct(k: int, w: nat)
    ensures (k * w) as real == k as real * w as real
  {
    if w > 0 {
      CastProduct(k, w - 1);
      assert k * w == k * (w - 1) + k;
      assert k as real * w as real == k as real * (w - 1) as real + k as real;
    }
  }

  lemma FloorIs(q: real, k: int)
    ensures q.Floor == k <==> k as real <= q < (k + 1) as real
  {
  }

  /** A window holds exactly the instants from its start up to the next start. */
  lemma WindowBounds(t: real, window: nat, k: int)
    requires window > 0
    ensures WindowOf(t, window) == k <==> (k * window) as real <= t < ((k + 1) * window) as real
  {
    var w := window as real;
    FloorIs(t / w, k);
    Quotient(k as real, t, w);
    Quotient((k + 1) as real, t, w);
    CastProduct(k, window);
    CastProduct(k + 1, window);
  }

  lemma WindowMonotone(s: real, t: real, window: nat)
    requires window > 0 && s <= t
    ensures WindowOf(s, window) <= WindowOf(t, window)
  {
    var w := window as real;
    Quotient(s / w, t, w);
    assert (s / w) * w == s;
  }

  /** Every clock reading is at or after the one before it. */
  predicate Ordered(h: seq<Check>) {
    && (forall i :: 0 <= i < |h| ==> h[i].first <= h[i].second)
    && (forall i, j :: 0 <= i < j < |h| ==> h[i].second <= h[j].first)
  }

  predicate Straddles(c: Check, window: nat)
    requires window > 0
  {
    WindowOf(c.first, window) != WindowOf(c.second, window)
  }

  predicate Hits(c: Check, client: Client, k: int, window: nat)
    requires window > 0
  {
    c.client == client && WindowOf(c.first, window) == k
  }

  /** The client's calls in window `k`, over the whole history. */
  function CountIn(h: seq<Check>, client: Client, k: int, window: nat): nat
    requires window > 0
  {
    if h == [] then 0
    else CountIn(h[..|h| - 1], client, k, window) + if Hits(h[|h| - 1], client, k, window) then 1 else 0
  }

  // ----- Counting allowed calls -----

  /** The client's allowed calls whose first reading lies in the windows from `low` to `high`. */
  function AllowedIn(h: seq<Check>, ds: seq<Decision>, client: Client, low: int, high: int, window: nat): nat
    requires window > 0 && |h| == |ds|
  {
    if h == [] then 0
    else
      var n := |h| - 1;
      AllowedIn(h[..n], ds[..n], client, low, high, window) +
      if h[n].client == client && low <= WindowOf(h[n].first, window) <= high && ds[n].allowed then 1 else 0
  }

  /** The client's allowed calls in a closed interval of time. */
  function AllowedBetween(h: seq<Check>, ds: seq<Decision>, client: Client, from: real, to: real): nat
    requires |h| == |ds|
  {
    if h == [] then 0
    else
      var n := |h| - 1;
      AllowedBetween(h[..n], ds[..n], client, from, to) +
      if h[n].client == client && from <= h[n].first <= to && ds[n].allowed then 1 else 0
  }

  lemma {:induction false} AllowedSplit(
    h: seq<Check>, ds: seq<Decision>, client: Client, low: int, mid: int, high: int, window: nat)
    requires window > 0 && |h| == |ds| && low <= mid < high
    ensures AllowedIn(h, ds, client, low, high, window) ==
            AllowedIn(h, ds, client, low, mid, window) + AllowedIn(h, ds, client, mid + 1, high, window)
  {
    if h != [] { AllowedSplit(h[..|h| - 1], ds[..|h| - 1], client, low, mid, high, window); }
  }

  /** A bound per window is a bound per window for any number of consecutive windows. */
  lemma {:induction false} AllowedOverWindows(
    h: seq<Check>, ds: seq<Decision>, client: Client, low: int, k: nat, window: nat, most: nat)
    requires window > 0 && |h| == |ds|
    requires forall i :: AllowedIn(h, ds, client, i, i, window) <= most
    ensures AllowedIn(h, ds, client, low, low + k, window) <= (k + 1) * most
  {
    if k > 0 {
      AllowedOverWindows(h, ds, client, low, k - 1, window, most);
      AllowedSplit(h, ds, client, low, low + k - 1, low + k, window);
      assert AllowedIn(h, ds, client, low + k, low + k, window) <= most;
      OneMoreMultiple(k, most);
    }
  }

  lemma OneMoreMultiple(k: int, n: int)
    ensures (k + 1) * n == k * n + n
  {
  }

  lemma {:induction false} AllowedWithin(
    h: seq<Check>, ds: seq<Decision>, client: Client, from: real, to: real, low: int, high: int, window: nat)
    requires window > 0 && |h| == |ds|
    requires low == WindowOf(from, window) && high == WindowOf(to, window)
    ensures AllowedBetween(h, ds, client, from, to) <= AllowedIn(h, ds, client, low, high, window)
  {
    if h != [] {
      var n := |h| - 1;
      AllowedWithin(h[..n], ds[..n], client, from, to, low, high, window);
      if from <= h[n].first <= to {
        WindowMonotone(from, h[n].first, window);
        WindowMonotone(h[n].first, to, window);
      }
    }
  }

  lemma WindowShift(t: real, k: nat, window: nat)
    requires window > 0
    ensures WindowOf(t + (k * window) as real, window) == WindowOf(t, window) + k
  {
    var low := WindowOf(t, window);
    WindowBounds(t, window, low);
    assert ((low + k) * window) as real == (low * window) as real + (k * window) as real;
    assert ((low + k + 1) * window) as real == ((low + 1) * window) as real + (k * window) as real;
    WindowBounds(t + (k * window) as real, window, low + k);
  }

  /** A closed interval of `k` window lengths meets `k + 1` windows. */
  lemma AllowedOverInterval(
    h: seq<Check>, ds: seq<Decision>, client: Client, from: real, k: nat, window: nat, most: nat)
    requires window > 0 && |h| == |ds|
    requires forall i :: AllowedIn(h, ds, client, i, i, window) <= most
    ensures AllowedBetween(h, ds, client, from, from + (k * window) as real) <= (k + 1) * most
  {
    var low := WindowOf(from, window);
    var to := from + (k * window) as real;
    WindowShift(from, k, window);
    AllowedWithin(h, ds, client, from, to, low, low + k, window);
    AllowedOverWindows(h, ds, client, low, k, window, most);
  }

  // ----- Retry-After -----

  /** Waiting `r` seconds from `t` reaches the window after the one of `t`, and no later one, and
      waiting any fewer whole seconds stays in the window of `t`. */
  predicate LeastWait(t: real, window: nat, r: int)
    requires window > 0
  {
    && r >= 1
    && WindowOf(t + r as real, window) == WindowOf(t, window) + 1
    && WindowOf(t + (r - 1) as real, window) == WindowOf(t, window)
  }

  lemma LeastWaitUnique(t: real, window: nat, r: int, q: int)
    requires window > 0 && LeastWait(t, window, r) && 1 <= q && WindowOf(t + q as real, window) > WindowOf(t, window)
    ensures r <= q
  {
    if q < r { WindowMonotone(t + q as real, t + (r - 1) as real, window); }
  }
}
