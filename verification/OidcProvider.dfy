/** Loading provider documents through the shared cache, and finding the key of an ID token. */
module OidcProvider {
  import opened Common
  import opened OidcCache

  /** A loaded document and whether it came from the cache, or a provider error. */
  datatype Loaded = Loaded(payload: Payload, fromCache: bool) | ProviderError

  /** Loading without a cache: one response, which must be a document that the validator accepts. */
  function Direct(cfg: Config, response: Option<Payload>): Loaded {
    if response.Some? && cfg.accepts(response.value) then Loaded(response.value, false) else ProviderError
  }

  /** What one load may do, given the responses it fetched: it fetches at most once; when it fetches it
      answers as direct loading would; when it does not, it has an accepted document. */
  predicate LoadOk(cfg: Config, avoid: Option<Payload>, fetched: seq<Option<Payload>>, r: Loaded) {
    && |fetched| <= 1
    && (fetched != [] ==> r == Direct(cfg, fetched[0]))
    && (fetched == [] ==> r.Loaded? && r.fromCache && cfg.enabled && cfg.accepts(r.payload) && Some(r.payload) != avoid)
  }

  datatype KeyResult = Found(payload: Payload) | KeyMissing | LoadFailed

  /** Key lookup without a cache. */
  function KeyDirect(cfg: Config, hasKey: Payload -> bool, response: Option<Payload>): KeyResult {
    match Direct(cfg, response)
    case ProviderError => LoadFailed
    case Loaded(payload, _) => if hasKey(payload) then Found(payload) else KeyMissing
  }

  class ProviderClient {
    const cfg: Config
    const cache: DocumentCache

    constructor (cache: DocumentCache)
      ensures this.cache == cache && cfg == cache.cfg
    {
      this.cache, this.cfg := cache, cache.cfg;
    }

    /** The entry, when last shown, contained this document. */
    ghost predicate Shows(payload: Payload)
      reads cache, cache.store
    {
      cache.store.shown != [] && Reads(cfg, cache.store.shown[|cache.store.shown| - 1], Hit(payload))
    }

    /** The entry is of no use to anybody. */
    ghost predicate Refuses(v: Option<string>) {
      Reads(cfg, v, Invalid) || exists p :: Reads(cfg, v, Hit(p)) && !cfg.accepts(p)
    }

    /** An acceptable document shown by the first successful read is the one loaded. */
    ghost predicate FirstServes(before: seq<Option<string>>, after: seq<Option<string>>, r: Loaded) {
      |after| > |before| ==>
        forall p :: Reads(cfg, after[|before|], Hit(p)) && cfg.accepts(p) ==> r == Loaded(p, true)
    }

    /** `avoid` is the document that a forced refresh must not take from the cache; without it the
        cache is consulted first. `response` is what the provider would answer, if anything. */
    method Load(avoid: Option<Payload>, token: string, response: Option<Payload>)
      returns (r: Loaded, ghost fetched: seq<Option<Payload>>)
      requires cfg == cache.cfg && token in cache.store.drawn && !cache.store.Holds(token)
      requires token !in cache.store.acquired
      modifies cache.store
      ensures LoadOk(cfg, avoid, fetched, r) && (fetched != [] ==> fetched == [response])
      ensures cache.store.drawn == old(cache.store.drawn)
      ensures old(cache.store.removed) <= cache.store.removed <= old(cache.store.removed) + {token}
      ensures cache.store.now >= old(cache.store.now)
      ensures Steady(cache.store.drawn - {token}, old(cache.store.lock), cache.store.lock, cache.store.now)
      ensures old(cache.store.shown) <= cache.store.shown
      ensures fetched == [] ==> |cache.store.shown| > |old(cache.store.shown)| && Shows(r.payload)
      ensures avoid.None? ==> FirstServes(old(cache.store.shown), cache.store.shown, r)
      ensures avoid.None? && cfg.enabled && cache.store.failures == old(cache.store.failures) ==>
        |cache.store.shown| > |old(cache.store.shown)|
      ensures cache.store.acquired <= old(cache.store.acquired) + {token}
      ensures token in cache.store.acquired ==> token in cache.store.released
      ensures cache.store.offered == old(cache.store.offered) +
        if fetched != [] && r.Loaded? && cache.Storable(r.payload) then [(cfg.serialize(r.payload), cfg.ttl)] else []
    {
      var found, locked := FromCache(avoid, token);
      if found.Some? { return Loaded(found.value, true), []; }
      fetched := [response];
      r := Fetch(token, locked, response);
    }

    /** The cached document if it may be used; otherwise the refresh lock, or a document that somebody
        else stores while this client waits for the lock's holder. It returns with neither only after a
        failure, the whole wait, or an entry that is of no use. */
    method FromCache(avoid: Option<Payload>, token: string) returns (found: Option<Payload>, locked: bool)
      requires cfg == cache.cfg && token in cache.store.drawn
      modifies cache.store`now, cache.store`value, cache.store`lock, cache.store`acquired
      modifies cache.store`shown, cache.store`failures
      ensures found.Some? ==> cfg.enabled && cfg.accepts(found.value) && found != avoid && !locked
      ensures old(cache.store.shown) <= cache.store.shown
      ensures found.Some? ==> |cache.store.shown| > |old(cache.store.shown)| && Shows(found.value)
      ensures avoid.None? ==> FirstServes(old(cache.store.shown), cache.store.shown,
                                          if found.Some? then Loaded(found.value, true) else ProviderError)
      ensures cache.store.failures >= old(cache.store.failures)
      ensures avoid.None? && cfg.enabled && cache.store.failures == old(cache.store.failures) ==>
        |cache.store.shown| > |old(cache.store.shown)|
      ensures found.None? && !locked && cfg.enabled ==>
        || cache.store.failures > old(cache.store.failures) || cache.store.now >= old(cache.store.now) + cfg.wait
        || (|cache.store.shown| > |old(cache.store.shown)| && Refuses(cache.store.shown[|cache.store.shown| - 1]))
      ensures cache.store.now >= old(cache.store.now)
      ensures Steady(cache.store.drawn - {token}, old(cache.store.lock), cache.store.lock, cache.store.now)
      ensures cache.store.acquired == old(cache.store.acquired) + if locked then {token} else {}
    {
      locked := false;
      if avoid.None? {
        var cached := cache.ReadValue();
        if cached.Hit? {
          if cfg.accepts(cached.payload) { return Some(cached.payload), locked; }
          cache.Reject();
        }
      }
      locked := cache.AcquireRefreshLock(token);
      if !locked && cfg.enabled {
        found := AwaitOther(avoid);
        return;
      }
      found := None;
    }

    method AwaitOther(avoid: Option<Payload>) returns (found: Option<Payload>)
      requires cfg == cache.cfg && cfg.enabled
      modifies cache.store`now, cache.store`value, cache.store`lock
      modifies cache.store`shown, cache.store`failures
      ensures cache.store.now >= old(cache.store.now) && cache.store.failures >= old(cache.store.failures)
      ensures Steady(cache.store.drawn, old(cache.store.lock), cache.store.lock, cache.store.now)
      ensures old(cache.store.shown) <= cache.store.shown
      ensures found.Some? ==> cfg.accepts(found.value) && found != avoid
      ensures found.Some? ==> |cache.store.shown| > |old(cache.store.shown)| && Shows(found.value)
      ensures avoid.None? ==> FirstServes(old(cache.store.shown), cache.store.shown,
                                          if found.Some? then Loaded(found.value, true) else ProviderError)
      ensures found.None? ==>
        || cache.store.failures > old(cache.store.failures) || cache.store.now >= old(cache.store.now) + cfg.wait
        || (|cache.store.shown| > |old(cache.store.shown)| && Refuses(cache.store.shown[|cache.store.shown| - 1]))
    {
      var waited, _ := cache.WaitForValue(avoid);
      if waited.Hit? {
        if cfg.accepts(waited.payload) { return Some(waited.payload); }
        cache.Reject();
      }
      found := None;
    }

    /** Fetches, stores what the validator accepts, and releases the lock in any case. */
    method Fetch(token: string, locked: bool, response: Option<Payload>) returns (r: Loaded)
      requires cfg == cache.cfg && token in cache.store.drawn
      modifies cache.store
      ensures r == Direct(cfg, response) && cache.store.shown == old(cache.store.shown)
      ensures cache.store.failures >= old(cache.store.failures)
      ensures cache.store.drawn == old(cache.store.drawn) && cache.store.acquired == old(cache.store.acquired)
      ensures cache.store.released == old(cache.store.released) + if locked then {token} else {}
      ensures old(cache.store.removed) <= cache.store.removed <= old(cache.store.removed) + {token}
      ensures cache.store.now >= old(cache.store.now)
      ensures Steady(cache.store.drawn - {token}, old(cache.store.lock), cache.store.lock, cache.store.now)
      ensures cache.store.offered == old(cache.store.offered) +
        if r.Loaded? && cache.Storable(r.payload) then [(cfg.serialize(r.payload), cfg.ttl)] else []
    {
      cache.store.Others();
      if response.Some? && cfg.accepts(response.value) {
        var _ := cache.Write(response.value);
        r := Loaded(response.value, false);
      } else {
        r := ProviderError;
      }
      if locked {
        cache.store.Others();
        var _ := cache.store.ReleaseLock(token);
      }
    }

    /** Looks the key up, and once more in a refreshed document when a cached one lacks it. `hasKey`
        tells whether a key set contains the key that the token names. */
    method FindSigningKey(
      hasKey: Payload -> bool, token1: string, token2: string, response1: Option<Payload>, response2: Option<Payload>)
      returns (r: KeyResult, ghost fetched: seq<Option<Payload>>, ghost first: Loaded, ghost last: Loaded)
      requires cfg == cache.cfg && token1 != token2
      requires !cache.store.Holds(token1) && !cache.store.Holds(token2)
      requires token1 !in cache.store.acquired && token2 !in cache.store.acquired
      modifies cache.store
      ensures |fetched| <= 2
      ensures r.Found? ==> last.Loaded? && r.payload == last.payload && cfg.accepts(r.payload) && hasKey(r.payload)
      ensures r.Found? && last.fromCache ==> Shows(r.payload)
      ensures r.KeyMissing? ==>
        && last.Loaded? && cfg.accepts(last.payload) && !hasKey(last.payload)
        && (last.fromCache ==>
              first.Loaded? && first.fromCache && !hasKey(first.payload) && first.payload != last.payload)
      ensures r.LoadFailed? ==> fetched != [] && Direct(cfg, fetched[|fetched| - 1]).ProviderError?
      ensures !cfg.enabled ==> fetched == [response1] && r == KeyDirect(cfg, hasKey, response1)
      ensures cache.store.removed <= old(cache.store.removed) + {token1, token2}
      ensures Steady(
        old(cache.store.drawn) - {token1, token2}, old(cache.store.lock), cache.store.lock, cache.store.now)
    {
      cache.store.drawn := cache.store.drawn + {token1, token2};
      var loaded, fetched1 := Load(None, token1, response1);
      fetched, first, last := fetched1, loaded, loaded;
      if loaded.ProviderError? { return LoadFailed, fetched, first, last; }
      var payload := loaded.payload;
      if !hasKey(payload) && loaded.fromCache {
        var again, fetched2 := Load(Some(payload), token2, response2);
        fetched, last := fetched1 + fetched2, again;
        if again.ProviderError? { return LoadFailed, fetched, first, last; }
        payload := again.payload;
      }
      r := if hasKey(payload) then Found(payload) else KeyMissing;
    }
  }
}
