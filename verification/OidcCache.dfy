/** The shared cache of public provider documents and its refresh lock, under arbitrary interference.

    One `SharedStore` stands for the cache entry and the refresh lock of one document. Instants are
    milliseconds. Every store operation may fail, before or after it took effect, and between
    operations other clients may do anything to both, except store a lock token that was drawn here. */
module OidcCache {
  import opened Common

  type Payload = string

  /** `parse` yields the stored bytes as a JSON object, if they are one, and `accepts` is the
      validator of the document. */
  datatype Config = Config(
    enabled: bool,
    maxBytes: nat,
    ttl: nat,
    lockTtl: nat,
    wait: nat,
    parse: string -> Option<Payload>,
    serialize: Payload -> string,
    accepts: Payload -> bool)

  datatype Lock = Lock(token: string, expiresAt: nat)

  datatype Read = Hit(payload: Payload) | Miss | Invalid | ReadError | Disabled

  /** Milliseconds between two polls. */
  const POLL: nat := 50

  /** Whether the lock may have gone from `before` to `after` by `now` without the holder of one of the
      tokens doing anything: no such token gains the lock, and none loses it before it expires. */
  predicate Steady(tokens: set<string>, before: Option<Lock>, after: Option<Lock>, now: nat) {
    && (after.Some? && after.value.token in tokens ==> after == before)
    && (before.Some? && before.value.token in tokens && now <= before.value.expiresAt ==> after == before)
  }

  /** `drawn` holds the lock tokens that this client drew, and no other client can draw. The ghost
      fields are the history of this client: the tokens that it knows to have taken the lock with,
      tried to release and deleted, the values that it tried to store and for how long, the contents of
      the entry that it was shown, and the number of operations that failed. */
  class SharedStore {
    var now: nat
    var value: Option<string>
    var lock: Option<Lock>
    var drawn: set<string>
    ghost var acquired: set<string>
    ghost var released: set<string>
    ghost var removed: set<string>
    ghost var offered: seq<(string, nat)>
    ghost var shown: seq<Option<string>>
    ghost var failures: nat

    constructor ()
      ensures drawn == acquired == released == removed == {} && offered == [] && lock.None?
      ensures shown == [] && failures == 0
    {
      now, value, lock := 0, None, None;
      drawn, acquired, released, removed, offered := {}, {}, {}, {}, [];
      shown, failures := [], 0;
    }

    predicate Holds(token: string)
      reads this
    {
      lock.Some? && lock.value.token == token
    }

    /** Other clients, expiry of keys, and the passage of time. */
    method Others()
      modifies this`now, this`value, this`lock
      ensures now >= old(now) && Steady(drawn, old(lock), lock, now)
    {
      var elapsed: nat, newValue: Option<string>, newLock: Option<Lock> := *, *, *;
      now, value := now + elapsed, newValue;
      var held := lock.Some? && lock.value.token in drawn && now <= lock.value.expiresAt;
      if !held && (newLock.None? || newLock.value.token !in drawn) { lock := newLock; }
    }

    method Sleep(duration: nat)
      modifies this`now, this`value, this`lock
      ensures now >= old(now) + duration && Steady(drawn, old(lock), lock, now)
    {
      Others();
      now := now + duration;
    }

    method Get() returns (ok: bool, v: Option<string>)
      modifies this`shown, this`failures
      ensures ok ==> v == value && shown == old(shown) + [value] && failures == old(failures)
      ensures !ok ==> shown == old(shown) && failures == old(failures) + 1
    {
      ok := *;
      v := value;
      if ok { shown := shown + [value]; } else { failures := failures + 1; }
    }

    method Set(v: string, ttl: nat) returns (ok: bool)
      modifies this`value, this`offered, this`failures
      ensures value == Some(v) || (!ok && value == old(value))
      ensures offered == old(offered) + [(v, ttl)]
      ensures failures == old(failures) + if ok then 0 else 1
    {
      var done: bool, answered: bool := *, *;
      ok := done && answered;
      offered := offered + [(v, ttl)];
      if !ok { failures := failures + 1; }
      if done { value := Some(v); }
    }

    method Delete() returns (ok: bool)
      modifies this`value, this`failures
      ensures value == None || (!ok && value == old(value))
      ensures failures == old(failures) + if ok then 0 else 1
    {
      var done: bool, answered: bool := *, *;
      ok := done && answered;
      if !ok { failures := failures + 1; }
      if done { value := None; }
    }

    /** SET ... NX EX: takes the lock only when nobody holds it or it has expired. A lock whose answer
        is lost stays until it expires. */
    method SetLock(token: string, ttl: nat) returns (taken: bool)
      requires token in drawn
      modifies this`lock, this`acquired, this`failures
      ensures lock == Some(Lock(token, now + ttl)) || (!taken && lock == old(lock))
      ensures lock != old(lock) ==> old(lock).None? || old(lock).value.expiresAt < now
      ensures taken ==> old(lock).None? || old(lock).value.expiresAt < now
      ensures failures == old(failures) || failures == old(failures) + 1
      ensures failures == old(failures) && !taken ==> lock.Some? && now <= lock.value.expiresAt
      ensures acquired == old(acquired) + if taken then {token} else {}
    {
      var done: bool, answered: bool := *, *;
      if !done || !answered { failures := failures + 1; }
      var free := lock.None? || lock.value.expiresAt < now;
      taken := done && answered && free;
      if done && free { lock := Some(Lock(token, now + ttl)); }
      if taken { acquired := acquired + {token}; }
    }

    /** The release script: deletes the lock only if it still carries the token. */
    method ReleaseLock(token: string) returns (ok: bool)
      modifies this`lock, this`released, this`removed, this`failures
      ensures (lock == old(lock) && removed == old(removed)) ||
        (old(Holds(token)) && lock.None? && removed == old(removed) + {token})
      ensures ok ==> !Holds(token)
      ensures failures == old(failures) + if ok then 0 else 1
      ensures released == old(released) + {token}
    {
      var done: bool, answered: bool := *, *;
      ok := done && answered;
      if !ok { failures := failures + 1; }
      released := released + {token};
      if done && lock.Some? && lock.value.token == token {
        lock := None;
        removed := removed + {token};
      }
    }
  }

  /** What a read answers when it is shown `v`. */
  predicate Reads(cfg: Config, v: Option<string>, r: Read) {
    match r
    case Hit(payload) => v.Some? && |v.value| <= cfg.maxBytes && cfg.parse(v.value) == Some(payload)
    case Miss => v.None?
    case Invalid => v.Some? && (|v.value| > cfg.maxBytes || cfg.parse(v.value).None?)
    case ReadError => false
    case Disabled => false
  }

  /** A wait goes on when it is shown `v`: nothing is stored, or the document to be avoided. */
  predicate Passes(cfg: Config, v: Option<string>, avoid: Option<Payload>) {
    Reads(cfg, v, Miss) || (avoid.Some? && Reads(cfg, v, Hit(avoid.value)))
  }

  /** The client's view of the entry of one document. */
  class DocumentCache {
    const cfg: Config
    const store: SharedStore

    constructor (cfg: Config, store: SharedStore)
      ensures this.cfg == cfg && this.store == store
    {
      this.cfg, this.store := cfg, store;
    }

    method ReadValue() returns (r: Read)
      modifies store`now, store`value, store`lock, store`shown, store`failures
      ensures store.now >= old(store.now) && Steady(store.drawn, old(store.lock), store.lock, store.now)
      ensures r.Disabled? <==> !cfg.enabled
      ensures store.failures >= old(store.failures)
      ensures r.ReadError? ==> store.failures > old(store.failures)
      ensures r.Disabled? || r.ReadError? ==> store.shown == old(store.shown)
      ensures !r.Disabled? && !r.ReadError? ==>
        exists v :: store.shown == old(store.shown) + [v] && Reads(cfg, v, r)
    {
      if !cfg.enabled { return Disabled; }
      store.Others();
      var ok, bytes := store.Get();
      if !ok { return ReadError; }
      if bytes.None? { return Miss; }
      if |bytes.value| > cfg.maxBytes {
        Reject();
        return Invalid;
      }
      var payload := cfg.parse(bytes.value);
      if payload.None? {
        Reject();
        return Invalid;
      }
      r := Hit(payload.value);
    }

    /** Somebody else's newer value may be what is deleted. */
    method Reject()
      modifies store`now, store`value, store`lock, store`failures
      ensures store.value.None? || store.failures > old(store.failures)
      ensures store.failures >= old(store.failures)
      ensures store.now >= old(store.now) && Steady(store.drawn, old(store.lock), store.lock, store.now)
    {
      store.Others();
      var _ := store.Delete();
    }

    predicate Storable(payload: Payload) {
      cfg.enabled && |cfg.serialize(payload)| <= cfg.maxBytes
    }

    /** An oversized document is not stored. */
    method Write(payload: Payload) returns (written: bool)
      modifies store`value, store`offered, store`failures
      ensures written ==> Storable(payload)
      ensures store.failures >= old(store.failures)
      ensures Storable(payload) && !written ==> store.failures > old(store.failures)
      ensures store.value == Some(cfg.serialize(payload)) || (!written && store.value == old(store.value))
      ensures store.offered == old(store.offered) + if Storable(payload) then [(cfg.serialize(payload), cfg.ttl)] else []
    {
      if !cfg.enabled { return false; }
      var bytes := cfg.serialize(payload);
      if |bytes| > cfg.maxBytes { return false; }
      written := store.Set(bytes, cfg.ttl);
    }

    method AcquireRefreshLock(token: string) returns (taken: bool)
      requires token in store.drawn
      modifies store`now, store`value, store`lock, store`acquired, store`failures
      ensures taken ==> cfg.enabled && store.lock == Some(Lock(token, store.now + cfg.lockTtl))
      ensures store.failures >= old(store.failures)
      ensures cfg.enabled && !taken ==>
        store.failures > old(store.failures) || (store.lock.Some? && store.now <= store.lock.value.expiresAt)
      ensures store.now >= old(store.now) && Steady(store.drawn - {token}, old(store.lock), store.lock, store.now)
      ensures store.acquired == old(store.acquired) + if taken then {token} else {}
    {
      if !cfg.enabled { return false; }
      store.Others();
      taken := store.SetLock(token, cfg.lockTtl);
    }

    /** Polls for a value that differs from `avoid`, until the deadline: it stops at the first poll that
        fails or is shown anything else. */
    method WaitForValue(avoid: Option<Payload>) returns (r: Read, ghost polls: nat)
      modifies store`now, store`value, store`lock, store`shown, store`failures
      ensures r.Hit? ==> Some(r.payload) != avoid
      ensures old(store.shown) <= store.shown
      ensures r.Hit? || r.Invalid? ==>
        |store.shown| > |old(store.shown)| && Reads(cfg, store.shown[|store.shown| - 1], r)
      ensures var last := |store.shown| - if r.Hit? || r.Invalid? then 1 else 0;
        forall k :: |old(store.shown)| <= k < last ==> Passes(cfg, store.shown[k], avoid)
      ensures r.Miss? ==> store.now >= old(store.now) + cfg.wait
      ensures r.Disabled? ==> !cfg.enabled
      ensures store.failures >= old(store.failures) && (r.ReadError? ==> store.failures > old(store.failures))
      ensures polls > 0 ==> (polls - 1) * POLL < cfg.wait
      ensures store.now >= old(store.now) && Steady(store.drawn, old(store.lock), store.lock, store.now)
    {
      var deadline := store.now + cfg.wait;
      polls := 0;
      while store.now < deadline
        invariant store.now >= old(store.now)
        invariant polls * POLL <= store.now - old(store.now) || store.now >= deadline
        invariant polls > 0 ==> (polls - 1) * POLL < cfg.wait
        invariant Steady(store.drawn, old(store.lock), store.lock, store.now)
        invariant old(store.shown) <= store.shown && store.failures >= old(store.failures)
        invariant forall k :: |old(store.shown)| <= k < |store.shown| ==> Passes(cfg, store.shown[k], avoid)
        decreases deadline - store.now
      {
        assert polls * POLL < cfg.wait;
        ghost var started := store.now;
        store.Others();
        var remaining := if store.now < deadline then deadline - store.now else 0;
        var duration := if remaining < POLL then remaining else POLL;
        store.Sleep(duration);
        polls := polls + 1;
        assert store.now > started;
        var result := ReadValue();
        if (result.Hit? && Some(result.payload) != avoid) || result.ReadError? || result.Invalid? || result.Disabled? {
          return result, polls;
        }
      }
      r := Miss;
    }
  }
}
