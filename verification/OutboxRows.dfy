/** The outbox table: its rows, and the transactions that workers run against it.

    Times are microseconds. A transaction is a method of `OutboxTable`; what it does to the rows is
    given by a function of the old rows, and the protocol in `OutboxProtocol` is built from those. */
module OutboxRows {
  import opened Common

  type MessageId = nat
  type Owner = string

  const SECOND: int := 1_000_000

  type TwoBytes = n: nat | n < 0x1_0000

  /** `digest` yields the first two bytes of the hash of a message id and an attempt number. */
  datatype Settings = Settings(
    batchSize: nat, leaseSeconds: nat, maxAttempts: nat, backoffBase: nat, backoffMax: nat,
    digest: (MessageId, nat) -> TwoBytes)
  {
    /** The bounds that configuration loading enforces before a worker may run. */
    predicate Valid() {
      0 < batchSize && 0 < leaseSeconds && 0 < maxAttempts && 1 <= backoffBase <= backoffMax && backoffBase <= 3600
    }

    function Lease(): int { leaseSeconds * SECOND }

    /** No two claims of one message are closer than this. */
    function Gap(): int { (if leaseSeconds < backoffBase then leaseSeconds else backoffBase) * SECOND }
  }

  datatype Status = Pending | Processing | Succeeded | DeadLetter

  datatype Category = Smtp | Expired | InvalidPayload

  datatype Row = Row(
    status: Status,
    attempts: nat,
    createdAt: int,
    availableAt: int,
    payloadExpiresAt: int,
    payload: Option<string>,
    leaseOwner: Option<Owner>,
    leaseExpiresAt: Option<int>,
    failure: Option<Category>,
    terminalAt: Option<int>)

  /** The snapshot of a claimed row that a worker carries while it delivers the message. */
  datatype Claim = Claim(
    id: MessageId, payload: Option<string>, payloadExpiresAt: int, attempts: nat, recovered: bool)

  datatype Outcome = Retried | DeadLettered

  /** The two CHECK constraints on the lease columns and on the terminal columns. */
  predicate Consistent(r: Row) {
    && (r.status.Processing? <==> r.leaseOwner.Some?)
    && (r.status.Processing? <==> r.leaseExpiresAt.Some?)
    && (r.status.Succeeded? || r.status.DeadLetter? <==> r.terminalAt.Some?)
    && (r.status.Succeeded? || r.status.DeadLetter? <==> r.payload.None?)
  }

  function NewRow(at: int, expiresAt: int, payload: string): Row {
    Row(Pending, 0, at, at, expiresAt, Some(payload), None, None, None, None)
  }

  // ----- Claiming -----

  predicate Eligible(r: Row, now: int) {
    || (r.status.Pending? && r.availableAt <= now)
    || (r.status.Processing? && r.leaseExpiresAt.Some? && r.leaseExpiresAt.value <= now)
  }

  predicate Before(a: Row, b: Row) {
    a.availableAt < b.availableAt || (a.availableAt == b.availableAt && a.createdAt <= b.createdAt)
  }

  /** A result the claiming query may return: at most a batch of due rows, none of them locked by
      another transaction, oldest first, and none passed over while there was room for it. */
  ghost predicate IsQueryResult(
    rows: map<MessageId, Row>, locked: set<MessageId>, now: int, batchSize: nat, ids: seq<MessageId>)
  {
    && Distinct(ids)
    && |ids| <= batchSize
    && (forall id :: id in ids ==> id in rows && id !in locked && Eligible(rows[id], now))
    && (forall i, j :: 0 <= i < j < |ids| ==> Before(rows[ids[i]], rows[ids[j]]))
    && (forall id :: id in rows && id !in locked && Eligible(rows[id], now) && id !in ids ==>
          |ids| == batchSize && forall k :: k in ids ==> Before(rows[k], rows[id]))
  }

  function ClaimRow(cfg: Settings, r: Row, owner: Owner, now: int): Row {
    r.(status := Processing, leaseOwner := Some(owner), leaseExpiresAt := Some(now + cfg.Lease()),
       attempts := r.attempts + 1)
  }

  function ClaimRows(
    cfg: Settings, rows: map<MessageId, Row>, ids: seq<MessageId>, owner: Owner, now: int)
    : map<MessageId, Row>
  {
    map id | id in rows :: if id in ids then ClaimRow(cfg, rows[id], owner, now) else rows[id]
  }

  function Snapshot(id: MessageId, before: Row): Claim {
    Claim(id, before.payload, before.payloadExpiresAt, before.attempts + 1, before.status.Processing?)
  }

  function Snapshots(rows: map<MessageId, Row>, ids: seq<MessageId>): (claims: seq<Claim>)
    requires forall id :: id in ids ==> id in rows
  {
    seq(|ids|, i requires 0 <= i < |ids| => assert ids[i] in ids; Snapshot(ids[i], rows[ids[i]]))
  }

  /** The claim carries what its receiver needs of the row as it was. */
  predicate Carries(c: Claim, id: MessageId, before: Row) {
    && c.id == id && c.payload == before.payload && c.payloadExpiresAt == before.payloadExpiresAt
    && c.attempts == before.attempts + 1
    && (c.recovered <==> before.status.Processing?)
  }

  /** The lease, one more attempt, and nothing else. */
  predicate LeasedTo(before: Row, after: Row, owner: Owner, until: int) {
    && after.status.Processing? && after.leaseOwner == Some(owner) && after.leaseExpiresAt == Some(until)
    && after.attempts == before.attempts + 1
    && after == Row(after.status, after.attempts, before.createdAt, before.availableAt, before.payloadExpiresAt,
                    before.payload, after.leaseOwner, after.leaseExpiresAt, before.failure, before.terminalAt)
  }

  // ----- Finalising -----

  /** The condition of every finalising update: the row is still leased to this worker. */
  predicate Owned(rows: map<MessageId, Row>, id: MessageId, owner: Owner) {
    id in rows && rows[id].status.Processing? && rows[id].leaseOwner == Some(owner)
  }

  function OwnedUpdate(rows: map<MessageId, Row>, id: MessageId, owner: Owner, update: Row -> Row)
    : map<MessageId, Row>
  {
    if Owned(rows, id, owner) then rows[id := update(rows[id])] else rows
  }

  function SucceedRow(r: Row, at: int): Row {
    r.(status := Succeeded, payload := None, leaseOwner := None, leaseExpiresAt := None,
       failure := None, terminalAt := Some(at))
  }

  function DeadLetterRow(r: Row, at: int, category: Category): Row {
    r.(status := DeadLetter, payload := None, availableAt := at, leaseOwner := None,
       leaseExpiresAt := None, failure := Some(category), terminalAt := Some(at))
  }

  function RetryRow(r: Row, at: int, delay: nat, category: Category): Row {
    r.(status := Pending, availableAt := at + delay * SECOND, leaseOwner := None,
       leaseExpiresAt := None, failure := Some(category))
  }

  function Pow2(n: nat): nat {
    if n == 0 then 1 else 2 * Pow2(n - 1)
  }

  function Min(a: int, b: int): int {
    if a <= b then a else b
  }

  function Max(a: int, b: int): int {
    if a <= b then b else a
  }

  /** The capped exponential part of the delay before attempt `attempts + 1`. */
  function Exponential(cfg: Settings, attempts: nat): int
    requires 1 <= attempts
  {
    Min(cfg.backoffMax, cfg.backoffBase * Pow2(attempts - 1))
  }

  /** Seconds to wait after a failed attempt. */
  function RetryDelay(cfg: Settings, attempts: nat, digest: TwoBytes): (delay: nat)
    requires cfg.Valid() && 1 <= attempts
    ensures cfg.backoffBase <= delay <= cfg.backoffMax
    ensures delay >= Min(cfg.backoffMax, cfg.backoffBase * Pow2(attempts - 1))
  {
    PowPositive(attempts - 1);
    ScaledUp(cfg.backoffBase, Pow2(attempts - 1));
    var exponential := Exponential(cfg, attempts);
    var jitter := digest % (JitterLimit(cfg, exponential) + 1);
    Min(cfg.backoffMax, exponential + jitter)
  }

  function JitterLimit(cfg: Settings, exponential: int): int {
    Max(1, Min(cfg.backoffBase, exponential / 4))
  }

  /** The delay of one message: its jitter is fixed by the message and the attempt. */
  function DelayOf(cfg: Settings, id: MessageId, attempts: nat): nat
    requires cfg.Valid() && 1 <= attempts
  {
    RetryDelay(cfg, attempts, cfg.digest(id, attempts))
  }

  /** The jitters that the source permits on top of the capped exponential `e`: at most the base and a
      quarter of `e`, but always one second. */
  predicate Permitted(cfg: Settings, e: int, jitter: int) {
    0 <= jitter && (jitter <= 1 || (jitter <= cfg.backoffBase && 4 * jitter <= e))
  }

  /** A delay is possible exactly when it lies a permitted jitter above the capped exponential, and
      within the maximum. */
  lemma RetryDelayRange(cfg: Settings, attempts: nat, delay: nat)
    requires cfg.Valid() && 1 <= attempts
    ensures (exists digest: TwoBytes :: RetryDelay(cfg, attempts, digest) == delay) <==>
      var e := Min(cfg.backoffMax, cfg.backoffBase * Pow2(attempts - 1));
      delay <= cfg.backoffMax && Permitted(cfg, e, delay - e)
  {
    var e := Min(cfg.backoffMax, cfg.backoffBase * Pow2(attempts - 1));
    PowPositive(attempts - 1);
    ScaledUp(cfg.backoffBase, Pow2(attempts - 1));
    var most := JitterLimit(cfg, e);
    LargestJitter(cfg, e);
    if exists digest: TwoBytes :: RetryDelay(cfg, attempts, digest) == delay {
      var digest: TwoBytes :| RetryDelay(cfg, attempts, digest) == delay;
      Remainder(digest, most + 1);
    }
    if delay <= cfg.backoffMax && Permitted(cfg, e, delay - e) {
      SmallRemainder(delay - e, most + 1);
      assert RetryDelay(cfg, attempts, delay - e) == delay;
    }
  }

  lemma LargestJitter(cfg: Settings, e: int)
    requires cfg.Valid() && e >= 1
    ensures 1 <= JitterLimit(cfg, e) <= 3600
    ensures forall j: int :: Permitted(cfg, e, j) <==> 0 <= j <= JitterLimit(cfg, e)
  {
  }

  lemma Remainder(a: nat, b: nat)
    requires b > 0
    ensures 0 <= a % b < b
  {
  }

  /** As the digest grows the jitter runs through the permitted values in turn, from none to the
      greatest, and starts again. */
  lemma RetryDelayCycle(cfg: Settings, attempts: nat, digest: TwoBytes, most: nat)
    requires cfg.Valid() && 1 <= attempts
    requires var e := Min(cfg.backoffMax, cfg.backoffBase * Pow2(attempts - 1));
      Permitted(cfg, e, most) && !Permitted(cfg, e, most + 1)
    ensures RetryDelay(cfg, attempts, digest) ==
      Min(cfg.backoffMax, Min(cfg.backoffMax, cfg.backoffBase * Pow2(attempts - 1)) + digest % (most + 1))
  {
    var e := Min(cfg.backoffMax, cfg.backoffBase * Pow2(attempts - 1));
    PowPositive(attempts - 1);
    ScaledUp(cfg.backoffBase, Pow2(attempts - 1));
    LargestJitter(cfg, e);
    assert most == JitterLimit(cfg, e);
  }

  lemma SmallRemainder(a: nat, b: nat)
    requires a < b
    ensures a % b == a
  {
  }

  lemma {:induction false} PowPositive(n: nat)
    ensures Pow2(n) >= 1
  {
    if n > 0 { PowPositive(n - 1); }
  }

  lemma ScaledUp(a: nat, b: nat)
    requires b >= 1
    ensures a * b >= a
  {
    assert a * b == a + a * (b - 1);
  }

  /** Later attempts never wait less, whatever jitter either of the two draws. */
  lemma {:induction false} RetryDelayGrows(cfg: Settings, m: nat, n: nat, digestM: TwoBytes, digestN: TwoBytes)
    requires cfg.Valid() && 1 <= m < n
    ensures RetryDelay(cfg, m, digestM) <= RetryDelay(cfg, n, digestN)
    decreases n - m
  {
    if m + 1 == n {
      var p := Pow2(m - 1);
      PowPositive(m - 1);
      ScaledUp(cfg.backoffBase, p);
      assert cfg.backoffBase * Pow2(m) == 2 * (cfg.backoffBase * p);
    } else {
      RetryDelayGrows(cfg, m, n - 1, digestM, digestN);
      RetryDelayGrows(cfg, n - 1, n, digestN, digestN);
    }
  }

  /** The least time between claim `k` of a message and the next one: a lease, or the retry delay as
      long as there are retries left. */
  function LeastGap(cfg: Settings, id: MessageId, k: nat): (gap: int)
    requires cfg.Valid() && 1 <= k
    ensures cfg.Gap() <= gap <= cfg.Lease()
  {
    (if k < cfg.maxAttempts then Min(cfg.leaseSeconds, DelayOf(cfg, id, k)) else cfg.leaseSeconds) * SECOND
  }

  /** Whether a failed claim ends the message. It is decided on the worker's snapshot. */
  predicate Terminal(cfg: Settings, c: Claim, retryable: bool, at: int) {
    !retryable || c.attempts >= cfg.maxAttempts || c.payloadExpiresAt <= at
  }

  function FailRow(
    cfg: Settings, r: Row, c: Claim, category: Category, retryable: bool, at: int): Row
    requires cfg.Valid() && 1 <= c.attempts
  {
    if Terminal(cfg, c, retryable, at) then DeadLetterRow(r, at, category)
    else RetryRow(r, at, DelayOf(cfg, c.id, c.attempts), category)
  }

  class OutboxTable {
    const cfg: Settings
    var rows: map<MessageId, Row>

    constructor (cfg: Settings)
      ensures this.cfg == cfg && rows == map[]
    {
      this.cfg := cfg;
      rows := map[];
    }

    method Enqueue(id: MessageId, at: int, expiresAt: int, payload: string)
      requires id !in rows
      modifies this
      ensures rows == old(rows)[id := NewRow(at, expiresAt, payload)]
    {
      rows := rows[id := Row(Pending, 0, at, at, expiresAt, Some(payload), None, None, None, None)];
    }

    /** Leases to `owner` every row that the query returned, row by row, in one transaction. */
    method ClaimMessages(owner: Owner, now: int, ids: seq<MessageId>, ghost locked: set<MessageId>)
      returns (result: seq<Claim>)
      requires IsQueryResult(rows, locked, now, cfg.batchSize, ids)
      modifies this
      ensures rows == ClaimRows(cfg, old(rows), ids, owner, now)
      ensures result == Snapshots(old(rows), ids)
      ensures forall k :: 0 <= k < |ids| ==> Carries(result[k], ids[k], old(rows)[ids[k]])
      ensures forall id :: id in ids ==> LeasedTo(old(rows)[id], rows[id], owner, now + cfg.leaseSeconds * SECOND)
    {
      var leaseExpiresAt := now + cfg.leaseSeconds * SECOND;
      result := [];
      for i := 0 to |ids|
        invariant rows == ClaimRows(cfg, old(rows), ids[..i], owner, now)
        invariant |result| == i
        invariant forall k :: 0 <= k < i ==> result[k] == Snapshot(ids[k], old(rows)[ids[k]])
      {
        var id := ids[i];
        assert id !in ids[..i] && ids[..i + 1] == ids[..i] + [id];
        var message := rows[id];
        var recovered := message.status.Processing?;
        message := message.(status := Processing, leaseOwner := Some(owner));
        message := message.(leaseExpiresAt := Some(leaseExpiresAt));
        message := message.(attempts := message.attempts + 1);
        rows := rows[id := message];
        result := result + [
          Claim(id, message.payload, message.payloadExpiresAt, message.attempts, recovered)];
      }
      assert ids[..|ids|] == ids;
      forall k | 0 <= k < |ids| ensures Carries(result[k], ids[k], old(rows)[ids[k]]) {
        assert result[k] == Snapshot(ids[k], old(rows)[ids[k]]);
      }
    }

    method MarkSucceeded(c: Claim, owner: Owner, now: int) returns (updated: bool)
      modifies this
      ensures updated <==> Owned(old(rows), c.id, owner)
      ensures rows == OwnedUpdate(old(rows), c.id, owner, r => SucceedRow(r, now))
    {
      updated := false;
      if Owned(rows, c.id, owner) {
        var message := rows[c.id];
        message := message.(status := Succeeded, payload := None, failure := None);
        message := message.(leaseOwner := None, leaseExpiresAt := None, terminalAt := Some(now));
        rows := rows[c.id := message];
        updated := true;
      }
    }

    /** `None` means that the lease was lost and nothing was written. */
    method MarkFailed(c: Claim, owner: Owner, category: Category, retryable: bool, now: int)
      returns (outcome: Option<Outcome>)
      requires cfg.Valid() && 1 <= c.attempts
      modifies this
      ensures rows == OwnedUpdate(old(rows), c.id, owner,
                                  r => FailRow(cfg, r, c, category, retryable, now))
      ensures outcome.Some? <==> Owned(old(rows), c.id, owner)
      ensures outcome.Some? ==> (outcome.value.DeadLettered? <==> rows[c.id].status.DeadLetter?)
    {
      if !Owned(rows, c.id, owner) { return None; }
      var message := rows[c.id].(leaseOwner := None, leaseExpiresAt := None, failure := Some(category));
      if !retryable || c.attempts >= cfg.maxAttempts || c.payloadExpiresAt <= now {
        outcome := Some(DeadLettered);
        message := message.(status := DeadLetter, payload := None, availableAt := now);
        message := message.(terminalAt := Some(now));
      } else {
        outcome := Some(Retried);
        var delay := RetryDelay(cfg, c.attempts, cfg.digest(c.id, c.attempts));
        message := message.(status := Pending, availableAt := now + delay * SECOND);
      }
      rows := rows[c.id := message];
    }
  }
}
