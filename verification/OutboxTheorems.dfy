/** What the outbox guarantees in every run, whatever the workers, crashes and clock readings. */
module OutboxTheorems {
  import opened Common
  import opened OutboxRows
  import opened OutboxProtocol
  import opened OutboxSafety

  ghost predicate Reachable(cfg: Settings, s: State)
    requires cfg.Valid()
  {
    exists actions :: s == Run(cfg, INIT, actions)
  }

  lemma ReachableInv(cfg: Settings, s: State)
    requires cfg.Valid() && Reachable(cfg, s)
    ensures Inv(cfg, s)
  {
    var actions :| s == Run(cfg, INIT, actions);
    InvAlways(cfg, actions);
  }

  // ----- Deliveries -----

  /** The least time from the first claim of a message to claim `n + 1`. */
  function LeastSpan(cfg: Settings, id: MessageId, n: nat): int
    requires cfg.Valid()
  {
    if n == 0 then 0 else LeastSpan(cfg, id, n - 1) + LeastGap(cfg, id, n)
  }

  lemma {:induction false} SpacedApart(cfg: Settings, id: MessageId, claims: seq<int>, k: nat)
    requires cfg.Valid() && Spaced(cfg, id, claims) && k < |claims|
    ensures claims[0] + LeastSpan(cfg, id, k) <= claims[k]
  {
    if k > 0 { SpacedApart(cfg, id, claims, k - 1); }
  }

  lemma {:induction false} LeastSpanGrows(cfg: Settings, id: MessageId, m: nat, n: nat)
    requires cfg.Valid() && m <= n
    ensures LeastSpan(cfg, id, m) <= LeastSpan(cfg, id, n)
  {
    if m < n { LeastSpanGrows(cfg, id, m, n - 1); }
  }

  lemma {:induction false} LeastSpanBound(cfg: Settings, id: MessageId, n: nat)
    requires cfg.Valid()
    ensures n * cfg.Gap() <= LeastSpan(cfg, id, n)
  {
    if n > 0 {
      LeastSpanBound(cfg, id, n - 1);
      assert n * cfg.Gap() == (n - 1) * cfg.Gap() + cfg.Gap();
    }
  }

  /** A message handed over `n` times has lived longer than the `n - 1` gaps between its claims: it
      is sent at most once per claim, and no claim made after the expiry leads to a send. */
  lemma SendBound(cfg: Settings, s: State, id: MessageId)
    requires cfg.Valid() && Reachable(cfg, s) && id in s.rows && LogOf(s, id).sends != []
    ensures LeastSpan(cfg, id, |LogOf(s, id).sends| - 1) < s.rows[id].payloadExpiresAt - s.rows[id].createdAt
    ensures (|LogOf(s, id).sends| - 1) * cfg.Gap() < s.rows[id].payloadExpiresAt - s.rows[id].createdAt
  {
    ReachableInv(cfg, s);
    assert RowOk(cfg, id, s.rows[id], s.log[id], s.clock);
    SendsSpan(cfg, id, s.rows[id], s.log[id]);
    LeastSpanBound(cfg, id, |s.log[id].sends| - 1);
  }

  lemma SendsSpan(cfg: Settings, id: MessageId, r: Row, l: Log)
    requires cfg.Valid() && Spaced(cfg, id, l.claims) && SendsOk(r, l) && l.sends != []
    requires forall i :: 0 <= i < |l.claims| ==> r.createdAt <= l.claims[i]
    ensures LeastSpan(cfg, id, |l.sends| - 1) < r.payloadExpiresAt - r.createdAt
  {
    var k := LargeElement(l.sends);
    SpacedApart(cfg, id, l.claims, l.sends[k] - 1);
    LeastSpanGrows(cfg, id, |l.sends| - 1, l.sends[k] - 1);
  }

  /** The number of workers that hold a claim of the message and have not yet sent it. */
  ghost function Waiting(s: State, id: MessageId): set<Owner> {
    set w | w in s.workers && HoldsUnsent(s.workers[w], id)
  }

  ghost predicate HoldsUnsent(p: Phase, id: MessageId) {
    p.Working? && exists i :: 0 <= i < |p.batch| && p.batch[i].id == id && !Handled(p.stage, i)
  }

  ghost function HeldAttempt(s: State, id: MessageId, w: Owner): nat {
    if w in s.workers && HoldsUnsent(s.workers[w], id) then
      var p := s.workers[w];
      var i :| 0 <= i < |p.batch| && p.batch[i].id == id && !Handled(p.stage, i);
      p.batch[i].attempts
    else 0
  }

  /** Deliveries made plus deliveries still to come never exceed the claims ever committed, which are
      what `attempt_count` counts; a message marked delivered was handed over at least once. */
  lemma DeliveryAccounting(cfg: Settings, s: State, id: MessageId)
    requires cfg.Valid() && Reachable(cfg, s) && id in s.rows
    ensures s.rows[id].attempts == |LogOf(s, id).claims|
    ensures |LogOf(s, id).sends| + |Waiting(s, id)| <= s.rows[id].attempts
    ensures s.rows[id].status.Succeeded? ==> LogOf(s, id).sends != []
  {
    ReachableInv(cfg, s);
    var r, l := s.rows[id], s.log[id];
    assert RowOk(cfg, id, r, l, s.clock);
    var owners := Waiting(s, id);
    var sent := Elements(l.sends);
    forall w | w in owners
      ensures 1 <= HeldAttempt(s, id, w) <= r.attempts && HeldAttempt(s, id, w) !in sent
    {
      assert PhaseOk(s, w, s.workers[w]);
    }
    forall v, w | v in owners && w in owners && v != w
      ensures HeldAttempt(s, id, v) != HeldAttempt(s, id, w)
    {
      assert Apart(s.workers[v], s.workers[w]);
    }
    DistinctCardinality(l.sends);
    DistinctNumbers(owners, w => HeldAttempt(s, id, w), sent, r.attempts);
  }

  // ----- Fencing -----

  /** The finalising update tests only the owner, yet it matches exactly when the worker's claim is
      still the latest claim of the row. */
  lemma Fencing(cfg: Settings, s: State, w: Owner, i: nat)
    requires cfg.Valid() && Reachable(cfg, s)
    requires PhaseOf(s, w).Working? && i < |PhaseOf(s, w).batch|
    ensures var c := PhaseOf(s, w).batch[i];
      c.id in s.rows && (Owned(s.rows, c.id, w) <==> s.rows[c.id].attempts == c.attempts)
  {
    ReachableInv(cfg, s);
    assert PhaseOk(s, w, s.workers[w]);
  }

  /** Whether row `r` is what the decision on claim `c`, taken at `at`, should make of it. */
  predicate Settled(cfg: Settings, c: Claim, decision: Decision, at: int, r: Row) {
    match decision
    case Delivered => r.status.Succeeded? && r.terminalAt == Some(at) && r.failure.None?
    case Failed(category, retryable) =>
      && r.failure == Some(category)
      && (r.status.DeadLetter? <==> !retryable || c.attempts >= cfg.maxAttempts || c.payloadExpiresAt <= at)
      && (r.status.DeadLetter? ==> r.terminalAt == Some(at) && r.availableAt == at)
      && (r.status.DeadLetter? || r.status.Pending?)
      && (r.status.Pending? ==>
            1 <= c.attempts && cfg.Valid() && r.availableAt == at + DelayOf(cfg, c.id, c.attempts) * SECOND)
  }

  /** A stale claim changes no row; a current one changes exactly its own row, to delivered, to a
      retry within the configured delays, or to a dead letter. */
  lemma FinalizeEffect(cfg: Settings, s: State, w: Owner)
    requires cfg.Valid() && Reachable(cfg, s) && Enabled(cfg, s, Finalize(w))
    ensures var p, s' := PhaseOf(s, w), Step(cfg, s, Finalize(w));
      var c := p.batch[0];
      && c.id in s.rows && c.id in s'.rows
      && (s.rows[c.id].attempts != c.attempts ==> s'.rows == s.rows)
      && (s.rows[c.id].attempts == c.attempts ==>
            && Settled(cfg, c, p.stage.decision, p.stage.at, s'.rows[c.id])
            && s'.rows[c.id].attempts == c.attempts
            && forall id :: id in s.rows && id != c.id ==> id in s'.rows && s'.rows[id] == s.rows[id])
  {
    Fencing(cfg, s, w, 0);
  }

  // ----- Payloads -----

  lemma StepKeepsOrigin(cfg: Settings, s: State, a: Action, id: MessageId)
    requires cfg.Valid() && Inv(cfg, s) && id in s.log
    ensures id in Step(cfg, s, a).log && Step(cfg, s, a).log[id].origin == s.log[id].origin
  {
  }

  lemma {:induction false} RunKeepsOrigin(cfg: Settings, s: State, actions: seq<Action>, id: MessageId)
    requires cfg.Valid() && Inv(cfg, s) && id in s.log
    ensures var s' := Run(cfg, s, actions);
      Inv(cfg, s') && id in s'.log && s'.log[id].origin == s.log[id].origin
  {
    if actions != [] {
      var before := actions[..|actions| - 1];
      RunKeepsOrigin(cfg, s, before, id);
      StepKeepsOrigin(cfg, Run(cfg, s, before), actions[|actions| - 1], id);
      StepKeepsInv(cfg, Run(cfg, s, before), actions[|actions| - 1]);
    }
  }

  predicate ClaimsCarry(p: Phase, id: MessageId, payload: string, expiresAt: int) {
    p.Working? ==> forall i :: 0 <= i < |p.batch| && p.batch[i].id == id ==>
      p.batch[i].payload == Some(payload) && p.batch[i].payloadExpiresAt == expiresAt
  }

  /** What was enqueued is what workers deliver: in every later state the row has the message's times,
      its payload until that is erased, and every claim of it carries that payload and expiry. */
  lemma DeliversEnqueued(
    cfg: Settings, s: State, id: MessageId, at: int, expiresAt: int, payload: string, actions: seq<Action>)
    requires cfg.Valid() && Reachable(cfg, s) && Enabled(cfg, s, Enqueue(id, at, expiresAt, payload))
    ensures var s' := Run(cfg, Step(cfg, s, Enqueue(id, at, expiresAt, payload)), actions);
      && id in s'.rows && s'.rows[id].createdAt == at && s'.rows[id].payloadExpiresAt == expiresAt
      && s'.rows[id].payload == (if s'.rows[id].terminalAt.Some? then None else Some(payload))
      && forall w :: w in s'.workers ==> ClaimsCarry(s'.workers[w], id, payload, expiresAt)
  {
    var enqueued := Step(cfg, s, Enqueue(id, at, expiresAt, payload));
    ReachableInv(cfg, s);
    StepKeepsInv(cfg, s, Enqueue(id, at, expiresAt, payload));
    RunKeepsOrigin(cfg, enqueued, actions, id);
    var s' := Run(cfg, enqueued, actions);
    assert RowOk(cfg, id, s'.rows[id], s'.log[id], s'.clock);
    forall w | w in s'.workers ensures ClaimsCarry(s'.workers[w], id, payload, expiresAt) {
      assert PhaseOk(s', w, s'.workers[w]);
    }
  }

  // ----- Attempts -----

  /** Only lease recoveries can carry a message past the configured number of attempts, a message
      waiting for a retry is below it, and a dead letter was expired, undecodable or exhausted. */
  lemma AttemptBudget(cfg: Settings, s: State, id: MessageId)
    requires cfg.Valid() && Reachable(cfg, s) && id in s.rows
    ensures s.rows[id].attempts <= cfg.maxAttempts + LogOf(s, id).recoveries
    ensures s.rows[id].status.Pending? ==> s.rows[id].attempts < cfg.maxAttempts
    ensures s.rows[id].status.DeadLetter? ==> Justified(cfg, s.rows[id])
    ensures Consistent(s.rows[id])
  {
    ReachableInv(cfg, s);
    assert RowOk(cfg, id, s.rows[id], s.log[id], s.clock);
  }

  /** A claim carries the counter past the maximum exactly when it recovers the lease of a message
      that has no attempts left; the claiming query looks at neither counter nor expiry. */
  lemma ClaimExceedsExact(cfg: Settings, s: State, w: Owner, ids: seq<MessageId>, id: MessageId)
    requires cfg.Valid() && Reachable(cfg, s) && Enabled(cfg, s, CommitClaim(w, ids)) && id in ids
    ensures Apply(cfg, s, CommitClaim(w, ids)).rows[id].attempts > cfg.maxAttempts <==>
      s.rows[id].status.Processing? && s.rows[id].attempts >= cfg.maxAttempts
  {
    ReachableInv(cfg, s);
    assert RowOk(cfg, id, s.rows[id], s.log[id], s.clock);
  }

  predicate Recovers(cfg: Settings, s: State, a: Action, id: MessageId) {
    a.CommitClaim? && Enabled(cfg, s, a) && id in a.ids && s.rows[id].status.Processing?
  }

  /** No other step does: a step carries the counter of a message past the maximum if and only if it
      recovers the lease of the last permitted attempt. */
  lemma StepExceedsExact(cfg: Settings, s: State, a: Action, id: MessageId)
    requires cfg.Valid() && Reachable(cfg, s) && id in s.rows && s.rows[id].attempts <= cfg.maxAttempts
    ensures id in Step(cfg, s, a).rows
    ensures Step(cfg, s, a).rows[id].attempts > cfg.maxAttempts <==>
      s.rows[id].attempts == cfg.maxAttempts && Recovers(cfg, s, a, id)
  {
    ReachableInv(cfg, s);
    assert RowOk(cfg, id, s.rows[id], s.log[id], s.clock);
  }

  // ----- Terminal rows -----

  lemma StepKeepsTerminal(cfg: Settings, s: State, a: Action, id: MessageId)
    requires cfg.Valid() && id in s.rows
    requires s.rows[id].status.Succeeded? || s.rows[id].status.DeadLetter?
    ensures id in Step(cfg, s, a).rows && Step(cfg, s, a).rows[id] == s.rows[id]
  {
  }

  /** Once delivered or dead-lettered, a row never changes again. */
  lemma {:induction false} TerminalForever(cfg: Settings, s: State, actions: seq<Action>, id: MessageId)
    requires cfg.Valid() && id in s.rows
    requires s.rows[id].status.Succeeded? || s.rows[id].status.DeadLetter?
    ensures id in Run(cfg, s, actions).rows && Run(cfg, s, actions).rows[id] == s.rows[id]
  {
    if actions != [] {
      TerminalForever(cfg, s, actions[..|actions| - 1], id);
      StepKeepsTerminal(cfg, Run(cfg, s, actions[..|actions| - 1]), actions[|actions| - 1], id);
    }
  }

  // ----- The bound on deliveries is exact -----

  const WORKER: Owner := "w"

  lemma RunCons(cfg: Settings, s: State, a: Action, rest: seq<Action>)
    requires cfg.Valid()
    ensures Run(cfg, s, [a] + rest) == Run(cfg, Step(cfg, s, a), rest)
  {
    RunAppend(cfg, s, [a], rest);
    assert [a][..0] == [];
  }

  /** Message `id` just after the earliest possible end of its `n`-th attempt, all attempts sent. */
  predicate SentTimes(cfg: Settings, s: State, id: MessageId, n: nat, expiresAt: int)
    requires cfg.Valid()
  {
    && PhaseOf(s, WORKER).Idle?
    && s.clock == LeastSpan(cfg, id, n)
    && id in s.rows && id in s.log && |s.log[id].sends| == n && s.rows[id].attempts == n
    && s.rows[id].createdAt == 0 && s.rows[id].payloadExpiresAt == expiresAt
    && Eligible(s.rows[id], s.clock)
  }

  /** The worker claims message `id` and hands it over. */
  function HandOver(id: MessageId, accepted: bool): seq<Action> {
    [BeginClaim(WORKER)] + ([CommitClaim(WORKER, [id])] + ([Inspect(WORKER, true)] + ([Send(WORKER, accepted)] + [])))
  }

  predicate HandedOver(cfg: Settings, s: State, id: MessageId, accepted: bool, s': State)
    requires id in s.rows && id in s.log
  {
    && s'.clock == s.clock && id in s'.rows && id in s'.log
    && s'.rows[id] == ClaimRow(cfg, s.rows[id], WORKER, s.clock)
    && |s'.log[id].sends| == |s.log[id].sends| + 1
    && PhaseOf(s', WORKER) == Working([Snapshot(id, s.rows[id])], Deciding(if accepted then Delivered else Failed(Smtp, true)))
  }

  lemma HandsOver(cfg: Settings, s: State, id: MessageId, n: nat, expiresAt: int, accepted: bool)
    requires cfg.Valid() && SentTimes(cfg, s, id, n, expiresAt) && s.clock < expiresAt
    ensures HandedOver(cfg, s, id, accepted, Run(cfg, s, HandOver(id, accepted)))
  {
    var s1 := Step(cfg, s, BeginClaim(WORKER));
    assert Enabled(cfg, s1, CommitClaim(WORKER, [id]));
    var s2 := Step(cfg, s1, CommitClaim(WORKER, [id]));
    assert PhaseOf(s2, WORKER) == Working([Snapshot(id, s.rows[id])], Fresh);
    var s3 := Step(cfg, s2, Inspect(WORKER, true));
    assert PhaseOf(s3, WORKER) == Working([Snapshot(id, s.rows[id])], Cleared);
    var s4 := Step(cfg, s3, Send(WORKER, accepted));
    assert HandedOver(cfg, s, id, accepted, s4);
    RunCons(cfg, s, BeginClaim(WORKER), [CommitClaim(WORKER, [id])] + ([Inspect(WORKER, true)] + ([Send(WORKER, accepted)] + [])));
    RunCons(cfg, s1, CommitClaim(WORKER, [id]), [Inspect(WORKER, true)] + ([Send(WORKER, accepted)] + []));
    RunCons(cfg, s2, Inspect(WORKER, true), [Send(WORKER, accepted)] + []);
    RunCons(cfg, s3, Send(WORKER, accepted), []);
  }

  /** The worker crashes, and the lease runs out. */
  function Crash(until: int): seq<Action> {
    [Drop(WORKER)] + ([Tick(until)] + [])
  }

  lemma Crashes(cfg: Settings, s: State, s': State, id: MessageId, n: nat, expiresAt: int)
    requires cfg.Valid() && SentTimes(cfg, s, id, n, expiresAt) && HandedOver(cfg, s, id, true, s')
    requires LeastGap(cfg, id, n + 1) == cfg.Lease()
    ensures SentTimes(cfg, Run(cfg, s', Crash(LeastSpan(cfg, id, n + 1))), id, n + 1, expiresAt)
  {
    var until := LeastSpan(cfg, id, n + 1);
    var s5 := Step(cfg, s', Drop(WORKER));
    assert PhaseOf(s5, WORKER).Idle? && s5.rows == s'.rows && s5.log == s'.log;
    var s6 := Step(cfg, s5, Tick(until));
    assert until == s.clock + cfg.Lease() && s6.clock == until;
    assert s6.rows[id] == ClaimRow(cfg, s.rows[id], WORKER, s.clock) && Eligible(s6.rows[id], until);
    RunCons(cfg, s', Drop(WORKER), [Tick(until)] + []);
    RunCons(cfg, s5, Tick(until), []);
  }

  /** The worker reports an error of the mail server, and the retry delay passes. */
  function Bounce(until: int): seq<Action> {
    [ReadClock(WORKER)] + ([Finalize(WORKER)] + ([Tick(until)] + []))
  }

  lemma Bounces(cfg: Settings, s: State, s': State, id: MessageId, n: nat, expiresAt: int)
    requires cfg.Valid() && SentTimes(cfg, s, id, n, expiresAt) && HandedOver(cfg, s, id, false, s') && s.clock < expiresAt
    requires n + 1 < cfg.maxAttempts && LeastGap(cfg, id, n + 1) == DelayOf(cfg, id, n + 1) * SECOND
    ensures SentTimes(cfg, Run(cfg, s', Bounce(LeastSpan(cfg, id, n + 1))), id, n + 1, expiresAt)
  {
    var until := LeastSpan(cfg, id, n + 1);
    var c := Snapshot(id, s.rows[id]);
    var s5 := Step(cfg, s', ReadClock(WORKER));
    assert PhaseOf(s5, WORKER) == Working([c], Finalizing(Failed(Smtp, true), s.clock));
    var s6 := Step(cfg, s5, Finalize(WORKER));
    assert s6.rows[id] == RetryRow(s'.rows[id], s.clock, DelayOf(cfg, id, n + 1), Smtp);
    assert PhaseOf(s6, WORKER).Idle? && s6.log == s'.log && s6.clock == s.clock;
    RunCons(cfg, s', ReadClock(WORKER), [Finalize(WORKER)] + ([Tick(until)] + []));
    RunCons(cfg, s5, Finalize(WORKER), [Tick(until)] + []);
    RunCons(cfg, s6, Tick(until), []);
  }

  lemma SendOnceMore(cfg: Settings, s: State, id: MessageId, n: nat, expiresAt: int) returns (actions: seq<Action>)
    requires cfg.Valid() && SentTimes(cfg, s, id, n, expiresAt) && s.clock < expiresAt
    ensures SentTimes(cfg, Run(cfg, s, actions), id, n + 1, expiresAt)
  {
    var until := LeastSpan(cfg, id, n + 1);
    var crash := LeastGap(cfg, id, n + 1) == cfg.Lease();
    var rest := if crash then Crash(until) else Bounce(until);
    HandsOver(cfg, s, id, n, expiresAt, crash);
    var s' := Run(cfg, s, HandOver(id, crash));
    if crash { Crashes(cfg, s, s', id, n, expiresAt); } else { Bounces(cfg, s, s', id, n, expiresAt); }
    RunAppend(cfg, s, HandOver(id, crash), rest);
    actions := HandOver(id, crash) + rest;
  }

  lemma {:induction false} RepeatedSends(cfg: Settings, id: MessageId, n: nat, expiresAt: int)
    returns (actions: seq<Action>)
    requires cfg.Valid() && (n > 0 ==> LeastSpan(cfg, id, n - 1) < expiresAt)
    ensures SentTimes(cfg, Run(cfg, INIT, actions), id, n, expiresAt)
  {
    if n == 0 {
      var start := Enqueue(id, 0, expiresAt, "payload");
      actions := [start] + [];
      RunCons(cfg, INIT, start, []);
    } else {
      if n > 1 { LeastSpanGrows(cfg, id, n - 2, n - 1); }
      var first := RepeatedSends(cfg, id, n - 1, expiresAt);
      var more := SendOnceMore(cfg, Run(cfg, INIT, first), id, n - 1, expiresAt);
      RunAppend(cfg, INIT, first, more);
      actions := first + more;
    }
  }

  ghost predicate CanBeSent(cfg: Settings, id: MessageId, n: nat, lifetime: int)
    requires cfg.Valid()
  {
    exists s :: Reachable(cfg, s) && SentWithin(s, id, n, lifetime)
  }

  predicate SentWithin(s: State, id: MessageId, n: nat, lifetime: int) {
    && id in s.rows && id in s.log
    && |s.log[id].sends| == n && s.rows[id].payloadExpiresAt - s.rows[id].createdAt == lifetime
  }

  /** A message of a given lifetime can be handed over `n` times in some run if and only if the least
      time for `n` claims is shorter than the lifetime. */
  lemma SendBoundExact(cfg: Settings, id: MessageId, n: nat, lifetime: int)
    requires cfg.Valid() && n > 0
    ensures CanBeSent(cfg, id, n, lifetime) <==> LeastSpan(cfg, id, n - 1) < lifetime
  {
    if CanBeSent(cfg, id, n, lifetime) {
      var s :| Reachable(cfg, s) && SentWithin(s, id, n, lifetime);
      SendBound(cfg, s, id);
    }
    if LeastSpan(cfg, id, n - 1) < lifetime {
      var actions := RepeatedSends(cfg, id, n, lifetime);
      var s := Run(cfg, INIT, actions);
      assert Reachable(cfg, s) && SentWithin(s, id, n, lifetime);
    }
  }

  // ----- Nothing bounds attempts -----

  /** Message `id` after `n` claims whose worker crashed before it looked at the message. */
  predicate LostTimes(cfg: Settings, s: State, id: MessageId, n: nat, expiresAt: int) {
    && PhaseOf(s, WORKER).Idle? && s.clock == n * cfg.Lease()
    && id in s.rows && id in s.log && s.rows[id].attempts == n
    && s.rows[id].createdAt == 0 && s.rows[id].payloadExpiresAt == expiresAt
    && Eligible(s.rows[id], s.clock)
  }

  function Lose(id: MessageId, until: int): seq<Action> {
    [BeginClaim(WORKER)] + ([CommitClaim(WORKER, [id])] + ([Drop(WORKER)] + ([Tick(until)] + [])))
  }

  lemma LoseOnceMore(cfg: Settings, s: State, id: MessageId, n: nat, expiresAt: int)
    requires cfg.Valid() && LostTimes(cfg, s, id, n, expiresAt)
    ensures LostTimes(cfg, Run(cfg, s, Lose(id, (n + 1) * cfg.Lease())), id, n + 1, expiresAt)
  {
    var until := (n + 1) * cfg.Lease();
    assert until == s.clock + cfg.Lease();
    var s1 := Step(cfg, s, BeginClaim(WORKER));
    assert Enabled(cfg, s1, CommitClaim(WORKER, [id]));
    var s2 := Step(cfg, s1, CommitClaim(WORKER, [id]));
    assert s2.rows[id] == ClaimRow(cfg, s.rows[id], WORKER, s.clock);
    var s3 := Step(cfg, s2, Drop(WORKER));
    RunCons(cfg, s, BeginClaim(WORKER), [CommitClaim(WORKER, [id])] + ([Drop(WORKER)] + ([Tick(until)] + [])));
    RunCons(cfg, s1, CommitClaim(WORKER, [id]), [Drop(WORKER)] + ([Tick(until)] + []));
    RunCons(cfg, s2, Drop(WORKER), [Tick(until)] + []);
    RunCons(cfg, s3, Tick(until), []);
  }

  lemma {:induction false} RepeatedLosses(cfg: Settings, id: MessageId, n: nat, expiresAt: int)
    returns (actions: seq<Action>)
    requires cfg.Valid()
    ensures LostTimes(cfg, Run(cfg, INIT, actions), id, n, expiresAt)
  {
    if n == 0 {
      var start := Enqueue(id, 0, expiresAt, "payload");
      actions := [start] + [];
      RunCons(cfg, INIT, start, []);
    } else {
      var first := RepeatedLosses(cfg, id, n - 1, expiresAt);
      LoseOnceMore(cfg, Run(cfg, INIT, first), id, n - 1, expiresAt);
      var more := Lose(id, n * cfg.Lease());
      RunAppend(cfg, INIT, first, more);
      actions := first + more;
    }
  }

  /** Whatever the configuration and the lifetime of a message, workers that crash while they hold it
      push its counter to any value. */
  lemma AttemptsCanExceed(cfg: Settings, id: MessageId, n: nat, lifetime: int)
    requires cfg.Valid()
    ensures exists s :: Reachable(cfg, s) && ClaimedWithin(s, id, n, lifetime)
  {
    var actions := RepeatedLosses(cfg, id, n, lifetime);
    var s := Run(cfg, INIT, actions);
    assert Reachable(cfg, s) && ClaimedWithin(s, id, n, lifetime);
  }

  predicate ClaimedWithin(s: State, id: MessageId, n: nat, lifetime: int) {
    id in s.rows && s.rows[id].attempts == n && s.rows[id].payloadExpiresAt - s.rows[id].createdAt == lifetime
  }
}
