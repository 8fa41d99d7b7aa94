/** Any number of workers sharing one outbox table, as a state machine.

    One step is one transaction, one clock read, one hand-over to the mail server, or a worker
    dropping its batch. A worker reads the clock before the transaction that uses the reading, so
    other workers may act, and time may pass, in between. */
module OutboxProtocol {
  import opened Common
  import opened OutboxRows

  // ----- States -----

  datatype Decision = Delivered | Failed(category: Category, retryable: bool)

  /** What the worker is doing with the first message of its batch. */
  datatype Stage =
    | Fresh                                     // not looked at yet
    | Cleared                                   // unexpired and decrypted, about to be sent
    | Deciding(decision: Decision)              // the clock is still to be read
    | Finalizing(decision: Decision, at: int)   // the update is still to be committed

  datatype Phase =
    | Idle
    | Claiming(claimedAt: int)
    | Working(batch: seq<Claim>, stage: Stage)

  /** A message as it was enqueued. */
  datatype Origin = Origin(at: int, expiresAt: int, payload: string)

  /** History of one message; the program does not keep it. */
  datatype Log = Log(origin: Origin, claims: seq<int>, sends: seq<nat>, recoveries: nat)

  const NO_LOG := Log(Origin(0, 0, ""), [], [], 0)

  datatype State = State(
    clock: int, rows: map<MessageId, Row>, workers: map<Owner, Phase>, log: map<MessageId, Log>)

  const INIT := State(0, map[], map[], map[])

  function PhaseOf(s: State, w: Owner): Phase {
    if w in s.workers then s.workers[w] else Idle
  }

  // ----- Steps -----

  datatype Action =
    | Tick(to: int)
    | Enqueue(id: MessageId, at: int, expiresAt: int, payload: string)
    | BeginClaim(w: Owner)
    | CommitClaim(w: Owner, ids: seq<MessageId>)
    | Inspect(w: Owner, decrypts: bool)
    | Send(w: Owner, accepted: bool)
    | ReadClock(w: Owner)
    | Finalize(w: Owner)
    | Drop(w: Owner)   // crash, shutdown, or an error that leaves the loop over the batch

  predicate InStage(p: Phase, stage: Stage) {
    p.Working? && p.batch != [] && p.stage == stage
  }

  predicate Enabled(cfg: Settings, s: State, a: Action) {
    match a
    case Tick(to) => to >= s.clock
    case Enqueue(id, at, _, _) => id !in s.rows && at <= s.clock
    case BeginClaim(w) => PhaseOf(s, w).Idle?
    case CommitClaim(w, ids) =>
      && PhaseOf(s, w).Claiming?
      && Distinct(ids) && |ids| <= cfg.batchSize
      && forall id :: id in ids ==> id in s.rows && Eligible(s.rows[id], PhaseOf(s, w).claimedAt)
    case Inspect(w, _) => InStage(PhaseOf(s, w), Fresh)
    case Send(w, _) => InStage(PhaseOf(s, w), Cleared)
    case ReadClock(w) =>
      PhaseOf(s, w).Working? && PhaseOf(s, w).batch != [] && PhaseOf(s, w).stage.Deciding?
    case Finalize(w) =>
      && PhaseOf(s, w).Working? && PhaseOf(s, w).batch != [] && PhaseOf(s, w).stage.Finalizing?
      && 1 <= PhaseOf(s, w).batch[0].attempts
    case Drop(w) => true
  }

  function Enter(s: State, w: Owner, p: Phase): State {
    s.(workers := s.workers[w := p])
  }

  function WorkOn(batch: seq<Claim>): Phase {
    if batch == [] then Idle else Working(batch, Fresh)
  }

  function LogClaim(l: Log, at: int, recovered: bool): Log {
    l.(claims := l.claims + [at], recoveries := l.recoveries + if recovered then 1 else 0)
  }

  function LogOf(s: State, id: MessageId): Log {
    if id in s.log then s.log[id] else NO_LOG
  }

  /** The update of one row by the finalising transaction of claim `c`. */
  function Finish(cfg: Settings, c: Claim, decision: Decision, at: int, r: Row): Row
    requires cfg.Valid() && 1 <= c.attempts
  {
    match decision
    case Delivered => SucceedRow(r, at)
    case Failed(category, retryable) => FailRow(cfg, r, c, category, retryable, at)
  }

  function Apply(cfg: Settings, s: State, a: Action): State
    requires cfg.Valid() && Enabled(cfg, s, a)
  {
    match a
    case Tick(to) => s.(clock := to)
    case Enqueue(id, at, expiresAt, payload) =>
      s.(rows := s.rows[id := NewRow(at, expiresAt, payload)], 
        log := s.log[id := Log(Origin(at, expiresAt, payload), [], [], 0)])
    case BeginClaim(w) => Enter(s, w, Claiming(s.clock))
    case CommitClaim(w, ids) =>
      var at := PhaseOf(s, w).claimedAt;
      s.(rows := ClaimRows(cfg, s.rows, ids, w, at),
         workers := s.workers[w := WorkOn(Snapshots(s.rows, ids))],
         log := map id | id in s.rows ::
           if id in ids then LogClaim(LogOf(s, id), at, s.rows[id].status.Processing?) else LogOf(s, id))
    case Inspect(w, decrypts) =>
      var batch := PhaseOf(s, w).batch;
      Enter(s, w, Working(batch,
        if batch[0].payloadExpiresAt <= s.clock then Deciding(Failed(Expired, false))
        else if !decrypts then Deciding(Failed(InvalidPayload, false))
        else Cleared))
    case Send(w, accepted) =>
      var batch := PhaseOf(s, w).batch;
      var l := LogOf(s, batch[0].id);
      Enter(s, w, Working(batch, Deciding(if accepted then Delivered else Failed(Smtp, true))))
        .(log := s.log[batch[0].id := l.(sends := l.sends + [batch[0].attempts])])
    case ReadClock(w) =>
      var p := PhaseOf(s, w);
      Enter(s, w, p.(stage := Finalizing(p.stage.decision, s.clock)))
    case Finalize(w) =>
      var p := PhaseOf(s, w);
      var c := p.batch[0];
      Enter(s, w, WorkOn(p.batch[1..]))
        .(rows := OwnedUpdate(s.rows, c.id, w,
                    r => Finish(cfg, c, p.stage.decision, p.stage.at, r)))
    case Drop(w) => Enter(s, w, Idle)
  }

  /** A disabled action changes nothing, so every sequence of actions is a run. */
  function Step(cfg: Settings, s: State, a: Action): State
    requires cfg.Valid()
  {
    if Enabled(cfg, s, a) then Apply(cfg, s, a) else s
  }

  function Run(cfg: Settings, s: State, actions: seq<Action>): State
    requires cfg.Valid()
  {
    if actions == [] then s else Step(cfg, Run(cfg, s, actions[..|actions| - 1]), actions[|actions| - 1])
  }

  lemma {:induction false} RunAppend(cfg: Settings, s: State, first: seq<Action>, second: seq<Action>)
    requires cfg.Valid()
    ensures Run(cfg, s, first + second) == Run(cfg, Run(cfg, s, first), second)
  {
    if second == [] {
      assert first + second == first;
    } else {
      var shorter := second[..|second| - 1];
      RunAppend(cfg, s, first, shorter);
      assert (first + second)[..|first + second| - 1] == first + shorter;
    }
  }

  // ----- What holds in every reachable state -----

  /** Each claim comes at least one lease or one minimal retry delay after the claim before it. */
  predicate Spaced(cfg: Settings, id: MessageId, claims: seq<int>)
    requires cfg.Valid()
  {
    forall i :: 0 < i < |claims| ==> claims[i - 1] + LeastGap(cfg, id, i) <= claims[i]
  }

  predicate Justified(cfg: Settings, r: Row) {
    && r.failure.Some? && r.terminalAt.Some?
    && (r.failure.value.Expired? ==> r.payloadExpiresAt <= r.terminalAt.value)
    && (r.failure.value.Smtp? ==> r.attempts >= cfg.maxAttempts || r.payloadExpiresAt <= r.terminalAt.value)
  }

  predicate ClaimsOk(cfg: Settings, id: MessageId, r: Row, l: Log, clock: int)
    requires cfg.Valid()
  {
    && |l.claims| == r.attempts
    && Spaced(cfg, id, l.claims)
    && (forall i :: 0 <= i < |l.claims| ==> r.createdAt <= l.claims[i] <= clock)
    && (r.status.Processing? ==>
          && r.attempts > 0
          && r.leaseExpiresAt == Some(l.claims[r.attempts - 1] + cfg.Lease()))
    && (r.status.Pending? && r.attempts > 0 ==>
          r.availableAt >= l.claims[r.attempts - 1] + DelayOf(cfg, id, r.attempts) * SECOND)
    && (r.status.Pending? ==> r.availableAt >= r.createdAt)
  }

  predicate BudgetOk(cfg: Settings, r: Row, l: Log) {
    && r.attempts <= cfg.maxAttempts + l.recoveries
    && (r.status.Pending? ==> r.attempts < cfg.maxAttempts)
    && (r.status.DeadLetter? ==> Justified(cfg, r))
  }

  predicate SendsOk(r: Row, l: Log) {
    && |l.claims| == r.attempts
    && Distinct(l.sends)
    && (forall i :: 0 <= i < |l.sends| ==>
          1 <= l.sends[i] <= r.attempts && l.claims[l.sends[i] - 1] < r.payloadExpiresAt)
    && (r.status.Succeeded? ==> l.sends != [])
  }

  /** The row keeps what was enqueued; only the payload is erased at the end. */
  predicate Descends(r: Row, o: Origin) {
    r.createdAt == o.at && r.payloadExpiresAt == o.expiresAt && (r.payload.Some? ==> r.payload.value == o.payload)
  }

  predicate RowOk(cfg: Settings, id: MessageId, r: Row, l: Log, clock: int)
    requires cfg.Valid()
  {
    Consistent(r) && Descends(r, l.origin) && ClaimsOk(cfg, id, r, l, clock) && BudgetOk(cfg, r, l) && SendsOk(r, l)
  }

  /** A claim in a batch still holds its row exactly while nobody has claimed the row again, and it
      is sent at most once. */
  predicate ClaimOk(w: Owner, c: Claim, sent: bool, r: Row, l: Log) {
    && 1 <= c.attempts <= r.attempts && |l.claims| == r.attempts
    && c.payloadExpiresAt == r.payloadExpiresAt && c.payload == Some(l.origin.payload)
    && (r.status.Processing? && r.leaseOwner == Some(w) <==> r.attempts == c.attempts)
    && (!sent ==> c.attempts !in l.sends)
  }

  predicate DecisionOk(c: Claim, decision: Decision, l: Log, decidedBy: int) {
    match decision
    case Delivered => c.attempts in l.sends
    case Failed(Expired, retryable) => !retryable && c.payloadExpiresAt <= decidedBy
    case Failed(InvalidPayload, retryable) => !retryable
    case Failed(Smtp, retryable) => retryable
  }

  predicate StageOk(c: Claim, stage: Stage, l: Log, clock: int)
    requires 1 <= c.attempts <= |l.claims|
  {
    match stage
    case Fresh => true
    case Cleared => l.claims[c.attempts - 1] < c.payloadExpiresAt
    case Deciding(decision) => DecisionOk(c, decision, l, clock)
    case Finalizing(decision, at) =>
      l.claims[c.attempts - 1] <= at <= clock && DecisionOk(c, decision, l, at)
  }

  /** Whether the claim at position `i` of the batch has been handed to the mail server or given up. */
  predicate Handled(stage: Stage, i: nat) {
    i == 0 && (stage.Deciding? || stage.Finalizing?)
  }

  predicate BatchOk(s: State, w: Owner, batch: seq<Claim>, stage: Stage) {
    && batch != []
    && (forall i, j :: 0 <= i < j < |batch| ==> batch[i].id != batch[j].id)
    && (forall i :: 0 <= i < |batch| ==>
          && batch[i].id in s.rows && batch[i].id in s.log
          && ClaimOk(w, batch[i], Handled(stage, i), s.rows[batch[i].id], s.log[batch[i].id]))
    && StageOk(batch[0], stage, s.log[batch[0].id], s.clock)
  }

  predicate PhaseOk(s: State, w: Owner, p: Phase) {
    match p
    case Idle => true
    case Claiming(at) => at <= s.clock
    case Working(batch, stage) => BatchOk(s, w, batch, stage)
  }

  /** Two workers never hold the same attempt at the same message. */
  predicate Apart(p: Phase, q: Phase) {
    p.Working? && q.Working? ==>
      forall i, j :: 0 <= i < |p.batch| && 0 <= j < |q.batch| && p.batch[i].id == q.batch[j].id ==>
        p.batch[i].attempts != q.batch[j].attempts
  }

  ghost predicate RowsOk(cfg: Settings, s: State)
    requires cfg.Valid()
  {
    s.log.Keys == s.rows.Keys &&
    forall id :: id in s.rows ==> RowOk(cfg, id, s.rows[id], s.log[id], s.clock)
  }

  ghost predicate WorkersOk(s: State) {
    && (forall w :: w in s.workers ==> PhaseOk(s, w, s.workers[w]))
    && (forall v, w :: v in s.workers && w in s.workers && v != w ==> Apart(s.workers[v], s.workers[w]))
  }

  ghost predicate Inv(cfg: Settings, s: State)
    requires cfg.Valid()
  {
    RowsOk(cfg, s) && WorkersOk(s)
  }
}
