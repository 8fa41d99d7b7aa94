/** Safety of the outbox over every run: the invariant of `OutboxProtocol` is kept by every step,
    and what it says about deliveries, attempts and terminal rows. */
module OutboxSafety {
  import opened Common
  import opened OutboxRows
  import opened OutboxProtocol

  // ----- One row under one kind of step -----

  lemma ClaimKeepsRow(cfg: Settings, id: MessageId, r: Row, l: Log, w: Owner, at: int, clock: int)
    requires cfg.Valid() && RowOk(cfg, id, r, l, clock) && Eligible(r, at) && at <= clock
    ensures RowOk(cfg, id, ClaimRow(cfg, r, w, at), LogClaim(l, at, r.status.Processing?), clock)
  {
    ClaimKeepsClaims(cfg, id, r, l, w, at, clock);
  }

  lemma ClaimKeepsClaims(cfg: Settings, id: MessageId, r: Row, l: Log, w: Owner, at: int, clock: int)
    requires cfg.Valid() && ClaimsOk(cfg, id, r, l, clock) && Eligible(r, at) && at <= clock
    requires r.status.Pending? ==> r.attempts < cfg.maxAttempts
    ensures ClaimsOk(cfg, id, ClaimRow(cfg, r, w, at), LogClaim(l, at, r.status.Processing?), clock)
  {
    if r.attempts > 0 {
      assert l.claims[r.attempts - 1] + LeastGap(cfg, id, r.attempts) <= at;
    }
  }

  lemma SendKeepsRow(cfg: Settings, w: Owner, c: Claim, r: Row, l: Log, clock: int)
    requires cfg.Valid() && RowOk(cfg, c.id, r, l, clock) && ClaimOk(w, c, false, r, l)
    requires StageOk(c, Cleared, l, clock)
    ensures RowOk(cfg, c.id, r, l.(sends := l.sends + [c.attempts]), clock)
  {
  }

  lemma FinishKeepsRow(
    cfg: Settings, w: Owner, c: Claim, decision: Decision, at: int, r: Row, l: Log, clock: int)
    requires cfg.Valid() && RowOk(cfg, c.id, r, l, clock) && ClaimOk(w, c, true, r, l)
    requires r.status.Processing? && r.leaseOwner == Some(w)
    requires StageOk(c, Finalizing(decision, at), l, clock)
    ensures RowOk(cfg, c.id, Finish(cfg, c, decision, at, r), l, clock)
  {
    assert c.attempts == r.attempts;
  }

  // ----- Every step keeps the invariant -----

  /** What a transaction of worker `w` may do to a row: it may lease the row to `w` or give up the
      lease of `w`, but not touch what another worker's claim depends on. */
  predicate MovedBy(w: Owner, r: Row, l: Log, r': Row, l': Log) {
    && r.attempts <= r'.attempts == |l'.claims|
    && l.claims <= l'.claims && l.sends == l'.sends && l.origin == l'.origin
    && r.payloadExpiresAt == r'.payloadExpiresAt
    && (r'.status.Processing? && r'.leaseOwner != Some(w) ==> r' == r)
    && (r' != r && r'.attempts == r.attempts ==> r.status.Processing? && r.leaseOwner == Some(w))
  }

  lemma MovedKeepsClaim(v: Owner, w: Owner, c: Claim, sent: bool, r: Row, l: Log, r': Row, l': Log)
    requires v != w && ClaimOk(v, c, sent, r, l) && MovedBy(w, r, l, r', l')
    ensures ClaimOk(v, c, sent, r', l')
  {
  }

  predicate ApartFromOthers(s: State, w: Owner, p: Phase) {
    forall v :: v in s.workers && v != w ==> Apart(p, s.workers[v]) && Apart(s.workers[v], p)
  }

  lemma FrameBatch(s: State, s': State, w: Owner, v: Owner)
    requires v != w && v in s.workers && v in s'.workers && s'.workers[v] == s.workers[v]
    requires PhaseOk(s, v, s.workers[v]) && s.clock == s'.clock
    requires forall id :: id in s.rows && id in s.log ==>
      id in s'.rows && id in s'.log && MovedBy(w, s.rows[id], s.log[id], s'.rows[id], s'.log[id])
    ensures PhaseOk(s', v, s.workers[v])
  {
    if s.workers[v].Working? {
      var batch, stage := s.workers[v].batch, s.workers[v].stage;
      forall i | 0 <= i < |batch|
        ensures batch[i].id in s'.rows && batch[i].id in s'.log
        ensures ClaimOk(v, batch[i], Handled(stage, i), s'.rows[batch[i].id], s'.log[batch[i].id])
      {
        var c := batch[i];
        MovedKeepsClaim(v, w, c, Handled(stage, i), s.rows[c.id], s.log[c.id], s'.rows[c.id], s'.log[c.id]);
      }
    }
  }

  lemma FrameWorkers(s: State, s': State, w: Owner, p: Phase)
    requires WorkersOk(s) && s.clock == s'.clock && s'.workers == s.workers[w := p]
    requires forall id :: id in s.rows && id in s.log ==>
      id in s'.rows && id in s'.log && MovedBy(w, s.rows[id], s.log[id], s'.rows[id], s'.log[id])
    requires PhaseOk(s', w, p) && ApartFromOthers(s, w, p)
    ensures WorkersOk(s')
  {
    forall v | v in s'.workers ensures PhaseOk(s', v, s'.workers[v]) {
      if v != w { FrameBatch(s, s', w, v); }
    }
  }

  lemma TickKeepsInv(cfg: Settings, s: State, to: int)
    requires cfg.Valid() && Inv(cfg, s) && to >= s.clock
    ensures Inv(cfg, Apply(cfg, s, Tick(to)))
  {
    var s' := Apply(cfg, s, Tick(to));
    forall id | id in s'.rows ensures RowOk(cfg, id, s'.rows[id], s'.log[id], s'.clock) {
      assert RowOk(cfg, id, s.rows[id], s.log[id], s.clock);
    }
    forall w | w in s'.workers ensures PhaseOk(s', w, s'.workers[w]) {
      assert PhaseOk(s, w, s.workers[w]);
    }
  }

  lemma EnqueueKeepsInv(cfg: Settings, s: State, id: MessageId, at: int, expiresAt: int, payload: string)
    requires cfg.Valid() && Inv(cfg, s) && Enabled(cfg, s, Enqueue(id, at, expiresAt, payload))
    ensures Inv(cfg, Apply(cfg, s, Enqueue(id, at, expiresAt, payload)))
  {
    var s' := Apply(cfg, s, Enqueue(id, at, expiresAt, payload));
    forall w | w in s'.workers ensures PhaseOk(s', w, s'.workers[w]) {
      assert PhaseOk(s, w, s.workers[w]);
    }
  }

  /** Steps of one worker that touch neither rows nor log. */
  lemma PhaseChangeKeepsInv(cfg: Settings, s: State, w: Owner, p: Phase)
    requires cfg.Valid() && Inv(cfg, s)
    requires PhaseOk(s, w, p)
    requires p.Working? ==> PhaseOf(s, w).Working? && p.batch == PhaseOf(s, w).batch
    ensures Inv(cfg, Enter(s, w, p))
  {
    var s' := Enter(s, w, p);
    forall v | v in s'.workers ensures PhaseOk(s', v, s'.workers[v]) {
      if v != w { assert PhaseOk(s, v, s.workers[v]); }
    }
  }

  lemma CommitClaimKeepsRows(cfg: Settings, s: State, w: Owner, ids: seq<MessageId>)
    requires cfg.Valid() && Inv(cfg, s) && Enabled(cfg, s, CommitClaim(w, ids))
    ensures RowsOk(cfg, Apply(cfg, s, CommitClaim(w, ids)))
  {
    var s' := Apply(cfg, s, CommitClaim(w, ids));
    var at := PhaseOf(s, w).claimedAt;
    assert PhaseOk(s, w, s.workers[w]);
    forall id | id in s'.rows ensures RowOk(cfg, id, s'.rows[id], s'.log[id], s'.clock) {
      assert RowOk(cfg, id, s.rows[id], s.log[id], s.clock);
      if id in ids { ClaimKeepsRow(cfg, id, s.rows[id], s.log[id], w, at, s.clock); }
    }
  }

  /** A snapshot that a transaction claims is sound. */
  lemma CommittedClaimOk(cfg: Settings, s: State, w: Owner, ids: seq<MessageId>, i: nat)
    requires cfg.Valid() && Inv(cfg, s) && Enabled(cfg, s, CommitClaim(w, ids)) && i < |ids|
    ensures var s' := Apply(cfg, s, CommitClaim(w, ids));
      var c := Snapshots(s.rows, ids)[i];
      && c.id == ids[i] && c.id in s'.rows && c.id in s'.log
      && ClaimOk(w, c, false, s'.rows[c.id], s'.log[c.id])
      && c.attempts == s.rows[c.id].attempts + 1
  {
    assert ids[i] in ids;
    assert RowOk(cfg, ids[i], s.rows[ids[i]], s.log[ids[i]], s.clock);
  }

  /** Claiming gives the worker a sound batch. */
  lemma CommitClaimStartsBatch(cfg: Settings, s: State, w: Owner, ids: seq<MessageId>)
    requires cfg.Valid() && Inv(cfg, s) && Enabled(cfg, s, CommitClaim(w, ids))
    ensures var s' := Apply(cfg, s, CommitClaim(w, ids));
      PhaseOk(s', w, s'.workers[w])
  {
    var s' := Apply(cfg, s, CommitClaim(w, ids));
    var batch := Snapshots(s.rows, ids);
    forall i | 0 <= i < |batch|
      ensures batch[i].id == ids[i] && batch[i].id in s'.rows && batch[i].id in s'.log
      ensures ClaimOk(w, batch[i], false, s'.rows[batch[i].id], s'.log[batch[i].id])
    {
      CommittedClaimOk(cfg, s, w, ids, i);
    }
  }

  /** No batch already out holds one of the new claims. */
  lemma CommitClaimIsApart(cfg: Settings, s: State, w: Owner, ids: seq<MessageId>)
    requires cfg.Valid() && Inv(cfg, s) && Enabled(cfg, s, CommitClaim(w, ids))
    ensures ApartFromOthers(s, w, WorkOn(Snapshots(s.rows, ids)))
  {
    var batch := Snapshots(s.rows, ids);
    forall i | 0 <= i < |batch|
      ensures batch[i].id == ids[i] && batch[i].attempts == s.rows[batch[i].id].attempts + 1
    {
      CommittedClaimOk(cfg, s, w, ids, i);
    }
    forall v | v in s.workers && v != w
      ensures Apart(WorkOn(batch), s.workers[v]) && Apart(s.workers[v], WorkOn(batch))
    {
      assert PhaseOk(s, v, s.workers[v]);
    }
  }

  lemma CommitClaimKeepsInv(cfg: Settings, s: State, w: Owner, ids: seq<MessageId>)
    requires cfg.Valid() && Inv(cfg, s) && Enabled(cfg, s, CommitClaim(w, ids))
    ensures Inv(cfg, Apply(cfg, s, CommitClaim(w, ids)))
  {
    var s' := Apply(cfg, s, CommitClaim(w, ids));
    CommitClaimKeepsRows(cfg, s, w, ids);
    CommitClaimStartsBatch(cfg, s, w, ids);
    CommitClaimIsApart(cfg, s, w, ids);
    forall id | id in s.rows && id in s.log
      ensures id in s'.rows && id in s'.log && MovedBy(w, s.rows[id], s.log[id], s'.rows[id], s'.log[id])
    {
      assert RowOk(cfg, id, s.rows[id], s.log[id], s.clock);
    }
    FrameWorkers(s, s', w, s'.workers[w]);
  }

  lemma SendKeepsRows(cfg: Settings, s: State, w: Owner, accepted: bool)
    requires cfg.Valid() && Inv(cfg, s) && Enabled(cfg, s, Send(w, accepted))
    ensures RowsOk(cfg, Apply(cfg, s, Send(w, accepted)))
  {
    var s' := Apply(cfg, s, Send(w, accepted));
    var c := PhaseOf(s, w).batch[0];
    assert PhaseOk(s, w, s.workers[w]);
    assert ClaimOk(w, c, false, s.rows[c.id], s.log[c.id]);
    SendKeepsRow(cfg, w, c, s.rows[c.id], s.log[c.id], s.clock);
    forall id | id in s'.rows ensures RowOk(cfg, id, s'.rows[id], s'.log[id], s'.clock) {
      assert RowOk(cfg, id, s.rows[id], s.log[id], s.clock);
    }
  }

  lemma SendKeepsOwnBatch(cfg: Settings, s: State, w: Owner, accepted: bool)
    requires cfg.Valid() && Inv(cfg, s) && Enabled(cfg, s, Send(w, accepted))
    ensures var s' := Apply(cfg, s, Send(w, accepted));
      PhaseOk(s', w, s'.workers[w])
  {
    var s' := Apply(cfg, s, Send(w, accepted));
    assert PhaseOk(s, w, s.workers[w]);
    var batch := s.workers[w].batch;
    forall i | 0 <= i < |batch|
      ensures ClaimOk(w, batch[i], Handled(s'.workers[w].stage, i), s'.rows[batch[i].id], s'.log[batch[i].id])
    {
      assert ClaimOk(w, batch[i], Handled(s.workers[w].stage, i), s.rows[batch[i].id], s.log[batch[i].id]);
    }
  }

  /** Another worker's claim stays unsent, as it holds another attempt. */
  lemma SendKeepsOtherBatch(cfg: Settings, s: State, w: Owner, accepted: bool, v: Owner)
    requires cfg.Valid() && Inv(cfg, s) && Enabled(cfg, s, Send(w, accepted)) && v in s.workers && v != w
    ensures var s' := Apply(cfg, s, Send(w, accepted));
      PhaseOk(s', v, s'.workers[v])
  {
    var s' := Apply(cfg, s, Send(w, accepted));
    assert PhaseOk(s, v, s.workers[v]);
    assert Apart(s.workers[w], s.workers[v]);
    if s.workers[v].Working? {
      var batch, stage := s.workers[v].batch, s.workers[v].stage;
      forall i | 0 <= i < |batch|
        ensures ClaimOk(v, batch[i], Handled(stage, i), s'.rows[batch[i].id], s'.log[batch[i].id])
      {
        assert ClaimOk(v, batch[i], Handled(stage, i), s.rows[batch[i].id], s.log[batch[i].id]);
      }
    }
  }

  lemma SendKeepsInv(cfg: Settings, s: State, w: Owner, accepted: bool)
    requires cfg.Valid() && Inv(cfg, s) && Enabled(cfg, s, Send(w, accepted))
    ensures Inv(cfg, Apply(cfg, s, Send(w, accepted)))
  {
    var s' := Apply(cfg, s, Send(w, accepted));
    SendKeepsRows(cfg, s, w, accepted);
    forall v | v in s'.workers ensures PhaseOk(s', v, s'.workers[v]) {
      if v == w { SendKeepsOwnBatch(cfg, s, w, accepted); } else { SendKeepsOtherBatch(cfg, s, w, accepted, v); }
    }
    SendStaysApart(cfg, s, w, accepted);
  }

  lemma SendStaysApart(cfg: Settings, s: State, w: Owner, accepted: bool)
    requires cfg.Valid() && WorkersOk(s) && Enabled(cfg, s, Send(w, accepted))
    ensures var s' := Apply(cfg, s, Send(w, accepted));
      forall u, v :: u in s'.workers && v in s'.workers && u != v ==> Apart(s'.workers[u], s'.workers[v])
  {
    var s' := Apply(cfg, s, Send(w, accepted));
    forall u, v | u in s'.workers && v in s'.workers && u != v ensures Apart(s'.workers[u], s'.workers[v]) {
      assert Apart(s.workers[u], s.workers[v]);
    }
  }

  lemma FinalizeKeepsRows(cfg: Settings, s: State, w: Owner)
    requires cfg.Valid() && Inv(cfg, s) && Enabled(cfg, s, Finalize(w))
    ensures RowsOk(cfg, Apply(cfg, s, Finalize(w)))
  {
    var s' := Apply(cfg, s, Finalize(w));
    var c := PhaseOf(s, w).batch[0];
    forall id | id in s'.rows ensures RowOk(cfg, id, s'.rows[id], s'.log[id], s'.clock) {
      if id == c.id && Owned(s.rows, c.id, w) { FinalizeKeepsOwnRow(cfg, s, w); }
      else { FinalizeKeepsOtherRow(cfg, s, w, id); }
    }
  }

  lemma FinalizeKeepsOtherRow(cfg: Settings, s: State, w: Owner, id: MessageId)
    requires cfg.Valid() && RowsOk(cfg, s) && Enabled(cfg, s, Finalize(w)) && id in s.rows
    requires id != PhaseOf(s, w).batch[0].id || !Owned(s.rows, id, w)
    ensures RowOk(cfg, id, Apply(cfg, s, Finalize(w)).rows[id], s.log[id], s.clock)
  {
    assert RowOk(cfg, id, s.rows[id], s.log[id], s.clock);
  }

  lemma FinalizeKeepsOwnRow(cfg: Settings, s: State, w: Owner)
    requires cfg.Valid() && Inv(cfg, s) && Enabled(cfg, s, Finalize(w))
    requires Owned(s.rows, PhaseOf(s, w).batch[0].id, w)
    ensures var id := PhaseOf(s, w).batch[0].id;
      id in s.log && RowOk(cfg, id, Apply(cfg, s, Finalize(w)).rows[id], s.log[id], s.clock)
  {
    var p := PhaseOf(s, w);
    var c := p.batch[0];
    assert PhaseOk(s, w, s.workers[w]);
    assert ClaimOk(w, c, true, s.rows[c.id], s.log[c.id]);
    FinishKeepsRow(cfg, w, c, p.stage.decision, p.stage.at, s.rows[c.id], s.log[c.id], s.clock);
  }

  lemma FinalizeIsApart(cfg: Settings, s: State, w: Owner)
    requires cfg.Valid() && Inv(cfg, s) && Enabled(cfg, s, Finalize(w))
    ensures ApartFromOthers(s, w, WorkOn(PhaseOf(s, w).batch[1..]))
  {
    var p := WorkOn(PhaseOf(s, w).batch[1..]);
    forall v | v in s.workers && v != w ensures Apart(p, s.workers[v]) && Apart(s.workers[v], p) {
      assert Apart(s.workers[w], s.workers[v]) && Apart(s.workers[v], s.workers[w]);
    }
  }

  lemma FinalizeKeepsRest(cfg: Settings, s: State, w: Owner)
    requires cfg.Valid() && Inv(cfg, s) && Enabled(cfg, s, Finalize(w))
    ensures var s' := Apply(cfg, s, Finalize(w));
      PhaseOk(s', w, s'.workers[w])
  {
    var s' := Apply(cfg, s, Finalize(w));
    var p := PhaseOf(s, w);
    var rest := p.batch[1..];
    assert PhaseOk(s, w, s.workers[w]);
    forall i | 0 <= i < |rest|
      ensures ClaimOk(w, rest[i], false, s'.rows[rest[i].id], s'.log[rest[i].id])
    {
      assert rest[i] == p.batch[i + 1];
      assert ClaimOk(w, p.batch[i + 1], false, s.rows[rest[i].id], s.log[rest[i].id]);
    }
  }

  lemma FinalizeMoves(cfg: Settings, s: State, w: Owner, id: MessageId)
    requires cfg.Valid() && RowsOk(cfg, s) && Enabled(cfg, s, Finalize(w)) && id in s.rows
    ensures var s' := Apply(cfg, s, Finalize(w));
      id in s'.rows && MovedBy(w, s.rows[id], s.log[id], s'.rows[id], s.log[id])
  {
    assert RowOk(cfg, id, s.rows[id], s.log[id], s.clock);
  }

  lemma FinalizeKeepsInv(cfg: Settings, s: State, w: Owner)
    requires cfg.Valid() && Inv(cfg, s) && Enabled(cfg, s, Finalize(w))
    ensures Inv(cfg, Apply(cfg, s, Finalize(w)))
  {
    var s' := Apply(cfg, s, Finalize(w));
    FinalizeKeepsRows(cfg, s, w);
    FinalizeKeepsRest(cfg, s, w);
    FinalizeIsApart(cfg, s, w);
    forall id | id in s.rows && id in s.log
      ensures id in s'.rows && id in s'.log && MovedBy(w, s.rows[id], s.log[id], s'.rows[id], s'.log[id])
    {
      FinalizeMoves(cfg, s, w, id);
    }
    FrameWorkers(s, s', w, s'.workers[w]);
  }

  lemma StepKeepsInv(cfg: Settings, s: State, a: Action)
    requires cfg.Valid() && Inv(cfg, s)
    ensures Inv(cfg, Step(cfg, s, a))
  {
    if Enabled(cfg, s, a) {
      match a
      case Tick(to) => TickKeepsInv(cfg, s, to);
      case Enqueue(id, at, expiresAt, payload) => EnqueueKeepsInv(cfg, s, id, at, expiresAt, payload);
      case CommitClaim(w, ids) => CommitClaimKeepsInv(cfg, s, w, ids);
      case Send(w, accepted) => SendKeepsInv(cfg, s, w, accepted);
      case Finalize(w) => FinalizeKeepsInv(cfg, s, w);
      case BeginClaim(w) => PhaseChangeKeepsInv(cfg, s, w, Claiming(s.clock));
      case Drop(w) => PhaseChangeKeepsInv(cfg, s, w, Idle);
      case Inspect(w, _) => PhaseChangeKeepsInv(cfg, s, w, Apply(cfg, s, a).workers[w]) by {
        InspectKeepsPhase(cfg, s, a);
      }
      case ReadClock(w) => PhaseChangeKeepsInv(cfg, s, w, Apply(cfg, s, a).workers[w]) by {
        ReadClockKeepsPhase(cfg, s, a);
      }
    }
  }

  lemma InspectKeepsPhase(cfg: Settings, s: State, a: Action)
    requires cfg.Valid() && Inv(cfg, s) && a.Inspect? && Enabled(cfg, s, a)
    ensures PhaseOk(s, a.w, Apply(cfg, s, a).workers[a.w])
  {
    var batch := PhaseOf(s, a.w).batch;
    assert PhaseOk(s, a.w, s.workers[a.w]);
    var c := batch[0];
    assert ClaimOk(a.w, c, false, s.rows[c.id], s.log[c.id]);
    assert RowOk(cfg, c.id, s.rows[c.id], s.log[c.id], s.clock);
    assert s.log[c.id].claims[c.attempts - 1] <= s.clock;
    assert forall i :: 0 <= i < |batch| ==> ClaimOk(a.w, batch[i], false, s.rows[batch[i].id], s.log[batch[i].id]);
  }

  lemma ReadClockKeepsPhase(cfg: Settings, s: State, a: Action)
    requires cfg.Valid() && Inv(cfg, s) && a.ReadClock? && Enabled(cfg, s, a)
    ensures PhaseOk(s, a.w, Apply(cfg, s, a).workers[a.w])
  {
    var p := PhaseOf(s, a.w);
    assert PhaseOk(s, a.w, p);
    var c := p.batch[0];
    assert ClaimOk(a.w, c, Handled(p.stage, 0), s.rows[c.id], s.log[c.id]);
    assert RowOk(cfg, c.id, s.rows[c.id], s.log[c.id], s.clock);
    assert s.log[c.id].claims[c.attempts - 1] <= s.clock;
    assert forall i :: 0 <= i < |p.batch| ==>
      ClaimOk(a.w, p.batch[i], Handled(p.stage, i), s.rows[p.batch[i].id], s.log[p.batch[i].id]);
  }

  /** The invariant holds after every run from the empty table. */
  lemma {:induction false} InvAlways(cfg: Settings, actions: seq<Action>)
    requires cfg.Valid()
    ensures Inv(cfg, Run(cfg, INIT, actions))
  {
    if actions != [] {
      InvAlways(cfg, actions[..|actions| - 1]);
      StepKeepsInv(cfg, Run(cfg, INIT, actions[..|actions| - 1]), actions[|actions| - 1]);
    }
  }
}
