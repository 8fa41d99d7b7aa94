/** The worker program, run against the shared protocol state while others act between its
    statements. Every statement that matters is a step of `OutboxProtocol`, taken when it is enabled,
    so the runs of any number of these workers are runs of the protocol. */
module OutboxWorkers {
  import opened Common
  import opened OutboxRows
  import opened OutboxProtocol
  import Safety = OutboxSafety

  predicate StepOf(a: Action, w: Owner) {
    match a
    case Tick(_) => false
    case Enqueue(_, _, _, _) => false
    case BeginClaim(v) => v == w
    case CommitClaim(v, _) => v == w
    case Inspect(v, _) => v == w
    case Send(v, _) => v == w
    case ReadClock(v) => v == w
    case Finalize(v) => v == w
    case Drop(v) => v == w
  }

  // ----- Histories -----

  /** A step together with the state in which it was taken. */
  datatype Event = Event(before: State, a: Action)

  function StateAt(events: seq<Event>, now: State, i: nat): State {
    if i < |events| then events[i].before else now
  }

  ghost predicate Leads(cfg: Settings, e: Event, after: State)
    requires cfg.Valid()
  {
    Enabled(cfg, e.before, e.a) && after == Apply(cfg, e.before, e.a)
  }

  /** Starting from the empty table, every event was enabled and led to the next state. */
  ghost predicate IsHistory(cfg: Settings, events: seq<Event>, now: State)
    requires cfg.Valid()
  {
    && StateAt(events, now, 0) == INIT
    && forall i :: 0 <= i < |events| ==> Leads(cfg, events[i], StateAt(events, now, i + 1))
  }

  function Actions(events: seq<Event>): seq<Action> {
    if events == [] then [] else Actions(events[..|events| - 1]) + [events[|events| - 1].a]
  }

  /** So the state is one that the protocol reaches. */
  lemma {:induction false} HistoryIsRun(cfg: Settings, events: seq<Event>, now: State)
    requires cfg.Valid() && IsHistory(cfg, events, now)
    ensures now == Run(cfg, INIT, Actions(events))
  {
    if events != [] {
      var n := |events| - 1;
      var e := events[n];
      assert Leads(cfg, e, StateAt(events, now, n + 1));
      forall i | 0 <= i < n ensures Leads(cfg, events[..n][i], StateAt(events[..n], e.before, i + 1)) {
        assert Leads(cfg, events[i], StateAt(events, now, i + 1));
      }
      HistoryIsRun(cfg, events[..n], e.before);
      assert Actions(events)[..|Actions(events)| - 1] == Actions(events[..n]);
    }
  }

  /** The steps of one worker, latest last. */
  datatype Steps = Start | Then(prior: Steps, a: Action)

  /** What one worker did: its steps, the claims it committed, and the claims it finalised. */
  datatype Work = Work(steps: Steps, claimed: seq<Claim>, finalized: seq<Claim>)

  const NOTHING := Work(Start, [], [])

  function ClaimsIn(e: Event): seq<Claim> {
    if e.a.CommitClaim? && (forall id :: id in e.a.ids ==> id in e.before.rows)
    then Snapshots(e.before.rows, e.a.ids) else []
  }

  function FinalsIn(e: Event): seq<Claim> {
    if e.a.Finalize? && PhaseOf(e.before, e.a.w).Working? && PhaseOf(e.before, e.a.w).batch != []
    then [PhaseOf(e.before, e.a.w).batch[0]] else []
  }

  function Extend(work: Work, e: Event, w: Owner): Work {
    if !StepOf(e.a, w) then work
    else if e.a.CommitClaim? then work.(steps := Then(work.steps, e.a), claimed := work.claimed + ClaimsIn(e))
    else if e.a.Finalize? then work.(steps := Then(work.steps, e.a), finalized := work.finalized + FinalsIn(e))
    else work.(steps := Then(work.steps, e.a))
  }

  function WorkOf(events: seq<Event>, w: Owner): Work {
    if events == [] then NOTHING
    else Extend(WorkOf(events[..|events| - 1], w), events[|events| - 1], w)
  }

  class Cluster {
    const cfg: Settings
    var state: State
    ghost var events: seq<Event>

    ghost predicate Valid()
      reads this
    {
      cfg.Valid() && IsHistory(cfg, events, state)
    }

    constructor (cfg: Settings)
      requires cfg.Valid()
      ensures Valid() && this.cfg == cfg && state == INIT && events == []
    {
      this.cfg, state, events := cfg, INIT, [];
    }

    method Do(a: Action)
      requires Valid() && Enabled(cfg, state, a)
      modifies this
      ensures Valid() && state == Apply(cfg, old(state), a) && events == old(events) + [Event(old(state), a)]
      ensures forall w :: WorkOf(events, w) == Extend(old(WorkOf(events, w)), Event(old(state), a), w)
    {
      ghost var before := events;
      events := events + [Event(state, a)];
      assert events[..|before|] == before;
      forall i | 0 <= i < |events|
        ensures Leads(cfg, events[i], StateAt(events, Apply(cfg, state, a), i + 1))
      {
        if i < |before| { assert Leads(cfg, before[i], StateAt(before, state, i + 1)); }
      }
      state := Apply(cfg, state, a);
    }

    /** Whatever other workers, requests and the clock do while worker `w` is between statements. */
    method Others(w: Owner)
      requires Valid()
      modifies this
      ensures Valid() && PhaseOf(state, w) == old(PhaseOf(state, w)) && state.clock >= old(state.clock)
      ensures WorkOf(events, w) == old(WorkOf(events, w))
    {
      var script: seq<Action> := *;
      for i := 0 to |script|
        invariant Valid() && PhaseOf(state, w) == old(PhaseOf(state, w)) && state.clock >= old(state.clock)
        invariant WorkOf(events, w) == old(WorkOf(events, w))
      {
        var a := script[i];
        if !StepOf(a, w) && Enabled(cfg, state, a) { Do(a); }
      }
    }
  }

  // ----- What a worker does with one message -----

  /** The clock is read, and the update commits unless an error comes first. An error drops the batch;
      it may also come when the commit took effect but its answer was lost. */
  function Ending(before: Steps, w: Owner, raised: bool, committed: bool): Steps {
    var read := Then(before, ReadClock(w));
    var end := if committed then Then(read, Finalize(w)) else read;
    if raised then Then(end, Drop(w)) else end
  }

  predicate IsAttempt(before: Steps, after: Steps, w: Owner, raised: bool, committed: bool) {
    || (exists decrypts :: after == Ending(Then(before, Inspect(w, decrypts)), w, raised, committed))
    || (exists accepted ::
          after == Ending(Then(Then(before, Inspect(w, true)), Send(w, accepted)), w, raised, committed))
    || (raised && !committed && after == Then(Then(Then(before, Inspect(w, true)), Send(w, false)), Drop(w)))
  }

  lemma OneFurther(before: seq<Claim>, messages: seq<Claim>, i: nat)
    requires i < |messages|
    ensures messages[i..] == [messages[i]] + messages[i + 1..]
    ensures before + messages[..i + 1] == (before + messages[..i]) + [messages[i]]
  {
  }

  /** What a worker learns before it takes up a message: the time of a stop requested meanwhile, if any,
      and the monotonic clock. */
  datatype Turn = Turn(signal: Option<int>, clock: int)

  /** When a stop was first requested, up to the end of `turns`. */
  function StopAfter(turns: seq<Turn>): Option<int> {
    if turns == [] then None
    else
      var earlier := StopAfter(turns[..|turns| - 1]);
      if earlier.Some? then earlier else turns[|turns| - 1].signal
  }

  /** The grace period is over at the last of `turns`. */
  predicate OutOfGrace(turns: seq<Turn>, grace: nat) {
    turns != [] && StopAfter(turns).Some? && StopAfter(turns).value + grace <= turns[|turns| - 1].clock
  }

  /** It was over at none of `turns`. */
  predicate InGrace(turns: seq<Turn>, grace: nat) {
    turns == [] || (InGrace(turns[..|turns| - 1], grace) && !OutOfGrace(turns, grace))
  }

  lemma NextTurn(turns: seq<Turn>, i: nat, grace: nat)
    requires i < |turns|
    ensures var stop := StopAfter(turns[..i + 1]);
      && stop == (if StopAfter(turns[..i]).Some? then StopAfter(turns[..i]) else turns[i].signal)
      && (OutOfGrace(turns[..i + 1], grace) <==> stop.Some? && stop.value + grace <= turns[i].clock)
      && (InGrace(turns[..i + 1], grace) <==> InGrace(turns[..i], grace) && !OutOfGrace(turns[..i + 1], grace))
  {
    assert turns[..i + 1][..i] == turns[..i];
  }

  datatype Delivery = Accepted | MailError | OtherError

  /** `Raised` is an exception that leaves `run_once`; `cut` tells a batch given up for shutdown. */
  datatype Result = Finished(claimed: nat, cut: bool) | Raised

  class OutboxWorker {
    const owner: Owner
    const cluster: Cluster
    var stopRequestedAt: Option<int>

    constructor (owner: Owner, cluster: Cluster)
      ensures this.owner == owner && this.cluster == cluster && stopRequestedAt == None
    {
      this.owner, this.cluster, stopRequestedAt := owner, cluster, None;
    }

    /** What this worker has done so far. */
    ghost function Done(): Work
      reads cluster
    {
      WorkOf(cluster.events, owner)
    }

    /** Only the first request counts: a repeated signal does not restart the grace period. */
    method RequestStop(monotonic: int)
      modifies this`stopRequestedAt
      ensures stopRequestedAt == if old(stopRequestedAt).None? then Some(monotonic) else old(stopRequestedAt)
    {
      if stopRequestedAt.None? { stopRequestedAt := Some(monotonic); }
    }

    predicate GraceExpired(monotonic: int, grace: nat)
      reads this
    {
      stopRequestedAt.Some? && monotonic - stopRequestedAt.value >= grace
    }

    /** Claims a batch and works it off. It starts and ends holding nothing. It finalises what it
        claimed, in order, and all of it unless it raises or runs out of grace. */
    method RunOnce(grace: nat, turns: seq<Turn>)
      returns (result: Result, ghost batch: seq<Claim>, ghost done: nat)
      requires cluster.Valid() && PhaseOf(cluster.state, owner).Idle? && |turns| >= cluster.cfg.batchSize
      modifies cluster, this`stopRequestedAt
      ensures cluster.Valid() && PhaseOf(cluster.state, owner).Idle?
      ensures old(stopRequestedAt).Some? ==>
        result == Finished(0, false) && batch == [] && cluster.events == old(cluster.events)
      ensures done <= |batch| <= cluster.cfg.batchSize
      ensures Done().claimed == old(Done()).claimed + batch && Done().finalized == old(Done()).finalized + batch[..done]
      ensures result.Finished? ==> result.claimed == |batch| && (done < |batch| <==> result.cut)
      ensures InGrace(turns[..done], grace)
      ensures result.Finished? && result.cut ==> done < |turns| && OutOfGrace(turns[..done + 1], grace)
    {
      batch, done := [], 0;
      if stopRequestedAt.Some? { return Finished(0, false), batch, done; }
      var raised, messages := ClaimBatch();
      batch := messages;
      if raised { return Raised, batch, done; }
      result, done := WorkOff(messages, grace, turns);
    }

    method WorkOff(messages: seq<Claim>, grace: nat, turns: seq<Turn>)
      returns (result: Result, ghost done: nat)
      requires cluster.Valid() && PhaseOf(cluster.state, owner) == WorkOn(messages)
      requires stopRequestedAt.None? && |turns| >= |messages|
      modifies cluster, this`stopRequestedAt
      ensures cluster.Valid() && PhaseOf(cluster.state, owner).Idle?
      ensures done <= |messages|
      ensures Done().claimed == old(Done()).claimed && Done().finalized == old(Done()).finalized + messages[..done]
      ensures result.Finished? ==> result.claimed == |messages| && (done < |messages| <==> result.cut)
      ensures InGrace(turns[..done], grace)
      ensures result.Finished? && result.cut ==> done < |turns| && OutOfGrace(turns[..done + 1], grace)
    {
      done := 0;
      for i := 0 to |messages|
        invariant cluster.Valid() && PhaseOf(cluster.state, owner) == WorkOn(messages[i..])
        invariant done == i && stopRequestedAt == StopAfter(turns[..i])
        invariant InGrace(turns[..i], grace)
        invariant Done().claimed == old(Done()).claimed
        invariant Done().finalized == old(Done()).finalized + messages[..i]
      {
        OneFurther(old(Done()).finalized, messages, i);
        NextTurn(turns, i, grace);
        var message := messages[i];
        var cut, raised, committed := TakeTurn(message, messages[i + 1..], grace, turns[i]);
        if cut { return Finished(|messages|, true), i; }
        if raised { return Raised, if committed then i + 1 else i; }
        done := i + 1;
      }
      return Finished(|messages|, false), done;
    }

    method TakeTurn(message: Claim, ghost rest: seq<Claim>, grace: nat, turn: Turn)
      returns (cut: bool, raised: bool, ghost committed: bool)
      requires cluster.Valid() && PhaseOf(cluster.state, owner) == WorkOn([message] + rest)
      modifies cluster, this`stopRequestedAt
      ensures stopRequestedAt == if old(stopRequestedAt).None? then turn.signal else old(stopRequestedAt)
      ensures cut <==> stopRequestedAt.Some? && stopRequestedAt.value + grace <= turn.clock
      ensures cluster.Valid() && PhaseOf(cluster.state, owner) == if cut || raised then Idle else WorkOn(rest)
      ensures Done().claimed == old(Done()).claimed && (cut ==> !raised && !committed) && (!cut && !raised ==> committed)
      ensures Done().finalized == if committed then old(Done()).finalized + [message] else old(Done()).finalized
    {
      if turn.signal.Some? { RequestStop(turn.signal.value); }
      cut := GraceExpired(turn.clock, grace);
      if cut {
        cluster.Do(Drop(owner));
        return true, false, false;
      }
      raised, committed := ProcessMessage(message, rest);
    }

    /** `messages` are the claims that the transaction committed; when it raised, nobody works on them. */
    method ClaimBatch() returns (raised: bool, messages: seq<Claim>)
      requires cluster.Valid() && PhaseOf(cluster.state, owner).Idle?
      modifies cluster
      ensures cluster.Valid() && |messages| <= cluster.cfg.batchSize
      ensures PhaseOf(cluster.state, owner) == if raised then Idle else WorkOn(messages)
      ensures Done().claimed == old(Done()).claimed + messages && Done().finalized == old(Done()).finalized
    {
      cluster.Others(owner);
      cluster.Do(BeginClaim(owner));
      cluster.Others(owner);
      var ids: seq<MessageId>, fails: bool, answerLost: bool := *, *, *;
      if fails {
        cluster.Do(Drop(owner));
        return true, [];
      }
      if !Enabled(cluster.cfg, cluster.state, CommitClaim(owner, ids)) { ids := []; }
      messages := CommitBatch(ids);
      raised := answerLost;
      if raised { cluster.Do(Drop(owner)); }
    }

    method CommitBatch(ids: seq<MessageId>) returns (messages: seq<Claim>)
      requires cluster.Valid() && Enabled(cluster.cfg, cluster.state, CommitClaim(owner, ids))
      modifies cluster
      ensures cluster.Valid() && |messages| <= cluster.cfg.batchSize
      ensures PhaseOf(cluster.state, owner) == WorkOn(messages)
      ensures Done().claimed == old(Done()).claimed + messages && Done().finalized == old(Done()).finalized
    {
      messages := Snapshots(cluster.state.rows, ids);
      cluster.Do(CommitClaim(owner, ids));
    }

    /** Looks at the message, sends it unless it is expired or cannot be decrypted, and concludes; an
        error that is not one of the mail server drops the batch after the hand-over. Which of these
        happens is settled by the steps being enabled. */
    method ProcessMessage(message: Claim, ghost rest: seq<Claim>) returns (raised: bool, ghost committed: bool)
      requires cluster.Valid() && PhaseOf(cluster.state, owner) == WorkOn([message] + rest)
      modifies cluster
      ensures cluster.Valid() && PhaseOf(cluster.state, owner) == if raised then Idle else WorkOn(rest)
      ensures !raised ==> committed
      ensures IsAttempt(old(Done()).steps, Done().steps, owner, raised, committed)
      ensures Done().claimed == old(Done()).claimed
      ensures Done().finalized == if committed then old(Done()).finalized + [message] else old(Done()).finalized
    {
      cluster.Others(owner);
      var expired := message.payloadExpiresAt <= cluster.state.clock;
      var decrypts: bool := *;
      cluster.Do(Inspect(owner, decrypts));
      if expired {
        raised, committed := Conclude(message, Failed(Expired, false), rest);
        return;
      }
      if !decrypts {
        raised, committed := Conclude(message, Failed(InvalidPayload, false), rest);
        return;
      }
      cluster.Others(owner);
      var delivery: Delivery := *;
      cluster.Do(Send(owner, delivery.Accepted?));
      if delivery.OtherError? {
        cluster.Do(Drop(owner));
        return true, false;
      }
      raised, committed := Conclude(message, if delivery.Accepted? then Delivered else Failed(Smtp, true), rest);
    }

    /** Reads the clock, then commits the owner-conditioned update; others may act in between. */
    method Conclude(message: Claim, decision: Decision, ghost rest: seq<Claim>)
      returns (raised: bool, ghost committed: bool)
      requires cluster.Valid()
      requires PhaseOf(cluster.state, owner) == Working([message] + rest, Deciding(decision))
      modifies cluster
      ensures cluster.Valid() && PhaseOf(cluster.state, owner) == if raised then Idle else WorkOn(rest)
      ensures !raised ==> committed
      ensures Done().steps == Ending(old(Done()).steps, owner, raised, committed)
      ensures Done().claimed == old(Done()).claimed
      ensures Done().finalized == if committed then old(Done()).finalized + [message] else old(Done()).finalized
    {
      cluster.Others(owner);
      cluster.Do(ReadClock(owner));
      cluster.Others(owner);
      var fails: bool, answerLost: bool := *, *;
      if fails {
        cluster.Do(Drop(owner));
        return true, false;
      }
      assert ([message] + rest)[1..] == rest;
      cluster.Do(Finalize(owner)) by { ClaimedOnce(); }
      raised, committed := answerLost, true;
      if raised { cluster.Do(Drop(owner)); }
    }

    lemma ClaimedOnce()
      requires cluster.Valid() && PhaseOf(cluster.state, owner).Working?
      requires PhaseOf(cluster.state, owner).batch != []
      ensures 1 <= PhaseOf(cluster.state, owner).batch[0].attempts
    {
      HistoryIsRun(cluster.cfg, cluster.events, cluster.state);
      Safety.InvAlways(cluster.cfg, Actions(cluster.events));
      assert PhaseOk(cluster.state, owner, cluster.state.workers[owner]);
    }
  }
}
