/** Second factors over every run: what is accepted once is spent, and sessions of users with MFA use
    up one challenge and one factor each. */
module AccountMfa {
  import opened Common
  import opened AccountRows
  import opened AccountRequests

  // ----- The invariant -----

  /** The three states of enrolment: off, pending, on. */
  predicate UserOk(u: User) {
    && (u.mfaEnabledAt.Some? ==> u.secret.Some? && u.enrollmentCreatedAt.None?)
    && (u.enrollmentCreatedAt.Some? ==> u.secret.Some?)
    && (u.secret.Some? ==> u.mfaEnabledAt.Some? || u.enrollmentCreatedAt.Some?)
    && (u.mfaEnabledAt.Some? <==> u.lastCounter.Some?)
  }

  predicate UsersOk(users: map<UserId, User>) {
    forall u :: u in users ==> UserOk(users[u])
  }

  /** A counter is spent once its epoch is over or a counter at least as great was accepted. */
  predicate CounterSpent(db: Db, uid: UserId, epoch: nat, counter: int) {
    && uid in db.users
    && epoch <= EpochOf(db.log, uid)
    && (epoch == EpochOf(db.log, uid) ==>
          db.users[uid].lastCounter.Some? && counter <= db.users[uid].lastCounter.value)
  }

  predicate AcceptedOk(db: Db) {
    && (forall i :: 0 <= i < |db.log.accepted| ==>
          var a := db.log.accepted[i];
          CounterSpent(db, a.user, a.epoch, a.counter) && a.step - 1 <= a.counter <= a.step + 1)
    && (forall i, j :: 0 <= i < j < |db.log.accepted| && SameEpoch(db.log.accepted[i], db.log.accepted[j]) ==>
          db.log.accepted[i].counter < db.log.accepted[j].counter)
  }

  predicate SameEpoch(a: Accepted, b: Accepted) {
    a.user == b.user && a.epoch == b.epoch
  }

  predicate CodesOk(codes: seq<RecoveryCode>, issued: set<Digest>) {
    && (forall i, j :: 0 <= i < j < |codes| ==> codes[i].hash != codes[j].hash)
    && (forall i :: 0 <= i < |codes| ==> codes[i].hash in issued)
  }

  /** Only the newest token of a user and use may still be open; both login purposes are one use. */
  predicate ActionsOk(actions: seq<ActionToken>) {
    && (forall i, j :: 0 <= i < j < |actions| ==> actions[i].hash != actions[j].hash)
    && (forall i, j :: 0 <= i < j < |actions| && Competes(actions[i], actions[j]) ==> actions[i].consumedAt.Some?)
  }

  predicate Competes(a: ActionToken, b: ActionToken) {
    a.user == b.user && SameUse(a.purpose, b.purpose)
  }

  predicate ChallengeSpent(actions: seq<ActionToken>, challenge: Digest) {
    exists k :: 0 <= k < |actions| && actions[k].hash == challenge && actions[k].consumedAt.Some?
  }

  predicate FactorSpent(db: Db, uid: UserId, f: Factor) {
    match f
    case Counter(epoch, counter) => CounterSpent(db, uid, epoch, counter)
    case Recovery(code) =>
      && code in db.log.issuedCodes
      && forall k :: 0 <= k < |db.codes| && db.codes[k].hash == code ==> db.codes[k].usedAt.Some?
  }

  predicate Paid(db: Db, s: Session) {
    && s.user in db.users
    && (s.mfaOn <==> s.proof.SecondFactor?)
    && (s.proof.SecondFactor? ==>
          ChallengeSpent(db.actions, s.proof.challenge) && FactorSpent(db, s.user, s.proof.factor))
  }

  predicate SharesProof(s: Session, t: Session) {
    s.proof.SecondFactor? && t.proof.SecondFactor? &&
    (s.proof.challenge == t.proof.challenge || (s.user == t.user && s.proof.factor == t.proof.factor))
  }

  predicate SessionsPaid(db: Db) {
    && (forall i :: 0 <= i < |db.log.sessions| ==> Paid(db, db.log.sessions[i]))
    && (forall i, j :: 0 <= i < j < |db.log.sessions| ==> !SharesProof(db.log.sessions[i], db.log.sessions[j]))
  }

  predicate MfaOk(db: Db) {
    && UsersOk(db.users) && AcceptedOk(db) && CodesOk(db.codes, db.log.issuedCodes)
    && ActionsOk(db.actions) && SessionsPaid(db)
  }

  // ----- Nothing spent becomes usable again -----

  /** The user's enrolment epoch moves on, or stays with a counter that does not fall. */
  predicate UserAdvances(db: Db, db': Db, uid: UserId)
    requires uid in db.users
  {
    && uid in db'.users
    && EpochOf(db.log, uid) <= EpochOf(db'.log, uid)
    && (EpochOf(db.log, uid) == EpochOf(db'.log, uid) && db.users[uid].lastCounter.Some? ==>
          && db'.users[uid].lastCounter.Some?
          && db.users[uid].lastCounter.value <= db'.users[uid].lastCounter.value)
  }

  predicate ActionsAdvance(actions: seq<ActionToken>, later: seq<ActionToken>) {
    |actions| <= |later| && forall i :: 0 <= i < |actions| ==>
      actions[i].hash == later[i].hash && (actions[i].consumedAt.Some? ==> later[i].consumedAt.Some?)
  }

  /** A code of the later table is new, or was in the table before and is not fresher than it was. */
  predicate CodeAdvances(db: Db, c: RecoveryCode) {
    c.hash !in db.log.issuedCodes ||
    exists k :: 0 <= k < |db.codes| && db.codes[k].hash == c.hash && (db.codes[k].usedAt.Some? ==> c.usedAt.Some?)
  }

  predicate CodesAdvance(db: Db, db': Db) {
    db.log.issuedCodes <= db'.log.issuedCodes && forall i :: 0 <= i < |db'.codes| ==> CodeAdvances(db, db'.codes[i])
  }

  predicate UsersAdvance(db: Db, db': Db) {
    forall u :: u in db.users ==> UserAdvances(db, db', u)
  }

  predicate Advances(db: Db, db': Db) {
    UsersAdvance(db, db') && ActionsAdvance(db.actions, db'.actions) && CodesAdvance(db, db')
  }

  lemma PaidStays(db: Db, db': Db, s: Session)
    requires Advances(db, db') && Paid(db, s)
    ensures Paid(db', s)
  {
    if s.proof.SecondFactor? {
      assert UserAdvances(db, db', s.user);
      var k :| 0 <= k < |db.actions| && db.actions[k].hash == s.proof.challenge && db.actions[k].consumedAt.Some?;
      assert db'.actions[k].hash == s.proof.challenge && db'.actions[k].consumedAt.Some?;
      if s.proof.factor.Recovery? {
        forall m | 0 <= m < |db'.codes| && db'.codes[m].hash == s.proof.factor.code
          ensures db'.codes[m].usedAt.Some?
        {
          assert CodeAdvances(db, db'.codes[m]);
        }
      }
    }
  }

  lemma PaidSessionsStay(db: Db, db': Db)
    requires Advances(db, db') && SessionsPaid(db) && db'.log.sessions == db.log.sessions
    ensures SessionsPaid(db')
  {
    forall i | 0 <= i < |db'.log.sessions| ensures Paid(db', db'.log.sessions[i]) {
      PaidStays(db, db', db.log.sessions[i]);
    }
  }

  predicate FactorOpen(db: Db, uid: UserId, f: Factor) {
    match f
    case Counter(epoch, counter) =>
      epoch == EpochOf(db.log, uid) && uid in db.users && db.users[uid].lastCounter.Some? &&
      counter > db.users[uid].lastCounter.value
    case Recovery(code) => exists k :: 0 <= k < |db.codes| && db.codes[k].hash == code && db.codes[k].usedAt.None?
  }

  predicate ChallengeOpen(actions: seq<ActionToken>, challenge: Digest) {
    exists k :: 0 <= k < |actions| && actions[k].hash == challenge && actions[k].consumedAt.None?
  }

  predicate ProofOpen(db: Db, s: Session) {
    s.proof.SecondFactor? ==> ChallengeOpen(db.actions, s.proof.challenge) && FactorOpen(db, s.user, s.proof.factor)
  }

  /** A session whose challenge and factor were open before shares them with no earlier session. */
  lemma NewSessionPaid(db: Db, db': Db, s: Session)
    requires Advances(db, db') && SessionsPaid(db) && ActionsOk(db.actions)
    requires db'.log.sessions == db.log.sessions + [s]
    requires ProofOpen(db, s) && Paid(db', s)
    ensures SessionsPaid(db')
  {
    var n := |db.log.sessions|;
    forall i | 0 <= i < n ensures Paid(db', db'.log.sessions[i]) && !SharesProof(db'.log.sessions[i], s) {
      var t := db.log.sessions[i];
      PaidStays(db, db', t);
      if t.proof.SecondFactor? && s.proof.SecondFactor? {
        SpentIsNotOpen(db.actions, t.proof.challenge);
        assert FactorSpent(db, t.user, t.proof.factor);
      }
    }
  }

  lemma SpentIsNotOpen(actions: seq<ActionToken>, challenge: Digest)
    requires ActionsOk(actions) && ChallengeSpent(actions, challenge)
    ensures !ChallengeOpen(actions, challenge)
  {
  }

  lemma AcceptedStay(db: Db, db': Db)
    requires UsersAdvance(db, db') && AcceptedOk(db) && db'.log.accepted == db.log.accepted
    ensures AcceptedOk(db')
  {
    forall i | 0 <= i < |db'.log.accepted|
      ensures var a := db'.log.accepted[i]; CounterSpent(db', a.user, a.epoch, a.counter)
    {
      var a := db.log.accepted[i];
      assert CounterSpent(db, a.user, a.epoch, a.counter);
      assert UserAdvances(db, db', a.user);
    }
  }

  /** Accepting a counter above the last one keeps the counters of the epoch increasing. */
  lemma AcceptOk(db: Db, db': Db, uid: UserId, counter: int, now: Time)
    requires UsersAdvance(db, db') && AcceptedOk(db) && uid in db.users
    requires db'.log.accepted == Accept(db.log, uid, counter, now).accepted
    requires db.users[uid].lastCounter.Some? ==> counter > db.users[uid].lastCounter.value
    requires CounterSpent(db', uid, EpochOf(db.log, uid), counter)
    requires TimeStep(now) - 1 <= counter <= TimeStep(now) + 1
    ensures AcceptedOk(db')
  {
    var n := |db.log.accepted|;
    forall i | 0 <= i < n
      ensures var a := db'.log.accepted[i]; CounterSpent(db', a.user, a.epoch, a.counter)
      ensures SameEpoch(db'.log.accepted[i], db'.log.accepted[n]) ==>
        db'.log.accepted[i].counter < db'.log.accepted[n].counter
    {
      var a := db.log.accepted[i];
      assert CounterSpent(db, a.user, a.epoch, a.counter);
      assert UserAdvances(db, db', a.user);
    }
  }

  // ----- TOTP -----

  /** Steps of 30 seconds since the epoch. */
  lemma TimeStepExact(now: Time, k: nat)
    ensures TimeStep(now) == k <==> 30_000_000 * k <= now < 30_000_000 * (k + 1)
  {
    assert now == SECOND * (now / SECOND) + now % SECOND;
  }

  predicate Produces(cfg: Config, user: User, code: string, counter: int) {
    SixDigits(code) && user.secret.Some? && cfg.otp(user.secret.value, counter) == code
  }

  predicate Earliest(cfg: Config, user: User, code: string, step: int, counter: int) {
    && step - 1 <= counter <= step + 1
    && Produces(cfg, user, code, counter)
    && forall k :: step - 1 <= k < counter ==> !Produces(cfg, user, code, k)
  }

  /** A code is accepted exactly when the earliest of the three counters that produce it is above the
      last accepted counter; a later producing counter does not help. */
  lemma MatchExact(cfg: Config, user: User, code: string, now: Time, counter: int)
    ensures MatchTotp(cfg, user, code, now) == Matched(counter) <==>
      && cfg.mfaAvailable && Earliest(cfg, user, code, TimeStep(now), counter)
      && (user.lastCounter.Some? ==> counter > user.lastCounter.value)
  {
    var step := TimeStep(now);
    if Earliest(cfg, user, code, step, counter) {
      assert !Produces(cfg, user, code, step - 1) || counter == step - 1;
      assert !Produces(cfg, user, code, step) || counter <= step;
    }
  }

  predicate Spent(user: User, counter: int) {
    user.lastCounter.Some? && counter <= user.lastCounter.value
  }

  /** One of the three counters around `step` produces the code, and is still to be accepted. */
  predicate OffersUnspent(cfg: Config, user: User, code: string, step: int) {
    exists k :: step - 1 <= k <= step + 1 && Produces(cfg, user, code, k) && !Spent(user, k)
  }

  predicate OffersSpent(cfg: Config, user: User, code: string, step: int) {
    exists k :: step - 1 <= k <= step + 1 && Produces(cfg, user, code, k) && Spent(user, k)
  }

  /** A code that an unspent counter produces is refused all the same exactly when a spent counter of
      the three produces it too. */
  lemma RefusedExact(cfg: Config, user: User, code: string, now: Time)
    requires cfg.mfaAvailable && OffersUnspent(cfg, user, code, TimeStep(now))
    ensures MatchTotp(cfg, user, code, now) == NoMatch <==> OffersSpent(cfg, user, code, TimeStep(now))
  {
    var step := TimeStep(now);
    assert Produces(cfg, user, code, step - 1) || Produces(cfg, user, code, step) || Produces(cfg, user, code, step + 1);
    var m := MatchTotp(cfg, user, code, now);
    if m.Matched? {
      MatchExact(cfg, user, code, now, m.counter);
    } else {
      var k := if Produces(cfg, user, code, step - 1) then step - 1
               else if Produces(cfg, user, code, step) then step else step + 1;
      assert Earliest(cfg, user, code, step, k);
      MatchExact(cfg, user, code, now, k);
      assert Spent(user, k);
    }
  }

  predicate RefusedUnspent(cfg: Config, user: User, code: string, now: Time) {
    cfg.mfaAvailable && OffersUnspent(cfg, user, code, TimeStep(now)) && MatchTotp(cfg, user, code, now) == NoMatch
  }

  /** The search loop over the three counters. */
  method MatchingCounter(cfg: Config, user: User, code: string, now: Time) returns (r: Match)
    ensures r == MatchTotp(cfg, user, code, now)
  {
    if !SixDigits(code) || user.secret.None? { return NoMatch; }
    if !cfg.mfaAvailable { return Unavailable; }
    var current := TimeStep(now);
    for offset := -1 to 2
      invariant offset > -1 ==> cfg.otp(user.secret.value, current - 1) != code
      invariant offset > 0 ==> cfg.otp(user.secret.value, current) != code
      invariant offset > 1 ==> cfg.otp(user.secret.value, current + 1) != code
    {
      var counter := current + offset;
      if cfg.otp(user.secret.value, counter) == code {
        if user.lastCounter.Some? && counter <= user.lastCounter.value { return NoMatch; }
        return Matched(counter);
      }
    }
    return NoMatch;
  }
}
