/** What holds of second factors in every reachable state of the account tables. */
module MfaTheorems {
  import opened Common
  import opened AccountRows
  import opened AccountRequests
  import opened AccountMfa
  import opened AccountMfaRuns
  import opened SessionTheorems

  lemma ReachableMfa(cfg: Config, db: Db)
    requires Reachable(cfg, db)
    ensures MfaOk(db)
  {
    var requests :| db == Run(cfg, EMPTY_DB, requests);
    RunKeeps(cfg, requests);
  }

  /** Sessions of users with MFA, and only they, carry a second factor, and no two of them share a
      challenge or, for one user, a factor. */
  lemma SessionsCostFactors(cfg: Config, db: Db, i: nat, j: nat)
    requires Reachable(cfg, db) && i < j < |db.log.sessions|
    ensures var s, t := db.log.sessions[i], db.log.sessions[j];
      && (s.mfaOn <==> s.proof.SecondFactor?) && (t.mfaOn <==> t.proof.SecondFactor?)
      && (s.mfaOn && t.mfaOn ==>
            && s.proof.challenge != t.proof.challenge
            && (s.user == t.user ==> s.proof.factor != t.proof.factor))
  {
    ReachableMfa(cfg, db);
    assert Paid(db, db.log.sessions[i]) && Paid(db, db.log.sessions[j]);
    assert !SharesProof(db.log.sessions[i], db.log.sessions[j]);
  }

  /** No session was added, or one for a user without MFA. */
  predicate MintsPlain(db: Db, db': Db) {
    db'.log.sessions == db.log.sessions ||
    (|db'.log.sessions| == |db.log.sessions| + 1 && !db'.log.sessions[|db.log.sessions|].mfaOn)
  }

  lemma PrimaryMintsPlain(
    cfg: Config, db: Db, uid: UserId, purpose: Purpose, device: string, now: Time, random: Random)
    requires uid in db.users
    ensures MintsPlain(db, FinishPrimary(cfg, db, uid, purpose, device, now, random).0)
  {
  }

  lemma LoginMintsPlain(cfg: Config, db: Db, claims: Claims, device: string, now: Time, ids: NewIds, random: Random)
    ensures MintsPlain(db, OidcLogin(cfg, db, claims, device, now, ids, random).0)
  {
  }

  lemma OthersMintPlain(cfg: Config, db: Db, r: Request)
    requires !r.ChallengeVerify?
    ensures MintsPlain(db, Step(cfg, db, r))
  {
    match r
    case PasswordLogin(uid, passwordOk, device, now, random) =>
      if uid in db.users { PrimaryMintsPlain(cfg, db, uid, MfaLogin, device, now, random); }
    case OidcComplete(state, bound, provider, now, ids, random) =>
      CompletionMintsPlain(cfg, db, state, bound, provider, now, ids, random);
    case EnrollmentBegin(_, _, _, _) => FactorsMintNothing(cfg, db, r);
    case EnrollmentConfirm(_, _, _, _) => FactorsMintNothing(cfg, db, r);
    case CodesRegenerate(_, _, _, _, _) => FactorsMintNothing(cfg, db, r);
    case MfaDisable(_, _, _, _) => FactorsMintNothing(cfg, db, r);
    case _ =>
  }

  lemma FactorsMintNothing(cfg: Config, db: Db, r: Request)
    requires r.EnrollmentBegin? || r.EnrollmentConfirm? || r.CodesRegenerate? || r.MfaDisable?
    ensures Serve(cfg, db, r).0.log.sessions == db.log.sessions
  {
  }

  lemma CompletionMintsPlain(
    cfg: Config, db: Db, state: Digest, bound: bool, provider: Option<Claims>, now: Time, ids: NewIds, random: Random)
    ensures MintsPlain(db, CompleteOidc(cfg, db, state, bound, provider, now, ids, random).0)
  {
    if state in db.transactions && provider.Some? {
      var t := db.transactions[state];
      var used := UseTransaction(db, state, now);
      LoginMintsPlain(cfg, used, provider.value, t.device, now, ids, random);
    }
  }

  /** While a user has MFA on, only the completion of a challenge that was open, with a factor that
      was open, gives that user a new session. */
  lemma OnlyChallengesMint(cfg: Config, db: Db, r: Request)
    requires Reachable(cfg, db)
    ensures var db' := Step(cfg, db, r);
      |db.log.sessions| < |db'.log.sessions| && db'.log.sessions[|db.log.sessions|].mfaOn ==>
        r.ChallengeVerify? && ProofOpen(db, db'.log.sessions[|db.log.sessions|])
  {
    ReachableMfa(cfg, db);
    if !r.ChallengeVerify? {
      OthersMintPlain(cfg, db, r);
    } else if Enabled(db, r) && Serve(cfg, db, r).1.Tokens? {
      VerifySpendsOpen(cfg, db, r);
    }
  }

  lemma VerifySpendsOpen(cfg: Config, db: Db, r: Request)
    requires MfaOk(db) && r.ChallengeVerify? && Serve(cfg, db, r).1.Tokens?
    ensures var db' := Serve(cfg, db, r).0;
      |db'.log.sessions| == |db.log.sessions| + 1 && ProofOpen(db, db'.log.sessions[|db.log.sessions|])
  {
    var i := FindAction(db.actions, r.hash, MfaLogin);
    var uid := db.actions[i].user;
    assert ChallengeOpen(db.actions, r.hash);
    assert UserOk(db.users[uid]);
    MatchedCounter(cfg, db.users[uid], r.code, r.now);
  }

  /** A user has at most one open login challenge, over password and OIDC logins together. */
  lemma OneOpenChallenge(cfg: Config, db: Db, i: nat, j: nat)
    requires Reachable(cfg, db) && i < j < |db.actions|
    requires LoginPurpose(db.actions[i].purpose) && LoginPurpose(db.actions[j].purpose)
    requires db.actions[i].user == db.actions[j].user
    ensures db.actions[i].consumedAt.Some?
  {
    ReachableMfa(cfg, db);
    assert Competes(db.actions[i], db.actions[j]);
  }

  // ----- TOTP codes -----

  /** The user's codes accepted in one epoch while the time step was between `low` and `high`. */
  function CountSteps(accepted: seq<Accepted>, uid: UserId, epoch: nat, low: int, high: int): nat {
    if accepted == [] then 0
    else
      var a := accepted[|accepted| - 1];
      CountSteps(accepted[..|accepted| - 1], uid, epoch, low, high) +
      if Counted(a, uid, epoch, low, high) then 1 else 0
  }

  predicate Counted(a: Accepted, uid: UserId, epoch: nat, low: int, high: int) {
    a.user == uid && a.epoch == epoch && low <= a.step <= high
  }

  predicate Rising(accepted: seq<Accepted>) {
    && (forall i :: 0 <= i < |accepted| ==> accepted[i].step - 1 <= accepted[i].counter <= accepted[i].step + 1)
    && (forall i, j :: 0 <= i < j < |accepted| && SameEpoch(accepted[i], accepted[j]) ==>
          accepted[i].counter < accepted[j].counter)
  }

  lemma {:induction false} RisingBound(accepted: seq<Accepted>, uid: UserId, epoch: nat, low: int, high: int, top: int)
    requires Rising(accepted) && low - 2 <= top
    requires forall i :: 0 <= i < |accepted| && Counted(accepted[i], uid, epoch, low, high) ==> accepted[i].counter <= top
    ensures CountSteps(accepted, uid, epoch, low, high) <= top - low + 2
  {
    if accepted != [] {
      var n := |accepted| - 1;
      var a := accepted[n];
      var counts := Counted(a, uid, epoch, low, high);
      RisingBound(accepted[..n], uid, epoch, low, high, if counts then a.counter - 1 else top);
    }
  }

  /** Within one enrolment no counter is accepted twice or after a later one, so while the time step
      stays between `low` and `high` at most `high - low + 3` codes are accepted. */
  lemma AcceptedCodes(cfg: Config, db: Db, uid: UserId, epoch: nat, low: int, high: int)
    requires Reachable(cfg, db) && low <= high
    ensures Rising(db.log.accepted)
    ensures CountSteps(db.log.accepted, uid, epoch, low, high) <= high - low + 3
  {
    ReachableMfa(cfg, db);
    RisingBound(db.log.accepted, uid, epoch, low, high, high + 1);
  }

  // ----- Enrolling -----

  function EnrollingUser(secret: string, now: Time): User {
    User("u", None, false, true, true, Some(secret), Some(now), None, None)
  }

  /** A user with one live session who has begun to enrol. */
  predicate Enrolling(db: Db, secret: string, now: Time) {
    db.users == map[0 := EnrollingUser(secret, now)] &&
    |db.tokens| == 1 && db.tokens[0].user == 0 && !db.tokens[0].revoked
  }

  lemma SignedIn(cfg: Config, now: Time) returns (db: Db)
    ensures Reachable(cfg, db) && db.users == map[0 := User("u", None, false, true, true, None, None, None, None)]
    ensures |db.tokens| == 1 && db.tokens[0].user == 0 && !db.tokens[0].revoked
  {
    var register := Register(0, "u", None);
    var login := PasswordLogin(0, true, "device", now, Random("family", "token", "challenge"));
    assert EMPTY_DB == Run(cfg, EMPTY_DB, []);
    ReachableStep(cfg, EMPTY_DB, register);
    ReachableStep(cfg, Step(cfg, EMPTY_DB, register), login);
    db := Step(cfg, Step(cfg, EMPTY_DB, register), login);
  }

  lemma BeginsEnrolling(cfg: Config, secret: string, now: Time) returns (db: Db)
    requires cfg.mfaAvailable
    ensures Reachable(cfg, db) && Enrolling(db, secret, now)
  {
    var db0 := SignedIn(cfg, now);
    ReachableStep(cfg, db0, EnrollmentBegin(0, true, secret, now));
    db := Step(cfg, db0, EnrollmentBegin(0, true, secret, now));
  }

  /** Counter `k` is one of the three around the current step, and its code has six digits. */
  predicate Usable(cfg: Config, secret: string, now: Time, k: int) {
    TimeStep(now) - 1 <= k <= TimeStep(now) + 1 && SixDigits(cfg.otp(secret, k))
  }

  /** Confirming with the code of such a counter switches MFA on, and spends that counter or an earlier
      one with the same code. */
  lemma Confirms(cfg: Config, db: Db, secret: string, now: Time, k: int) returns (r: Request)
    requires cfg.mfaAvailable && cfg.enrollmentLifetime > 0
    requires Enrolling(db, secret, now) && Usable(cfg, secret, now, k)
    ensures r == EnrollmentConfirm(0, cfg.otp(secret, k), now, []) && Enabled(db, r)
    ensures var db' := Step(cfg, db, r);
      && db'.tokens == db.tokens && db'.users.Keys == {0}
      && db'.users[0].mfaEnabledAt.Some? && db'.users[0].secret == Some(secret)
      && db'.users[0].lastCounter.Some? && db'.users[0].lastCounter.value <= k
      && Earliest(cfg, db.users[0], cfg.otp(secret, k), TimeStep(now), db'.users[0].lastCounter.value)
  {
    var code := cfg.otp(secret, k);
    r := EnrollmentConfirm(0, code, now, []);
    var m := MatchTotp(cfg, db.users[0], code, now);
    assert m.Matched? && m.counter <= k;
    MatchExact(cfg, db.users[0], code, now, m.counter);
  }

  predicate RefusedUnspent(cfg: Config, user: User, code: string, now: Time) {
    cfg.mfaAvailable && OffersUnspent(cfg, user, code, TimeStep(now)) && MatchTotp(cfg, user, code, now) == NoMatch
  }

  ghost predicate RefusesUnspent(cfg: Config, code: string, now: Time) {
    exists db :: Reachable(cfg, db) && 0 in db.users && RefusedUnspent(cfg, db.users[0], code, now)
  }

  /** A code that an unspent counter produces is refused in some run, whenever two of the three counters
      around the current step share a code: the user has used it for the earlier one. */
  lemma RefusalPossible(cfg: Config, secret: string, now: Time, j: int, k: int)
    requires cfg.mfaAvailable && cfg.enrollmentLifetime > 0
    requires Usable(cfg, secret, now, j) && Usable(cfg, secret, now, k)
    requires j < k && cfg.otp(secret, j) == cfg.otp(secret, k)
    ensures RefusesUnspent(cfg, cfg.otp(secret, k), now)
  {
    var db := BeginsEnrolling(cfg, secret, now);
    var r := Confirms(cfg, db, secret, now, j);
    ReachableStep(cfg, db, r);
    var user, code := Step(cfg, db, r).users[0], cfg.otp(secret, k);
    assert Produces(cfg, user, code, k) && !Spent(user, k);
    var last := user.lastCounter.value;
    assert Produces(cfg, user, code, last) && Spent(user, last);
    RefusedExact(cfg, user, code, now);
    assert RefusedUnspent(cfg, user, code, now);
  }
}
