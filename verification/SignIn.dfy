/** Signing in from one end to the other: what an external sign-in yields, and that what one request
    issues is what a later one accepts, for exactly as long as configured. */
module SignIn {
  import opened Common
  import opened AccountRows
  import opened AccountRequests
  import opened AccountMfa
  import opened AccountIdentities
  import opened SessionTheorems
  import opened SessionOrigins
  import opened RequestEffects

  // ----- External sign-in -----

  predicate ActiveWith(db: Db, uid: UserId, mfa: bool) {
    uid in db.users && db.users[uid].active && MfaOn(db, uid) == mfa
  }

  /** The identity is nobody's, and its verified address is free. */
  predicate Newcomer(db: Db, claims: Claims) {
    && !Known(db.identities, claims) && claims.email.Some?
    && forall u :: u in db.users ==> db.users[u].email != claims.email
  }

  /** The account and identity of a newcomer are added, and nothing else about users or identities. */
  predicate Joined(db: Db, db': Db, claims: Claims, ids: NewIds) {
    && db'.users == db.users[ids.user := User(ids.username, claims.email, true, true, false, None, None, None, None)]
    && db'.identities == db.identities + [Identity(ids.identity, ids.user, claims.issuer, claims.subject)]
  }

  lemma OwnerIsFound(db: Db, claims: Claims)
    requires LinksOk(db)
    ensures var i := FindSubject(db.identities, claims.issuer, claims.subject);
      && (i < |db.identities| <==> Known(db.identities, claims))
      && forall uid :: Vouched(db.identities, claims, uid) <==> i < |db.identities| && db.identities[i].user == uid
  {
    var i := FindSubject(db.identities, claims.issuer, claims.subject);
    forall k | 0 <= k < |db.identities| && k != i && i < |db.identities|
      ensures db.identities[k].issuer != claims.issuer || db.identities[k].subject != claims.subject
    {
      var a, b := if k < i then k else i, if k < i then i else k;
      assert !Clash(db.identities[a], db.identities[b]);
    }
  }

  /** A known identity signs its active owner in. */
  lemma OwnerSignsIn(
    cfg: Config, db: Db, claims: Claims, device: string, now: Time, ids: NewIds, random: Random, uid: UserId)
    requires LinksOk(db) && Vouched(db.identities, claims, uid)
    ensures var (db', r) := OidcLogin(cfg, db, claims, device, now, ids, random);
      && (r == Tokens(uid) <==> ActiveWith(db, uid, false)) && (r.Tokens? ==> r == Tokens(uid))
      && (r.Challenge? <==> ActiveWith(db, uid, true) && cfg.mfaAvailable)
      && (r.Tokens? ==> Started(cfg, db.tokens, db'.tokens, uid, device, now, random) && db'.actions == db.actions)
      && (r.Challenge? ==>
            && r == Challenge(random.challenge) && db'.tokens == db.tokens
            && Issued(db.actions, db'.actions, uid, OidcMfaLogin, random.challenge, device, now, now + cfg.challengeLifetime))
      && (!r.Tokens? && !r.Challenge? ==> db' == db && r == Error(if ActiveWith(db, uid, true) then 503 else 401))
      && db'.users == db.users && db'.identities == db.identities && db'.transactions == db.transactions
      && db'.codes == db.codes
  {
    OwnerIsFound(db, claims);
  }

  /** An unknown identity makes an account, or is refused. */
  lemma StrangerSignsIn(
    cfg: Config, db: Db, claims: Claims, device: string, now: Time, ids: NewIds, random: Random)
    requires LinksOk(db) && !Known(db.identities, claims) && ids.user !in db.users
    ensures var (db', r) := OidcLogin(cfg, db, claims, device, now, ids, random);
      && (r.Tokens? <==> Newcomer(db, claims)) && !r.Challenge?
      && (r.Tokens? ==>
            && r == Tokens(ids.user) && Joined(db, db', claims, ids)
            && Started(cfg, db.tokens, db'.tokens, ids.user, device, now, random) && db'.actions == db.actions)
      && (!r.Tokens? ==> db' == db && r == Error(if claims.email.None? then 403 else 409))
      && db'.transactions == db.transactions && db'.codes == db.codes
  {
    OwnerIsFound(db, claims);
  }

  /** The transaction is consumed, once. */
  predicate Completed(db: Db, db': Db, state: Digest, now: Time) {
    state in db.transactions &&
    db'.transactions == db.transactions[state := db.transactions[state].(consumedAt := Some(now))]
  }

  /** A transaction that is not open or not bound, or a provider that vouches for nothing, is refused. */
  lemma CompletionNeeds(
    cfg: Config, db: Db, state: Digest, bound: bool, provider: Option<Claims>, now: Time, ids: NewIds, random: Random)
    requires !OpenTransaction(db, state, now) || !bound || provider.None?
    ensures CompleteOidc(cfg, db, state, bound, provider, now, ids, random) == (db, Error(400))
  {
  }

  lemma UsedLinksOk(db: Db, state: Digest, now: Time)
    requires LinksOk(db) && OpenTransaction(db, state, now)
    ensures LinksOk(UseTransaction(db, state, now))
  {
    var used := UseTransaction(db, state, now);
    assert OneShot(used.transactions, used.log.completed);
  }

  /** Completing a sign-in yields a session exactly for an active owner without MFA and for a newcomer,
      and a challenge exactly for an active owner with MFA on while MFA is available. */
  lemma SignInExact(cfg: Config, db: Db, state: Digest, claims: Claims, now: Time, ids: NewIds, random: Random)
    requires Reachable(cfg, db) && FreshIn(db, random) && FreshIds(db, ids)
    requires OpenTransaction(db, state, now) && db.transactions[state].intent.ToLogin?
    ensures var (db', r) := CompleteOidc(cfg, db, state, true, Some(claims), now, ids, random);
      && (forall uid :: r == Tokens(uid) <==>
            || (Vouched(db.identities, claims, uid) && ActiveWith(db, uid, false))
            || (Newcomer(db, claims) && uid == ids.user))
      && (r.Challenge? <==>
            exists uid :: Vouched(db.identities, claims, uid) && ActiveWith(db, uid, true) && cfg.mfaAvailable)
  {
    ReachableLinks(cfg, db);
    var used := UseTransaction(db, state, now);
    UsedLinksOk(db, state, now);
    OwnerIsFound(db, claims);
    if Known(db.identities, claims) {
      var owner := db.identities[FindSubject(db.identities, claims.issuer, claims.subject)].user;
      OwnerSignsIn(cfg, used, claims, db.transactions[state].device, now, ids, random, owner);
    } else {
      StrangerSignsIn(cfg, used, claims, db.transactions[state].device, now, ids, random);
    }
  }

  /** What an owner's sign-in leaves: the transaction used, a session or challenge for the device of the
      transaction, and otherwise the tables as they were. */
  lemma OwnerCompletes(
    cfg: Config, db: Db, state: Digest, claims: Claims, now: Time, ids: NewIds, random: Random, uid: UserId)
    requires Reachable(cfg, db) && Vouched(db.identities, claims, uid)
    requires OpenTransaction(db, state, now) && db.transactions[state].intent.ToLogin?
    ensures var (db', r) := CompleteOidc(cfg, db, state, true, Some(claims), now, ids, random);
      var device := db.transactions[state].device;
      && (r.Tokens? ==> Completed(db, db', state, now) && Started(cfg, db.tokens, db'.tokens, uid, device, now, random))
      && (r.Challenge? ==>
            && r == Challenge(random.challenge) && Completed(db, db', state, now)
            && Issued(db.actions, db'.actions, uid, OidcMfaLogin, random.challenge, device, now, now + cfg.challengeLifetime))
      && (!r.Tokens? && !r.Challenge? ==> db' == db && r == Error(if ActiveWith(db, uid, true) then 503 else 401))
      && db'.users == db.users && db'.identities == db.identities && db'.codes == db.codes
  {
    ReachableLinks(cfg, db);
    UsedLinksOk(db, state, now);
    OwnerSignsIn(cfg, UseTransaction(db, state, now), claims, db.transactions[state].device, now, ids, random, uid);
  }

  /** What a stranger's sign-in leaves: a new account with that address, verified, and without password
      login, or the tables as they were. */
  lemma StrangerCompletes(
    cfg: Config, db: Db, state: Digest, claims: Claims, now: Time, ids: NewIds, random: Random)
    requires Reachable(cfg, db) && FreshIds(db, ids) && !Known(db.identities, claims)
    requires OpenTransaction(db, state, now) && db.transactions[state].intent.ToLogin?
    ensures var (db', r) := CompleteOidc(cfg, db, state, true, Some(claims), now, ids, random);
      && (r.Tokens? ==>
            && Completed(db, db', state, now) && Joined(db, db', claims, ids)
            && Started(cfg, db.tokens, db'.tokens, ids.user, db.transactions[state].device, now, random))
      && (!r.Tokens? ==> db' == db && r == Error(if claims.email.None? then 403 else 409))
  {
    ReachableLinks(cfg, db);
    UsedLinksOk(db, state, now);
    StrangerSignsIn(cfg, UseTransaction(db, state, now), claims, db.transactions[state].device, now, ids, random);
  }

  /** Completing a link answers as linking does, and a refusal leaves even the transaction open. */
  lemma LinkCompletes(
    cfg: Config, db: Db, state: Digest, claims: Claims, now: Time, ids: NewIds, random: Random)
    requires Reachable(cfg, db) && OpenTransaction(db, state, now) && db.transactions[state].intent.ToLink?
    ensures var (db', r) := CompleteOidc(cfg, db, state, true, Some(claims), now, ids, random);
      var uid := db.transactions[state].intent.user;
      && (r.Ok? <==>
            && Locked(db, uid)
            && (Vouched(db.identities, claims, uid) ||
                (!Known(db.identities, claims) && NoneAt(db.identities, uid, claims.issuer))))
      && (r.Ok? ==> Completed(db, db', state, now) && Vouched(db'.identities, claims, uid))
      && (!r.Ok? ==> db' == db && r == Error(if Locked(db, uid) then 409 else 401))
  {
    ReachableLinks(cfg, db);
    UsedLinksOk(db, state, now);
    var used, uid := UseTransaction(db, state, now), db.transactions[state].intent.user;
    LinkAnswers(used, uid, claims, now, ids);
    LinkExact(used, uid, claims, now, ids);
  }

  // ----- What is issued is accepted, for as long as configured -----

  /** A challenge that was just issued is completed exactly before it expires, with an acceptable code. */
  lemma IssuedIsAccepted(
    cfg: Config, db: Db, db1: Db, uid: UserId, purpose: Purpose, device: string, now: Time, random: Random,
    code: string, later: Time, random1: Random)
    requires cfg.mfaAvailable && ActiveWith(db, uid, true) && LoginPurpose(purpose) && Reachable(cfg, db1)
    requires Issued(db.actions, db1.actions, uid, purpose, random.challenge, device, now, now + cfg.challengeLifetime)
    requires db1.users == db.users && db1.codes == db.codes
    ensures var (db2, r) := VerifyChallenge(cfg, db1, random.challenge, code, later, random1);
      && (r == Tokens(uid) <==>
            && later < now + cfg.challengeLifetime
            && (Acceptable(cfg, db.users[uid], code, later) || HasCode(cfg, db.codes, uid, code)))
      && (r == Tokens(uid) ==>
            |db2.tokens| == |db1.tokens| + 1 && Begins(cfg, db2.tokens[|db1.tokens|], uid, device, later, random1))
  {
    var k := |db.actions|;
    VerifyExact(cfg, db1, random.challenge, code, later, random1, k);
    if VerifyChallenge(cfg, db1, random.challenge, code, later, random1).1 == Tokens(uid) {
      if Acceptable(cfg, db.users[uid], code, later) {
        VerifyWithTotp(cfg, db1, random.challenge, code, later, random1, k);
      } else {
        VerifyWithRecovery(cfg, db1, random.challenge, code, later, random1, k);
      }
    }
  }

  /** Password login with MFA: the challenge answers to a second factor until it expires, and the session
      carries the device given at login. */
  lemma PasswordThenFactor(
    cfg: Config, db: Db, uid: UserId, device: string, now: Time, random: Random,
    code: string, later: Time, random1: Random)
    requires Reachable(cfg, db) && FreshIn(db, random) && cfg.mfaAvailable
    requires ActiveWith(db, uid, true) && db.users[uid].passwordLogin
    ensures var (db1, r1) := LogIn(cfg, db, uid, true, device, now, random);
      var (db2, r2) := VerifyChallenge(cfg, db1, random.challenge, code, later, random1);
      && r1 == Challenge(random.challenge)
      && (r2 == Tokens(uid) <==>
            && later < now + cfg.challengeLifetime
            && (Acceptable(cfg, db.users[uid], code, later) || HasCode(cfg, db.codes, uid, code)))
      && (r2 == Tokens(uid) ==>
            |db2.tokens| == |db1.tokens| + 1 && Begins(cfg, db2.tokens[|db1.tokens|], uid, device, later, random1))
  {
    LoginExact(cfg, db, uid, true, device, now, random);
    var db1 := LogIn(cfg, db, uid, true, device, now, random).0;
    ReachableStep(cfg, db, PasswordLogin(uid, true, device, now, random));
    assert db1 == Step(cfg, db, PasswordLogin(uid, true, device, now, random));
    IssuedIsAccepted(cfg, db, db1, uid, MfaLogin, device, now, random, code, later, random1);
  }

  /** External sign-in with MFA: the same, with the device of the transaction. */
  lemma IdentityThenFactor(
    cfg: Config, db: Db, state: Digest, claims: Claims, uid: UserId, now: Time, ids: NewIds, random: Random,
    code: string, later: Time, random1: Random)
    requires Reachable(cfg, db) && FreshIn(db, random) && FreshIds(db, ids) && cfg.mfaAvailable
    requires OpenTransaction(db, state, now) && db.transactions[state].intent.ToLogin?
    requires Vouched(db.identities, claims, uid) && ActiveWith(db, uid, true)
    ensures var (db1, r1) := CompleteOidc(cfg, db, state, true, Some(claims), now, ids, random);
      var (db2, r2) := VerifyChallenge(cfg, db1, random.challenge, code, later, random1);
      && r1 == Challenge(random.challenge)
      && (r2 == Tokens(uid) <==>
            && later < now + cfg.challengeLifetime
            && (Acceptable(cfg, db.users[uid], code, later) || HasCode(cfg, db.codes, uid, code)))
      && (r2 == Tokens(uid) ==>
            && |db2.tokens| == |db1.tokens| + 1
            && Begins(cfg, db2.tokens[|db1.tokens|], uid, db.transactions[state].device, later, random1))
  {
    var r := OidcComplete(state, true, Some(claims), now, ids, random);
    var db1 := CompleteOidc(cfg, db, state, true, Some(claims), now, ids, random).0;
    SignInExact(cfg, db, state, claims, now, ids, random);
    OwnerCompletes(cfg, db, state, claims, now, ids, random, uid);
    ReachableStep(cfg, db, r);
    assert db1 == Step(cfg, db, r);
    IssuedIsAccepted(cfg, db, db1, uid, OidcMfaLogin, db.transactions[state].device, now, random, code, later, random1);
  }

  /** A transaction that was just begun is open exactly until it expires, with its intent and device. */
  lemma BegunIsOpen(cfg: Config, db: Db, state: Digest, intent: Intent, device: string, now: Time, later: Time)
    ensures var db1 := BeginOidc(cfg, db, state, intent, device, now).0;
      && (OpenTransaction(db1, state, later) <==> later < now + cfg.transactionLifetime)
      && db1.transactions[state].intent == intent && db1.transactions[state].device == device
  {
  }

  /** A reset token that was just issued is confirmed exactly until it expires. */
  lemma RequestedIsConfirmed(
    cfg: Config, db: Db, uid: UserId, lifetime: nat, now: Time, random: Random, later: Time)
    requires Reachable(cfg, db) && FreshIn(db, random) && CanReset(db, uid)
    ensures var db1 := RequestReset(db, uid, lifetime, now, random).0;
      ConfirmReset(db1, random.challenge, later).1.Ok? <==> later < now + lifetime
  {
    ResetRequestExact(db, uid, lifetime, now, random);
    var db1 := RequestReset(db, uid, lifetime, now, random).0;
    ReachableStep(cfg, db, ResetRequest(uid, lifetime, now, random));
    assert db1 == Step(cfg, db, ResetRequest(uid, lifetime, now, random));
    ResetExact(cfg, db1, random.challenge, later, |db.actions|);
  }

  /** An enrolment that was just begun is confirmed exactly until it expires, by a code of one of the
      three counters then current. */
  lemma BegunIsConfirmed(
    cfg: Config, db: Db, uid: UserId, secret: string, now: Time, code: string, later: Time, hashes: seq<Digest>)
    requires cfg.mfaAvailable && Locked(db, uid) && !MfaOn(db, uid)
    ensures var db1 := BeginEnrollment(cfg, db, uid, true, secret, now).0;
      MfaOn(ConfirmEnrollment(cfg, db1, uid, code, later, hashes).0, uid) <==>
        && later < now + cfg.enrollmentLifetime && SixDigits(code)
        && exists k :: TimeStep(later) - 1 <= k <= TimeStep(later) + 1 && cfg.otp(secret, k) == code
  {
    EnrollmentBeginExact(cfg, db, uid, true, secret, now);
    var db1 := BeginEnrollment(cfg, db, uid, true, secret, now).0;
    ConfirmSwitchesOn(cfg, db1, uid, code, later, hashes, uid);
    MatchedIffAcceptable(cfg, db1.users[uid], code, later);
  }
}
