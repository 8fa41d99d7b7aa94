/** Where sessions come from, and exactly when the requests that guard an account succeed. */
module SessionOrigins {
  import opened Common
  import opened AccountRows
  import opened AccountRequests
  import opened AccountMfa
  import opened AccountMfaRuns
  import opened SessionTheorems
  import opened AccountIdentities
  import MfaTheorems

  // ----- Every session follows an authentication -----

  predicate OpenAction(a: ActionToken, hash: Digest, purpose: Purpose, now: Time) {
    a.hash == hash && SameUse(a.purpose, purpose) && a.consumedAt.None? && now < a.expiresAt
  }

  predicate HoldsOpen(actions: seq<ActionToken>, hash: Digest, purpose: Purpose, now: Time, uid: UserId) {
    exists k :: 0 <= k < |actions| && actions[k].user == uid && OpenAction(actions[k], hash, purpose, now)
  }

  predicate OpenTransaction(db: Db, state: Digest, now: Time) {
    state in db.transactions && db.transactions[state].consumedAt.None? && now < db.transactions[state].expiresAt
  }

  predicate WithoutMfa(users: map<UserId, User>, uid: UserId) {
    uid in users ==> users[uid].mfaEnabledAt.None?
  }

  /** What request `r` shows about user `uid`. */
  predicate Authenticated(db: Db, db': Db, r: Request, uid: UserId) {
    match r
    case PasswordLogin(v, passwordOk, _, _, _) =>
      v == uid && passwordOk && uid in db.users && db.users[uid].passwordLogin && WithoutMfa(db.users, uid)
    case ChallengeVerify(hash, _, now, _) =>
      HoldsOpen(db.actions, hash, MfaLogin, now, uid) && uid in db.users && db.users[uid].mfaEnabledAt.Some?
    case OidcComplete(state, bound, provider, now, _, _) =>
      && bound && provider.Some? && OpenTransaction(db, state, now) && db.transactions[state].intent.ToLogin?
      && Vouched(db'.identities, provider.value, uid) && WithoutMfa(db.users, uid)
    case _ => false
  }

  predicate OneSessionFor(db: Db, db': Db, uid: UserId) {
    && |db'.log.sessions| == |db.log.sessions| + 1 && db'.log.sessions[|db.log.sessions|].user == uid
    && uid in db'.users && db'.users[uid].active
  }

  predicate NoSession(db: Db, db': Db) {
    db'.log.sessions == db.log.sessions
  }

  lemma PrimaryOrigin(
    cfg: Config, db: Db, uid: UserId, purpose: Purpose, device: string, now: Time, random: Random)
    requires uid in db.users
    ensures var db' := FinishPrimary(cfg, db, uid, purpose, device, now, random).0;
      && db'.identities == db.identities && db'.users == db.users
      && (NoSession(db, db') || (OneSessionFor(db, db', uid) && WithoutMfa(db.users, uid)))
  {
  }

  lemma OidcLoginOrigin(cfg: Config, db: Db, claims: Claims, device: string, now: Time, ids: NewIds, random: Random)
    requires ids.user !in db.users
    ensures var db' := OidcLogin(cfg, db, claims, device, now, ids, random).0;
      NoSession(db, db') ||
      exists uid :: OneSessionFor(db, db', uid) && Vouched(db'.identities, claims, uid) && WithoutMfa(db.users, uid)
  {
    var db' := OidcLogin(cfg, db, claims, device, now, ids, random).0;
    var i := FindSubject(db.identities, claims.issuer, claims.subject);
    if i < |db.identities| {
      var uid := db.identities[i].user;
      if Locked(db, uid) {
        PrimaryOrigin(cfg, db, uid, OidcMfaLogin, device, now, random);
        assert Vouched(db.identities, claims, uid);
      }
    } else if claims.email.Some? && !EmailTaken(db.users, claims.email) {
      var db1 := AddAccount(db, claims, ids);
      PrimaryOrigin(cfg, db1, ids.user, OidcMfaLogin, device, now, random);
      assert db1.identities[|db.identities|] == NewIdentity(claims, ids, ids.user);
      assert Vouched(db1.identities, claims, ids.user);
    }
  }

  lemma CompleteOrigin(cfg: Config, db: Db, r: Request)
    requires r.OidcComplete? && Enabled(db, r)
    ensures var db' := Serve(cfg, db, r).0;
      NoSession(db, db') || exists uid :: OneSessionFor(db, db', uid) && Authenticated(db, db', r, uid)
  {
    var reply := Serve(cfg, db, r);
    if !reply.1.Error? && db.transactions[r.state].intent.ToLogin? {
      var t := db.transactions[r.state];
      var used := UseTransaction(db, r.state, r.now);
      OidcLoginOrigin(cfg, used, r.provider.value, t.device, r.now, r.ids, r.random);
      if !NoSession(db, reply.0) {
        var uid :| OneSessionFor(used, reply.0, uid) && Vouched(reply.0.identities, r.provider.value, uid) &&
          WithoutMfa(used.users, uid);
        assert OneSessionFor(db, reply.0, uid) && Authenticated(db, reply.0, r, uid);
      }
    }
  }

  lemma VerifyOrigin(cfg: Config, db: Db, r: Request)
    requires r.ChallengeVerify?
    ensures var db' := Serve(cfg, db, r).0;
      NoSession(db, db') || exists uid :: OneSessionFor(db, db', uid) && Authenticated(db, db', r, uid)
  {
    var reply := Serve(cfg, db, r);
    if reply.1.Tokens? {
      var uid := db.actions[FindAction(db.actions, r.hash, MfaLogin)].user;
      assert HoldsOpen(db.actions, r.hash, MfaLogin, r.now, uid);
      assert OneSessionFor(db, reply.0, uid);
    }
  }

  lemma OthersStartNone(cfg: Config, db: Db, r: Request)
    requires !r.PasswordLogin? && !r.ChallengeVerify? && !r.OidcComplete?
    ensures NoSession(db, Serve(cfg, db, r).0)
  {
    if r.EnrollmentBegin? || r.EnrollmentConfirm? || r.CodesRegenerate? || r.MfaDisable? {
      MfaTheorems.FactorsMintNothing(cfg, db, r);
    }
  }

  /** A step starts at most one session, for an active user whom the request has authenticated: by
      password or identity while MFA is off, and by an open challenge while it is on. */
  lemma SessionsNeedAuthentication(cfg: Config, db: Db, r: Request)
    ensures var db' := Step(cfg, db, r);
      NoSession(db, db') || exists uid :: OneSessionFor(db, db', uid) && Authenticated(db, db', r, uid)
  {
    if Enabled(db, r) {
      match r
      case PasswordLogin(uid, _, device, now, random) =>
        if uid in db.users {
          PrimaryOrigin(cfg, db, uid, MfaLogin, device, now, random);
          assert !NoSession(db, Step(cfg, db, r)) ==> Authenticated(db, Step(cfg, db, r), r, uid);
        }
      case ChallengeVerify(_, _, _, _) => VerifyOrigin(cfg, db, r);
      case OidcComplete(_, _, _, _, _, _) => CompleteOrigin(cfg, db, r);
      case _ => OthersStartNone(cfg, db, r);
    }
  }

  // ----- Exactly when a request succeeds -----

  lemma ActionFound(actions: seq<ActionToken>, hash: Digest, purpose: Purpose, k: nat)
    requires ActionsOk(actions) && k < |actions| && actions[k].hash == hash && SameUse(actions[k].purpose, purpose)
    ensures FindAction(actions, hash, purpose) == k
  {
  }

  ghost predicate Acceptable(cfg: Config, user: User, code: string, now: Time) {
    exists counter :: Earliest(cfg, user, code, TimeStep(now), counter) &&
      (user.lastCounter.Some? ==> counter > user.lastCounter.value)
  }

  /** The secret can be decrypted, or is not needed to refuse the code. */
  predicate Checkable(cfg: Config, user: User, code: string) {
    cfg.mfaAvailable || !SixDigits(code) || user.secret.None?
  }

  lemma MatchedIffAcceptable(cfg: Config, user: User, code: string, now: Time)
    ensures MatchTotp(cfg, user, code, now).Unavailable? <==> !Checkable(cfg, user, code)
    ensures MatchTotp(cfg, user, code, now).Matched? <==>
      Checkable(cfg, user, code) && Acceptable(cfg, user, code, now)
  {
    var m := MatchTotp(cfg, user, code, now);
    if m.Matched? { MatchExact(cfg, user, code, now, m.counter); }
    if Acceptable(cfg, user, code, now) {
      var counter :| Earliest(cfg, user, code, TimeStep(now), counter) &&
        (user.lastCounter.Some? ==> counter > user.lastCounter.value);
      MatchExact(cfg, user, code, now, counter);
    }
  }

  predicate HasCode(cfg: Config, codes: seq<RecoveryCode>, uid: UserId, code: string) {
    exists j :: 0 <= j < |codes| && codes[j].user == uid && codes[j].usedAt.None? &&
      Some(codes[j].hash) == cfg.codeHash(code)
  }

  /** A login challenge is completed if and only if it is open and its active user, with MFA on,
      presents an acceptable TOTP code or an unused recovery code. */
  lemma VerifyExact(cfg: Config, db: Db, hash: Digest, code: string, now: Time, random: Random, k: nat)
    requires Reachable(cfg, db)
    requires k < |db.actions| && db.actions[k].hash == hash && LoginPurpose(db.actions[k].purpose)
    ensures var uid := db.actions[k].user;
      VerifyChallenge(cfg, db, hash, code, now, random).1 == Tokens(uid) <==>
        && cfg.mfaAvailable && OpenAction(db.actions[k], hash, MfaLogin, now)
        && uid in db.users && db.users[uid].active && db.users[uid].mfaEnabledAt.Some?
        && (Acceptable(cfg, db.users[uid], code, now) || HasCode(cfg, db.codes, uid, code))
  {
    MfaTheorems.ReachableMfa(cfg, db);
    ActionFound(db.actions, hash, MfaLogin, k);
    var uid := db.actions[k].user;
    if uid in db.users { MatchedIffAcceptable(cfg, db.users[uid], code, now); }
  }

  /** A reset is confirmed if and only if its token is open and was issued for the address that its
      active, verified user still has. */
  lemma ResetExact(cfg: Config, db: Db, hash: Digest, now: Time, k: nat)
    requires Reachable(cfg, db)
    requires k < |db.actions| && db.actions[k].hash == hash && db.actions[k].purpose.ResetPassword?
    ensures var a := db.actions[k];
      ConfirmReset(db, hash, now).1.Ok? <==>
        && OpenAction(a, hash, ResetPassword, now)
        && a.user in db.users && db.users[a.user].active && db.users[a.user].emailVerified
        && db.users[a.user].email == Some(a.target)
  {
    MfaTheorems.ReachableMfa(cfg, db);
    ActionFound(db.actions, hash, ResetPassword, k);
  }

  // ----- Switching MFA on and off -----

  predicate MfaOn(db: Db, uid: UserId) {
    uid in db.users && db.users[uid].mfaEnabledAt.Some?
  }

  predicate EnrollmentOpen(cfg: Config, user: User, now: Time) {
    user.enrollmentCreatedAt.Some? && now < user.enrollmentCreatedAt.value + cfg.enrollmentLifetime
  }

  lemma PrimaryKeepsMfa(
    cfg: Config, db: Db, v: UserId, purpose: Purpose, device: string, now: Time, random: Random, uid: UserId)
    requires v in db.users
    ensures MfaOn(FinishPrimary(cfg, db, v, purpose, device, now, random).0, uid) <==> MfaOn(db, uid)
  {
  }

  lemma OidcLoginKeepsMfa(
    cfg: Config, db: Db, claims: Claims, device: string, now: Time, ids: NewIds, random: Random, uid: UserId)
    requires ids.user !in db.users
    ensures MfaOn(OidcLogin(cfg, db, claims, device, now, ids, random).0, uid) <==> MfaOn(db, uid)
  {
  }

  lemma CompleteKeepsMfa(cfg: Config, db: Db, r: Request, uid: UserId)
    requires r.OidcComplete? && Enabled(db, r)
    ensures MfaOn(Serve(cfg, db, r).0, uid) <==> MfaOn(db, uid)
  {
    if !Serve(cfg, db, r).1.Error? {
      var t := db.transactions[r.state];
      var used := UseTransaction(db, r.state, r.now);
      if t.intent.ToLogin? {
        OidcLoginKeepsMfa(cfg, used, r.provider.value, t.device, r.now, r.ids, r.random, uid);
      }
    }
  }

  lemma VerifyKeepsMfa(cfg: Config, db: Db, r: Request, uid: UserId)
    requires r.ChallengeVerify?
    ensures MfaOn(Serve(cfg, db, r).0, uid) <==> MfaOn(db, uid)
  {
  }

  lemma FactorsKeepMfa(cfg: Config, db: Db, r: Request, uid: UserId)
    requires r.EnrollmentBegin? || r.CodesRegenerate? || r.StatusChange? || r.ResetConfirm?
    ensures MfaOn(Serve(cfg, db, r).0, uid) <==> MfaOn(db, uid)
  {
  }

  lemma OthersKeepMfa(cfg: Config, db: Db, r: Request, uid: UserId)
    requires Enabled(db, r)
    requires r.Register? || r.EmailVerified? || r.RefreshToken? || r.LogoutToken? || r.RevokeUserSessions? ||
      r.ResetRequest? || r.OidcBegin? || r.IdentityUnlink?
    ensures MfaOn(Serve(cfg, db, r).0, uid) <==> MfaOn(db, uid)
  {
  }

  lemma RequestKeepsMfa(cfg: Config, db: Db, r: Request, uid: UserId)
    requires !r.EnrollmentConfirm? && !r.MfaDisable?
    ensures MfaOn(Step(cfg, db, r), uid) <==> MfaOn(db, uid)
  {
    if Enabled(db, r) {
      match r
      case PasswordLogin(v, _, device, now, random) =>
        if v in db.users { PrimaryKeepsMfa(cfg, db, v, MfaLogin, device, now, random, uid); }
      case ChallengeVerify(_, _, _, _) => VerifyKeepsMfa(cfg, db, r, uid);
      case OidcComplete(_, _, _, _, _, _) => CompleteKeepsMfa(cfg, db, r, uid);
      case EnrollmentBegin(_, _, _, _) => FactorsKeepMfa(cfg, db, r, uid);
      case CodesRegenerate(_, _, _, _, _) => FactorsKeepMfa(cfg, db, r, uid);
      case StatusChange(_, _, _) => FactorsKeepMfa(cfg, db, r, uid);
      case ResetConfirm(_, _) => FactorsKeepMfa(cfg, db, r, uid);
      case _ => OthersKeepMfa(cfg, db, r, uid);
    }
  }

  lemma ConfirmSwitchesOn(
    cfg: Config, db: Db, v: UserId, code: string, now: Time, hashes: seq<Digest>, uid: UserId)
    ensures MfaOn(ConfirmEnrollment(cfg, db, v, code, now, hashes).0, uid) <==>
      MfaOn(db, uid) ||
      (v == uid && Locked(db, uid) && EnrollmentOpen(cfg, db.users[uid], now) &&
       Checkable(cfg, db.users[uid], code) && Acceptable(cfg, db.users[uid], code, now))
  {
    if v in db.users { MatchedIffAcceptable(cfg, db.users[v], code, now); }
  }

  lemma DisableSwitchesOff(
    cfg: Config, db: Db, v: UserId, passwordOk: bool, code: string, now: Time, uid: UserId)
    ensures MfaOn(DisableMfa(cfg, db, v, passwordOk, code, now).0, uid) <==>
      MfaOn(db, uid) &&
      !(v == uid && Locked(db, uid) && passwordOk && Checkable(cfg, db.users[uid], code) &&
        (Acceptable(cfg, db.users[uid], code, now) || HasCode(cfg, db.codes, uid, code)))
  {
    if v in db.users { MatchedIffAcceptable(cfg, db.users[v], code, now); }
  }

  /** MFA is switched on by confirming an enrolment in time with an acceptable code, and by nothing
      else. */
  lemma SwitchedOnExact(cfg: Config, db: Db, r: Request, uid: UserId)
    requires Enabled(db, r) && !MfaOn(db, uid)
    ensures MfaOn(Step(cfg, db, r), uid) <==>
      && r.EnrollmentConfirm? && r.uid == uid && Locked(db, uid)
      && EnrollmentOpen(cfg, db.users[uid], r.now) && Checkable(cfg, db.users[uid], r.code)
      && Acceptable(cfg, db.users[uid], r.code, r.now)
  {
    match r
    case EnrollmentConfirm(v, code, now, hashes) => ConfirmSwitchesOn(cfg, db, v, code, now, hashes, uid);
    case MfaDisable(v, ok, code, now) => DisableSwitchesOff(cfg, db, v, ok, code, now, uid);
    case _ => RequestKeepsMfa(cfg, db, r, uid);
  }

  /** It is switched off by the password together with an acceptable code or an unused recovery code,
      and by nothing else. */
  lemma SwitchedOffExact(cfg: Config, db: Db, r: Request, uid: UserId)
    requires Enabled(db, r) && MfaOn(db, uid)
    ensures !MfaOn(Step(cfg, db, r), uid) <==>
      && r.MfaDisable? && r.uid == uid && Locked(db, uid) && r.passwordOk && Checkable(cfg, db.users[uid], r.code)
      && (Acceptable(cfg, db.users[uid], r.code, r.now) || HasCode(cfg, db.codes, uid, r.code))
  {
    match r
    case EnrollmentConfirm(v, code, now, hashes) => ConfirmSwitchesOn(cfg, db, v, code, now, hashes, uid);
    case MfaDisable(v, ok, code, now) => DisableSwitchesOff(cfg, db, v, ok, code, now, uid);
    case _ => RequestKeepsMfa(cfg, db, r, uid);
  }
}
