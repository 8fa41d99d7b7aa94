/** Revocation as seen from the tables: whatever changes how a user can sign in also ends the sessions
    that the user had, except that switching MFA on leaves them alive; and a request ends sessions of
    one user only. */
module SignInChanges {
  import opened Common
  import opened AccountRows
  import opened AccountRequests
  import opened AccountSessions
  import opened AccountMfaRuns
  import opened SessionTheorems
  import MfaTheorems

  // ----- What counts as a change -----

  function OwnCodes(codes: seq<RecoveryCode>, uid: UserId): set<RecoveryCode> {
    set c | c in codes && c.user == uid
  }

  function OwnIdentities(identities: seq<Identity>, uid: UserId): set<Identity> {
    set x | x in identities && x.user == uid
  }

  /** The account was disabled, password login, MFA or an identity was added to it or taken from it,
      or a recovery code was used or replaced. */
  predicate SignInChanged(db: Db, db': Db, uid: UserId)
    requires uid in db.users && uid in db'.users
  {
    var u, v := db.users[uid], db'.users[uid];
    || (u.active && !v.active)
    || u.passwordLogin != v.passwordLogin
    || u.mfaEnabledAt.Some? != v.mfaEnabledAt.Some?
    || (u.mfaEnabledAt.Some? && OwnCodes(db.codes, uid) != OwnCodes(db'.codes, uid))
    || OwnIdentities(db.identities, uid) != OwnIdentities(db'.identities, uid)
  }

  /** No token that the user had before is live. */
  predicate Ended(db: Db, db': Db, uid: UserId) {
    |db.tokens| <= |db'.tokens| &&
    forall i :: 0 <= i < |db.tokens| && db.tokens[i].user == uid ==> db'.tokens[i].revoked
  }

  predicate Protected(db: Db, db': Db, uid: UserId) {
    uid in db.users && uid in db'.users && SignInChanged(db, db', uid) ==> Ended(db, db', uid)
  }

  // ----- Tables -----

  /** Replacing a user's recovery codes leaves exactly the new ones, and everybody else's. */
  lemma ReplaceExact(db: Db, uid: UserId, hashes: seq<Digest>)
    ensures forall c :: c in ReplaceCodes(db, uid, hashes).codes <==>
      if c.user == uid then c.hash in hashes && c.usedAt.None? else c in db.codes
  {
    DeleteExact(db.codes, uid);
    var added := NewCodes(uid, hashes);
    forall c: RecoveryCode | c.user == uid && c.hash in hashes && c.usedAt.None? ensures c in added {
      var i :| 0 <= i < |hashes| && hashes[i] == c.hash;
      assert added[i] == c;
    }
  }

  lemma ReplaceKeepsOthers(db: Db, uid: UserId, hashes: seq<Digest>, v: UserId)
    requires v != uid
    ensures OwnCodes(ReplaceCodes(db, uid, hashes).codes, v) == OwnCodes(db.codes, v)
  {
    ReplaceExact(db, uid, hashes);
  }

  lemma DeleteKeepsOthers(codes: seq<RecoveryCode>, uid: UserId, v: UserId)
    requires v != uid
    ensures OwnCodes(DeleteCodes(codes, uid), v) == OwnCodes(codes, v)
  {
    DeleteExact(codes, uid);
  }

  lemma UseKeepsOthers(codes: seq<RecoveryCode>, j: nat, at: Time, v: UserId)
    requires j < |codes| && codes[j].user != v
    ensures OwnCodes(codes[j := codes[j].(usedAt := Some(at))], v) == OwnCodes(codes, v)
  {
    var later := codes[j := codes[j].(usedAt := Some(at))];
    forall c | c in codes && c.user == v ensures c in later {
      var k :| 0 <= k < |codes| && codes[k] == c;
      assert later[k] == c;
    }
  }

  lemma RemoveKeepsOthers(identities: seq<Identity>, i: nat, v: UserId)
    requires i < |identities| && identities[i].user != v
    ensures OwnIdentities(RemoveAt(identities, i), v) == OwnIdentities(identities, v)
  {
    var rest := RemoveAt(identities, i);
    forall x | x in identities && x.user == v ensures x in rest {
      var k :| 0 <= k < |identities| && identities[k] == x;
      assert rest[if k < i then k else k - 1] == x;
    }
  }

  lemma AddKeepsOthers(identities: seq<Identity>, x: Identity, v: UserId)
    requires x.user != v
    ensures OwnIdentities(identities + [x], v) == OwnIdentities(identities, v)
  {
  }

  // ----- Requests -----

  /** Nothing changed that would have to end sessions. */
  predicate Untouched(db: Db, db': Db, uid: UserId)
    requires uid in db.users
  {
    && uid in db'.users
    && (db.users[uid].active ==> db'.users[uid].active)
    && db.users[uid].passwordLogin == db'.users[uid].passwordLogin
    && db.users[uid].mfaEnabledAt.Some? == db'.users[uid].mfaEnabledAt.Some?
    && (db.users[uid].mfaEnabledAt.Some? ==> OwnCodes(db.codes, uid) == OwnCodes(db'.codes, uid))
    && OwnIdentities(db.identities, uid) == OwnIdentities(db'.identities, uid)
  }

  lemma PrimaryTouchesNothing(
    cfg: Config, db: Db, v: UserId, purpose: Purpose, device: string, now: Time, random: Random, uid: UserId)
    requires v in db.users && uid in db.users
    ensures Untouched(db, FinishPrimary(cfg, db, v, purpose, device, now, random).0, uid)
  {
  }

  lemma StatusProtects(db: Db, v: UserId, active: bool, now: Time, uid: UserId)
    ensures Protected(db, SetStatus(db, v, active, now).0, uid)
  {
  }

  lemma ResetProtects(db: Db, hash: Digest, now: Time, uid: UserId)
    ensures Protected(db, ConfirmReset(db, hash, now).0, uid)
  {
  }

  lemma BeginProtects(cfg: Config, db: Db, v: UserId, passwordOk: bool, secret: string, now: Time, uid: UserId)
    ensures Protected(db, BeginEnrollment(cfg, db, v, passwordOk, secret, now).0, uid)
  {
    if uid != v { DeleteKeepsOthers(db.codes, v, uid); }
  }

  /** Confirming an enrolment revokes nothing. */
  lemma ConfirmSparesSessions(cfg: Config, db: Db, r: Request)
    requires r.EnrollmentConfirm?
    ensures Step(cfg, db, r).tokens == db.tokens
  {
  }

  lemma RegenerateProtects(
    cfg: Config, db: Db, v: UserId, passwordOk: bool, code: string, now: Time, hashes: seq<Digest>, uid: UserId)
    ensures Protected(db, RegenerateCodes(cfg, db, v, passwordOk, code, now, hashes).0, uid)
  {
    if uid != v { ReplaceKeepsOthers(db, v, hashes, uid); }
  }

  lemma DisableProtects(cfg: Config, db: Db, v: UserId, passwordOk: bool, code: string, now: Time, uid: UserId)
    ensures Protected(db, DisableMfa(cfg, db, v, passwordOk, code, now).0, uid)
  {
    if uid != v { DeleteKeepsOthers(db.codes, v, uid); }
  }

  lemma VerifyProtects(cfg: Config, db: Db, hash: Digest, code: string, now: Time, random: Random, uid: UserId)
    ensures Protected(db, VerifyChallenge(cfg, db, hash, code, now, random).0, uid)
  {
    var reply := VerifyChallenge(cfg, db, hash, code, now, random);
    if reply.1.Tokens? {
      var i := FindAction(db.actions, hash, MfaLogin);
      var v := db.actions[i].user;
      var j := UsableCode(cfg, db, v, code);
      if j < |db.codes| && uid != v { UseKeepsOthers(db.codes, j, now, uid); }
    }
  }

  lemma UnlinkProtects(db: Db, id: nat, v: UserId, now: Time, uid: UserId)
    ensures Protected(db, Unlink(db, id, v, now).0, uid)
  {
    var i := FindOwn(db.identities, id, v);
    if i < |db.identities| && uid != v { RemoveKeepsOthers(db.identities, i, uid); }
  }

  lemma LinkProtects(db: Db, v: UserId, claims: Claims, now: Time, ids: NewIds, uid: UserId)
    ensures Protected(db, OidcLink(db, v, claims, now, ids).0, uid)
  {
    if uid != v {
      AddKeepsOthers(db.identities, NewIdentity(claims, ids, v), uid);
    }
  }

  lemma OidcLoginTouchesNothing(
    cfg: Config, db: Db, claims: Claims, device: string, now: Time, ids: NewIds, random: Random, uid: UserId)
    requires uid in db.users && ids.user !in db.users
    ensures Untouched(db, OidcLogin(cfg, db, claims, device, now, ids, random).0, uid)
  {
    var i := FindSubject(db.identities, claims.issuer, claims.subject);
    if i < |db.identities| {
      var v := db.identities[i].user;
      if Locked(db, v) { PrimaryTouchesNothing(cfg, db, v, OidcMfaLogin, device, now, random, uid); }
    } else if claims.email.Some? && !EmailTaken(db.users, claims.email) {
      AddKeepsOthers(db.identities, NewIdentity(claims, ids, ids.user), uid);
      PrimaryTouchesNothing(cfg, AddAccount(db, claims, ids), ids.user, OidcMfaLogin, device, now, random, uid);
    }
  }

  lemma CompleteProtects(cfg: Config, db: Db, r: Request, uid: UserId)
    requires r.OidcComplete? && Enabled(db, r)
    ensures Protected(db, Serve(cfg, db, r).0, uid)
  {
    var reply := Serve(cfg, db, r);
    if !reply.1.Error? && uid in db.users {
      var t := db.transactions[r.state];
      var used := UseTransaction(db, r.state, r.now);
      match t.intent
      case ToLink(v) => LinkProtects(used, v, r.provider.value, r.now, r.ids, uid);
      case ToLogin => OidcLoginTouchesNothing(cfg, used, r.provider.value, t.device, r.now, r.ids, r.random, uid);
    }
  }

  /** Requests that cannot change how anybody signs in. */
  lemma ElsewhereProtects(cfg: Config, db: Db, r: Request, uid: UserId)
    requires Enabled(db, r) && uid in db.users
    requires r.Register? || r.EmailVerified? || r.RefreshToken? || r.LogoutToken? || r.RevokeUserSessions? ||
      r.ResetRequest? || r.OidcBegin?
    ensures Untouched(db, Serve(cfg, db, r).0, uid)
  {
  }

  /** Sessions that were ended stay so. */
  lemma EndedForever(cfg: Config, db: Db, db': Db, uid: UserId, requests: seq<Request>)
    requires SessionsOk(db') && AllEvolved(db.tokens, db'.tokens) && Ended(db, db', uid)
    ensures Ended(db, Run(cfg, db', requests), uid)
  {
    RunIsSound(cfg, db', requests);
    var later := Run(cfg, db', requests).tokens;
    forall i | 0 <= i < |db.tokens| && db.tokens[i].user == uid ensures later[i].revoked {
      assert Evolved(db'.tokens[i], later[i]);
    }
  }

  /** A request that changes how a user can sign in ends every session the user had, for good, unless
      it confirms an enrolment. */
  lemma SignInChangesEndSessions(cfg: Config, db: Db, r: Request, uid: UserId, requests: seq<Request>)
    requires Reachable(cfg, db) && !r.EnrollmentConfirm?
    requires uid in db.users && uid in Step(cfg, db, r).users && SignInChanged(db, Step(cfg, db, r), uid)
    ensures Ended(db, Run(cfg, Step(cfg, db, r), requests), uid)
  {
    ReachableSessions(cfg, db);
    StepIsSound(cfg, db, r);
    if Enabled(db, r) { ServeProtects(cfg, db, r, uid); }
    EndedForever(cfg, db, Step(cfg, db, r), uid, requests);
  }

  /** Switching MFA on does not: a change ends the earlier sessions if and only if it is not the
      confirmation of an enrolment, or there were none to end. */
  lemma EndsSessionsExact(cfg: Config, db: Db, r: Request, uid: UserId)
    requires Reachable(cfg, db)
    requires uid in db.users && uid in Step(cfg, db, r).users && SignInChanged(db, Step(cfg, db, r), uid)
    ensures Ended(db, Step(cfg, db, r), uid) <==> !r.EnrollmentConfirm? || Ended(db, db, uid)
  {
    if r.EnrollmentConfirm? { ConfirmSparesSessions(cfg, db, r); }
    else { SignInChangesEndSessions(cfg, db, r, uid, []); }
  }

  predicate SparesSessions(cfg: Config, db: Db, r: Request, uid: UserId) {
    && Enabled(db, r) && uid in db.users && uid in Step(cfg, db, r).users
    && SignInChanged(db, Step(cfg, db, r), uid) && !Ended(db, Step(cfg, db, r), uid)
  }

  /** Which happens under every configuration that lets anybody enrol: a user with a live session
      confirms an enrolment and keeps the session. */
  lemma ConfirmationSpares(cfg: Config, secret: string, now: Time, k: int)
    requires cfg.mfaAvailable && cfg.enrollmentLifetime > 0 && MfaTheorems.Usable(cfg, secret, now, k)
    ensures exists db, r :: Reachable(cfg, db) && SparesSessions(cfg, db, r, 0)
  {
    var db := MfaTheorems.BeginsEnrolling(cfg, secret, now);
    var r := MfaTheorems.Confirms(cfg, db, secret, now, k);
    assert !Ended(db, Step(cfg, db, r), 0);
    assert SparesSessions(cfg, db, r, 0);
  }

  lemma ServeProtects(cfg: Config, db: Db, r: Request, uid: UserId)
    requires Enabled(db, r) && uid in db.users && !r.EnrollmentConfirm?
    ensures Protected(db, Serve(cfg, db, r).0, uid)
  {
    match r
    case PasswordLogin(v, _, device, now, random) =>
      if v in db.users { PrimaryTouchesNothing(cfg, db, v, MfaLogin, device, now, random, uid); }
    case StatusChange(v, active, now) => StatusProtects(db, v, active, now, uid);
    case ResetConfirm(hash, now) => ResetProtects(db, hash, now, uid);
    case EnrollmentBegin(v, ok, secret, now) => BeginProtects(cfg, db, v, ok, secret, now, uid);
    case CodesRegenerate(v, ok, code, now, hashes) => RegenerateProtects(cfg, db, v, ok, code, now, hashes, uid);
    case MfaDisable(v, ok, code, now) => DisableProtects(cfg, db, v, ok, code, now, uid);
    case ChallengeVerify(hash, code, now, random) => VerifyProtects(cfg, db, hash, code, now, random, uid);
    case OidcComplete(_, _, _, _, _, _) => CompleteProtects(cfg, db, r, uid);
    case IdentityUnlink(id, v, now) => UnlinkProtects(db, id, v, now, uid);
    case _ => ElsewhereProtects(cfg, db, r, uid);
  }

  // ----- Requests that are meant to end sessions -----

  /** A confirmed reset ends every session of the token's owner for good, and leaves no reset token of
      the owner open. */
  lemma ResetEndsSessions(cfg: Config, db: Db, hash: Digest, now: Time, requests: seq<Request>)
    requires Reachable(cfg, db) && ConfirmReset(db, hash, now).1.Ok?
    ensures var a, db' := db.actions[FindAction(db.actions, hash, ResetPassword)], ConfirmReset(db, hash, now).0;
      && Ended(db, Run(cfg, db', requests), a.user)
      && forall k :: 0 <= k < |db'.actions| && db'.actions[k].user == a.user && db'.actions[k].purpose.ResetPassword? ==>
           db'.actions[k].consumedAt.Some?
  {
    ReachableSessions(cfg, db);
    var uid := db.actions[FindAction(db.actions, hash, ResetPassword)].user;
    var db' := ConfirmReset(db, hash, now).0;
    RevokeIsSound(db, db', OfUser(uid), PasswordReset, now);
    EndedForever(cfg, db, db', uid, requests);
  }

  /** Logging out kills the family of the token, and ends no other session. */
  lemma LogoutKillsFamily(cfg: Config, db: Db, i: nat, now: Time, requests: seq<Request>)
    requires Reachable(cfg, db) && i < |db.tokens|
    ensures var after := LogOut(db, db.tokens[i].hash, now).0;
      && Dead(Run(cfg, after, requests).tokens, db.tokens[i].family)
      && |after.tokens| == |db.tokens|
      && forall k :: 0 <= k < |db.tokens| && db.tokens[k].family != db.tokens[i].family ==>
           after.tokens[k] == db.tokens[k]
  {
    ReachableSessions(cfg, db);
    LogoutRevokes(db, i, now);
    DeadForever(cfg, LogOut(db, db.tokens[i].hash, now).0, db.tokens[i].family, requests);
  }

  lemma LogoutRevokes(db: Db, i: nat, now: Time)
    requires SessionsOk(db) && i < |db.tokens|
    ensures var after := LogOut(db, db.tokens[i].hash, now).0;
      && after.tokens == Revoke(db.tokens, OfFamily(db.tokens[i].family), Logout, now)
      && SessionsOk(after) && HasFamily(after.tokens, db.tokens[i].family) && Dead(after.tokens, db.tokens[i].family)
  {
    HashFinds(db.tokens, i);
    var family := db.tokens[i].family;
    var after := LogOut(db, db.tokens[i].hash, now).0;
    RevokeIsSound(db, after, OfFamily(family), Logout, now);
    assert after.tokens[i].family == family;
  }

  // ----- One user per request -----

  predicate OneUserHit(tokens: seq<Token>, later: seq<Token>) {
    |tokens| <= |later| &&
    forall i, j :: 0 <= i < |tokens| && 0 <= j < |tokens| && later[i] != tokens[i] && later[j] != tokens[j] ==>
      tokens[i].user == tokens[j].user
  }

  lemma RevokeHitsOne(tokens: seq<Token>, sel: Selector, reason: Reason, at: Time)
    requires TokensOk(tokens)
    ensures OneUserHit(tokens, Revoke(tokens, sel, reason, at))
  {
    if sel.OfFamily? {
      forall i, j | 0 <= i < |tokens| && 0 <= j < |tokens| && tokens[i].family == tokens[j].family
        ensures tokens[i].user == tokens[j].user
      {
        assert i < j ==> SameChain(tokens[i], tokens[j]);
        assert j < i ==> SameChain(tokens[j], tokens[i]);
      }
    }
  }

  lemma PrimaryHitsNone(
    cfg: Config, db: Db, uid: UserId, purpose: Purpose, device: string, now: Time, random: Random)
    requires uid in db.users
    ensures OneUserHit(db.tokens, FinishPrimary(cfg, db, uid, purpose, device, now, random).0.tokens)
  {
  }

  lemma VerifyHitsOne(cfg: Config, db: Db, hash: Digest, code: string, now: Time, random: Random)
    requires TokensOk(db.tokens)
    ensures OneUserHit(db.tokens, VerifyChallenge(cfg, db, hash, code, now, random).0.tokens)
  {
    var after := VerifyChallenge(cfg, db, hash, code, now, random).0.tokens;
    var i := FindAction(db.actions, hash, MfaLogin);
    if i < |db.actions| {
      var revoked := Revoke(db.tokens, OfUser(db.actions[i].user), RecoveryUsed, now);
      RevokeHitsOne(db.tokens, OfUser(db.actions[i].user), RecoveryUsed, now);
      VerifyAppends(cfg, db, hash, code, now, random, i);
      if !Extends(db.tokens, after) { ExtendsHitsOne(db.tokens, revoked, after); }
    }
  }

  predicate Extends(tokens: seq<Token>, later: seq<Token>) {
    |tokens| <= |later| && forall i :: 0 <= i < |tokens| ==> later[i] == tokens[i]
  }

  lemma ExtendsHitsOne(tokens: seq<Token>, changed: seq<Token>, later: seq<Token>)
    requires |tokens| == |changed| && OneUserHit(tokens, changed) && Extends(changed, later)
    ensures OneUserHit(tokens, later)
  {
  }

  lemma VerifyAppends(cfg: Config, db: Db, hash: Digest, code: string, now: Time, random: Random, i: nat)
    requires i == FindAction(db.actions, hash, MfaLogin) < |db.actions|
    ensures var after := VerifyChallenge(cfg, db, hash, code, now, random).0.tokens;
      Extends(db.tokens, after) || Extends(Revoke(db.tokens, OfUser(db.actions[i].user), RecoveryUsed, now), after)
  {
  }

  lemma CompleteHitsOne(cfg: Config, db: Db, r: Request)
    requires TokensOk(db.tokens) && r.OidcComplete?
    ensures OneUserHit(db.tokens, Serve(cfg, db, r).0.tokens)
  {
    if !Serve(cfg, db, r).1.Error? {
      match db.transactions[r.state].intent
      case ToLink(v) => RevokeHitsOne(db.tokens, OfUser(v), IdentityLinked, r.now);
      case ToLogin =>
    }
  }

  lemma RefreshHitsOne(cfg: Config, db: Db, hash: Digest, now: Time, random: Random)
    requires TokensOk(db.tokens)
    ensures OneUserHit(db.tokens, Refresh(cfg, db, hash, now, random).0.tokens)
  {
    var i := FindToken(db.tokens, hash);
    if i < |db.tokens| {
      RevokeHitsOne(db.tokens, OfFamily(db.tokens[i].family), ReuseDetected, now);
      RevokeHitsOne(db.tokens, OfUser(db.tokens[i].user), AccountDisabled, now);
      RotateHitsOne(cfg, db.tokens, i, now, random.token);
    }
  }

  lemma RotateHitsOne(cfg: Config, tokens: seq<Token>, i: nat, now: Time, hash: Digest)
    requires i < |tokens|
    ensures OneUserHit(tokens, Rotate(cfg, tokens, i, now, hash))
  {
  }

  lemma StatusHitsOne(db: Db, uid: UserId, active: bool, now: Time)
    requires TokensOk(db.tokens)
    ensures OneUserHit(db.tokens, SetStatus(db, uid, active, now).0.tokens)
  {
    RevokeHitsOne(db.tokens, OfUser(uid), AccountDisabled, now);
  }

  lemma RegenerateHitsOne(
    cfg: Config, db: Db, uid: UserId, passwordOk: bool, code: string, now: Time, hashes: seq<Digest>)
    requires TokensOk(db.tokens)
    ensures OneUserHit(db.tokens, RegenerateCodes(cfg, db, uid, passwordOk, code, now, hashes).0.tokens)
  {
    RevokeHitsOne(db.tokens, OfUser(uid), RecoveryRegenerated, now);
  }

  lemma DisableHitsOne(cfg: Config, db: Db, uid: UserId, passwordOk: bool, code: string, now: Time)
    requires TokensOk(db.tokens)
    ensures OneUserHit(db.tokens, DisableMfa(cfg, db, uid, passwordOk, code, now).0.tokens)
  {
    RevokeHitsOne(db.tokens, OfUser(uid), AccountRows.MfaDisabled, now);
  }

  lemma UnlinkHitsOne(db: Db, id: nat, uid: UserId, now: Time)
    requires TokensOk(db.tokens)
    ensures OneUserHit(db.tokens, Unlink(db, id, uid, now).0.tokens)
  {
    RevokeHitsOne(db.tokens, OfUser(uid), IdentityUnlinked, now);
  }

  /** Requests that leave every token as it is. */
  lemma QuietHitsNone(cfg: Config, db: Db, r: Request)
    requires r.Register? || r.EmailVerified? || r.ResetRequest? || r.EnrollmentBegin? || r.EnrollmentConfirm? || r.OidcBegin?
    ensures Serve(cfg, db, r).0.tokens == db.tokens
  {
  }

  lemma LogoutHitsOne(db: Db, hash: Digest, now: Time)
    requires TokensOk(db.tokens)
    ensures OneUserHit(db.tokens, LogOut(db, hash, now).0.tokens)
  {
    var i := FindToken(db.tokens, hash);
    if i < |db.tokens| { RevokeHitsOne(db.tokens, OfFamily(db.tokens[i].family), Logout, now); }
  }

  lemma ResetHitsOne(db: Db, hash: Digest, now: Time)
    requires TokensOk(db.tokens)
    ensures OneUserHit(db.tokens, ConfirmReset(db, hash, now).0.tokens)
  {
    var i := FindAction(db.actions, hash, ResetPassword);
    if i < |db.actions| { RevokeHitsOne(db.tokens, OfUser(db.actions[i].user), PasswordReset, now); }
  }

  lemma OwnRevocationHitsOne(db: Db, uid: UserId, family: Option<string>, now: Time)
    requires TokensOk(db.tokens)
    ensures OneUserHit(db.tokens, RevokeSessions(db, uid, family, now).0.tokens)
  {
    RevokeHitsOne(db.tokens, if family.Some? then OfUserFamily(uid, family.value) else OfUser(uid), UserRevoked, now);
  }

  /** No request touches the sessions of two users. */
  lemma StepHitsOneUser(cfg: Config, db: Db, r: Request)
    requires Reachable(cfg, db)
    ensures OneUserHit(db.tokens, Step(cfg, db, r).tokens)
  {
    ReachableSessions(cfg, db);
    if Enabled(db, r) { ServeHitsOneUser(cfg, db, r); }
  }

  lemma ServeHitsOneUser(cfg: Config, db: Db, r: Request)
    requires TokensOk(db.tokens)
    ensures OneUserHit(db.tokens, Serve(cfg, db, r).0.tokens)
  {
    match r
    case PasswordLogin(uid, _, device, now, random) =>
      if uid in db.users { PrimaryHitsNone(cfg, db, uid, MfaLogin, device, now, random); }
    case RefreshToken(hash, now, random) => RefreshHitsOne(cfg, db, hash, now, random);
    case ChallengeVerify(hash, code, now, random) => VerifyHitsOne(cfg, db, hash, code, now, random);
    case OidcComplete(_, _, _, _, _, _) => CompleteHitsOne(cfg, db, r);
    case LogoutToken(hash, now) => LogoutHitsOne(db, hash, now);
    case ResetConfirm(hash, now) => ResetHitsOne(db, hash, now);
    case RevokeUserSessions(uid, family, now) => OwnRevocationHitsOne(db, uid, family, now);
    case StatusChange(uid, active, now) => StatusHitsOne(db, uid, active, now);
    case CodesRegenerate(uid, ok, code, now, hashes) => RegenerateHitsOne(cfg, db, uid, ok, code, now, hashes);
    case MfaDisable(uid, ok, code, now) => DisableHitsOne(cfg, db, uid, ok, code, now);
    case IdentityUnlink(id, uid, now) => UnlinkHitsOne(db, id, uid, now);
    case _ => QuietHitsNone(cfg, db, r);
  }
}
