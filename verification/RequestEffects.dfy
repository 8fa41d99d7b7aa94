/** What each request answers and what it leaves in the tables, row by row, for every state. */
module RequestEffects {
  import opened Common
  import opened AccountRows
  import opened AccountRequests
  import opened AccountMfa
  import opened AccountMfaRuns
  import opened SessionTheorems
  import opened SessionOrigins
  import opened SignInChanges
  import AccountSessions
  import AccountIdentities
  import MfaTheorems

  // ----- Rows after a request -----

  /** A selected live token is revoked, at that time and for that reason; any other row stays. */
  predicate EndedAs(t: Token, u: Token, selected: bool, reason: Reason, at: Time) {
    u == if selected && !t.revoked
         then Token(t.user, t.family, t.hash, t.device, t.createdAt, t.lastUsedAt, t.expiresAt, true, Some(at), Some(reason))
         else t
  }

  predicate UserEnded(tokens: seq<Token>, later: seq<Token>, uid: UserId, reason: Reason, at: Time) {
    |later| == |tokens| && forall i :: 0 <= i < |tokens| ==>
      EndedAs(tokens[i], later[i], tokens[i].user == uid, reason, at)
  }

  predicate FamilyEnded(tokens: seq<Token>, later: seq<Token>, family: string, reason: Reason, at: Time) {
    |later| == |tokens| && forall i :: 0 <= i < |tokens| ==>
      EndedAs(tokens[i], later[i], tokens[i].family == family, reason, at)
  }

  predicate OwnFamilyEnded(tokens: seq<Token>, later: seq<Token>, uid: UserId, family: string, at: Time) {
    |later| == |tokens| && forall i :: 0 <= i < |tokens| ==>
      EndedAs(tokens[i], later[i], tokens[i].user == uid && tokens[i].family == family, UserRevoked, at)
  }

  /** A session as it begins. */
  predicate Begins(cfg: Config, t: Token, uid: UserId, device: string, now: Time, random: Random) {
    t == Token(uid, random.family, random.token, device, now, now, now + cfg.refreshLifetime, false, None, None)
  }

  predicate Started(
    cfg: Config, tokens: seq<Token>, later: seq<Token>, uid: UserId, device: string, now: Time, random: Random)
  {
    |later| == |tokens| + 1 && later[..|tokens|] == tokens && Begins(cfg, later[|tokens|], uid, device, now, random)
  }

  predicate IsLogin(p: Purpose) {
    p == MfaLogin || p == OidcMfaLogin
  }

  /** The user's open tokens of one use are consumed; any other row stays. */
  predicate ConsumedFor(actions: seq<ActionToken>, later: seq<ActionToken>, uid: UserId, login: bool, at: Time) {
    |later| >= |actions| && forall i :: 0 <= i < |actions| ==>
      later[i] == if actions[i].user == uid && IsLogin(actions[i].purpose) == login && actions[i].consumedAt.None?
                  then ActionToken(uid, actions[i].purpose, actions[i].hash, actions[i].target, actions[i].expiresAt, Some(at))
                  else actions[i]
  }

  predicate Issued(
    actions: seq<ActionToken>, later: seq<ActionToken>, uid: UserId, purpose: Purpose, hash: Digest, target: string,
    now: Time, expiresAt: Time)
  {
    && |later| == |actions| + 1 && ConsumedFor(actions, later, uid, IsLogin(purpose), now)
    && later[|actions|] == ActionToken(uid, purpose, hash, target, expiresAt, None)
  }

  // ----- Registration and administration -----

  /** A name and an address that nobody has make an account; otherwise nothing changes. */
  lemma RegisterExact(db: Db, uid: UserId, username: string, email: Option<string>)
    requires uid !in db.users
    ensures var (db', r) := RegisterUser(db, uid, username, email);
      && (r.Ok? <==> forall u :: u in db.users ==>
            db.users[u].username != username && (email.Some? ==> db.users[u].email != email))
      && (r.Ok? ==> db' == db.(users := db.users[uid := User(username, email, false, true, true, None, None, None, None)]))
      && (!r.Ok? ==> r == Error(409) && db' == db)
  {
  }

  /** Disabling ends the sessions in the same step; enabling touches nothing else. */
  lemma StatusExact(db: Db, uid: UserId, active: bool, now: Time)
    ensures var (db', r) := SetStatus(db, uid, active, now);
      && (r.Ok? <==> uid in db.users)
      && (!r.Ok? ==> r == Error(404) && db' == db)
      && (r.Ok? ==>
            && db' == db.(users := db.users[uid := db.users[uid].(active := active)], tokens := db'.tokens)
            && (active ==> db'.tokens == db.tokens)
            && (!active ==> UserEnded(db.tokens, db'.tokens, uid, AccountDisabled, now)))
  {
  }

  /** Confirming an address marks the account, and nothing else. */
  lemma EmailVerifiedExact(cfg: Config, db: Db, uid: UserId)
    ensures var (db', r) := Serve(cfg, db, EmailVerified(uid));
      && (r.Ok? <==> uid in db.users)
      && db' == if uid in db.users then db.(users := db.users[uid := db.users[uid].(emailVerified := true)]) else db
  {
  }

  // ----- Password login -----

  predicate PasswordAccepted(db: Db, uid: UserId, passwordOk: bool) {
    uid in db.users && db.users[uid].active && db.users[uid].passwordLogin && passwordOk
  }

  /** The right password of an active account gives a session, or with MFA on a challenge. */
  lemma LoginExact(cfg: Config, db: Db, uid: UserId, passwordOk: bool, device: string, now: Time, random: Random)
    ensures var (db', r) := LogIn(cfg, db, uid, passwordOk, device, now, random);
      && (r.Tokens? <==> PasswordAccepted(db, uid, passwordOk) && !MfaOn(db, uid))
      && (r.Challenge? <==> PasswordAccepted(db, uid, passwordOk) && MfaOn(db, uid) && cfg.mfaAvailable)
      && (r.Tokens? ==> r.user == uid && Started(cfg, db.tokens, db'.tokens, uid, device, now, random) && db'.actions == db.actions)
      && (r.Challenge? ==>
            && r.challenge == random.challenge && db'.tokens == db.tokens
            && Issued(db.actions, db'.actions, uid, MfaLogin, random.challenge, device, now, now + cfg.challengeLifetime))
      && (!r.Tokens? && !r.Challenge? ==>
            db' == db && r == Error(if PasswordAccepted(db, uid, passwordOk) then 503 else 401))
      && db'.users == db.users && db'.codes == db.codes && db'.identities == db.identities
  {
  }

  // ----- Sessions -----

  /** A token that cannot be refreshed changes nothing, unless it was revoked before: then what is left
      of its family ends. */
  lemma RefreshRefuses(cfg: Config, db: Db, hash: Digest, now: Time, random: Random)
    requires Reachable(cfg, db) && !Refresh(cfg, db, hash, now, random).1.Tokens?
    ensures Refresh(cfg, db, hash, now, random).1 == Error(401)
    ensures var db' := Refresh(cfg, db, hash, now, random).0;
      && db' == db.(tokens := db'.tokens)
      && (forall i :: 0 <= i < |db.tokens| && db.tokens[i].hash == hash && db.tokens[i].revoked ==>
            FamilyEnded(db.tokens, db'.tokens, db.tokens[i].family, ReuseDetected, now))
      && ((forall i :: 0 <= i < |db.tokens| && db.tokens[i].hash == hash ==> !db.tokens[i].revoked) ==> db' == db)
  {
    ReachableSessions(cfg, db);
    var i := FindToken(db.tokens, hash);
    if i < |db.tokens| {
      HashFinds(db.tokens, i);
      forall k | 0 <= k < |db.tokens| && db.tokens[k].hash == hash ensures k == i { HashFinds(db.tokens, k); }
    }
  }

  /** Logging out ends the family of any stored token. */
  lemma LogoutExact(cfg: Config, db: Db, hash: Digest, now: Time)
    requires Reachable(cfg, db)
    ensures var (db', r) := LogOut(db, hash, now);
      && (r.Ok? <==> exists i :: 0 <= i < |db.tokens| && db.tokens[i].hash == hash)
      && (!r.Ok? ==> r == Error(401) && db' == db)
      && db' == db.(tokens := db'.tokens)
      && forall i :: 0 <= i < |db.tokens| && db.tokens[i].hash == hash ==>
           FamilyEnded(db.tokens, db'.tokens, db.tokens[i].family, Logout, now)
  {
    ReachableSessions(cfg, db);
    forall i | 0 <= i < |db.tokens| && db.tokens[i].hash == hash
      ensures FamilyEnded(db.tokens, LogOut(db, hash, now).0.tokens, db.tokens[i].family, Logout, now)
      ensures LogOut(db, hash, now).1.Ok?
    {
      HashFinds(db.tokens, i);
    }
  }

  /** Signing out of all devices ends the user's sessions for good, and nobody else's. */
  lemma SignOutEverywhere(cfg: Config, db: Db, uid: UserId, now: Time, requests: seq<Request>)
    requires Reachable(cfg, db)
    ensures var (db', r) := RevokeSessions(db, uid, None, now);
      && r.Ok? && db' == db.(tokens := db'.tokens)
      && UserEnded(db.tokens, db'.tokens, uid, UserRevoked, now)
      && Ended(db, Run(cfg, db', requests), uid)
  {
    ReachableSessions(cfg, db);
    var db' := RevokeSessions(db, uid, None, now).0;
    AccountSessions.RevokeIsSound(db, db', OfUser(uid), UserRevoked, now);
    EndedForever(cfg, db, db', uid, requests);
  }

  /** Signing out of one device ends that session of the user, and no other. */
  lemma SignOutOfDevice(db: Db, uid: UserId, family: string, now: Time)
    ensures var (db', r) := RevokeSessions(db, uid, Some(family), now);
      r.Ok? && db' == db.(tokens := db'.tokens) && OwnFamilyEnded(db.tokens, db'.tokens, uid, family, now)
  {
  }

  /** For good, if the session is the user's. */
  lemma SignOutIsFinal(
    cfg: Config, db: Db, uid: UserId, family: string, now: Time, i: nat, requests: seq<Request>)
    requires Reachable(cfg, db)
    requires i < |db.tokens| && db.tokens[i].user == uid && db.tokens[i].family == family
    ensures AccountSessions.Dead(Run(cfg, RevokeSessions(db, uid, Some(family), now).0, requests).tokens, family)
  {
    ReachableSessions(cfg, db);
    var db' := RevokeSessions(db, uid, Some(family), now).0;
    AccountSessions.RevokeIsSound(db, db', OfUserFamily(uid, family), UserRevoked, now);
    OwnFamilyDies(db, uid, family, now, i);
    DeadForever(cfg, db', family, requests);
  }

  lemma OwnFamilyDies(db: Db, uid: UserId, family: string, now: Time, i: nat)
    requires AccountSessions.TokensOk(db.tokens)
    requires i < |db.tokens| && db.tokens[i].user == uid && db.tokens[i].family == family
    ensures var later := RevokeSessions(db, uid, Some(family), now).0.tokens;
      AccountSessions.HasFamily(later, family) && AccountSessions.Dead(later, family)
  {
    var later := RevokeSessions(db, uid, Some(family), now).0.tokens;
    assert later[i].family == family;
    forall k | 0 <= k < |later| && later[k].family == family ensures later[k].revoked {
      assert k < i ==> AccountSessions.SameChain(db.tokens[k], db.tokens[i]);
      assert i < k ==> AccountSessions.SameChain(db.tokens[i], db.tokens[k]);
    }
  }

  // ----- Password reset -----

  predicate CanReset(db: Db, uid: UserId) {
    uid in db.users && db.users[uid].active && db.users[uid].emailVerified && db.users[uid].email.Some?
  }

  /** Whoever asks gets the same answer; a token is issued for the address of a usable account. */
  lemma ResetRequestExact(db: Db, uid: UserId, lifetime: nat, now: Time, random: Random)
    ensures var (db', r) := RequestReset(db, uid, lifetime, now, random);
      && r.Ok? && db' == db.(actions := db'.actions)
      && (!CanReset(db, uid) ==> db' == db)
      && (CanReset(db, uid) ==>
            Issued(db.actions, db'.actions, uid, ResetPassword, random.challenge, db.users[uid].email.value, now, now + lifetime))
  {
  }

  /** A confirmed reset turns password login on, consumes the reset tokens and ends the sessions; a
      refused one changes nothing. */
  lemma ResetConfirmExact(cfg: Config, db: Db, hash: Digest, now: Time, k: nat)
    requires Reachable(cfg, db)
    requires k < |db.actions| && db.actions[k].hash == hash && db.actions[k].purpose == ResetPassword
    ensures var (db', r) := ConfirmReset(db, hash, now);
      var uid := db.actions[k].user;
      && (!r.Ok? ==> r == Error(400) && db' == db)
      && (r.Ok? ==>
            && uid in db.users
            && db' == db.(users := db.users[uid := db.users[uid].(passwordLogin := true)],
                          actions := db'.actions, tokens := db'.tokens)
            && |db'.actions| == |db.actions| && ConsumedFor(db.actions, db'.actions, uid, false, now)
            && UserEnded(db.tokens, db'.tokens, uid, PasswordReset, now))
  {
    MfaTheorems.ReachableMfa(cfg, db);
    ActionFound(db.actions, hash, ResetPassword, k);
  }

  // ----- Second factors -----

  /** A pending enrolment with a new secret replaces whatever was pending. */
  lemma EnrollmentBeginExact(cfg: Config, db: Db, uid: UserId, passwordOk: bool, secret: string, now: Time)
    ensures var (db', r) := BeginEnrollment(cfg, db, uid, passwordOk, secret, now);
      && (r.Ok? <==> cfg.mfaAvailable && Locked(db, uid) && passwordOk && !MfaOn(db, uid))
      && (!r.Ok? ==> db' == db && r == Error(if !cfg.mfaAvailable then 503 else if !Locked(db, uid) || !passwordOk then 401 else 409))
      && (r.Ok? ==>
            && db' == db.(users := db.users[uid := db.users[uid].(secret := Some(secret), enrollmentCreatedAt := Some(now), lastCounter := None)],
                          codes := db'.codes, log := db'.log)
            && (forall c :: c in db'.codes <==> c in db.codes && c.user != uid))
  {
    DeleteExact(db.codes, uid);
  }

  /** The user has exactly the recovery codes of these digests, all unused; others keep theirs. */
  predicate HasCodesOf(codes: seq<RecoveryCode>, c: RecoveryCode, uid: UserId, hashes: seq<Digest>) {
    if c.user == uid then c.hash in hashes && c.usedAt.None? else c in codes
  }

  /** A confirmed enrolment records the counter and issues the codes; the sessions stay. */
  lemma EnrollmentConfirmExact(cfg: Config, db: Db, uid: UserId, code: string, now: Time, hashes: seq<Digest>)
    ensures var (db', r) := ConfirmEnrollment(cfg, db, uid, code, now, hashes);
      && (!r.Ok? ==> db' == db && r.Error?)
      && (r.Ok? ==>
            && uid in db.users && uid in db'.users && db'.users[uid].lastCounter.Some?
            && Earliest(cfg, db.users[uid], code, TimeStep(now), db'.users[uid].lastCounter.value)
            && db'.users == db.users[uid := db.users[uid].(mfaEnabledAt := Some(now), enrollmentCreatedAt := None,
                                                           lastCounter := db'.users[uid].lastCounter)]
            && (forall c :: c in db'.codes <==> HasCodesOf(db.codes, c, uid, hashes))
            && db'.tokens == db.tokens && db'.actions == db.actions && db'.identities == db.identities)
  {
    ReplaceExact(db, uid, hashes);
    MatchedIsEarliest(cfg, db, uid, code, now);
  }

  lemma MatchedIsEarliest(cfg: Config, db: Db, uid: UserId, code: string, now: Time)
    ensures uid in db.users && MatchTotp(cfg, db.users[uid], code, now).Matched? ==>
      var counter := MatchTotp(cfg, db.users[uid], code, now).counter;
      && Earliest(cfg, db.users[uid], code, TimeStep(now), counter)
      && (db.users[uid].lastCounter.Some? ==> counter > db.users[uid].lastCounter.value)
  {
    if uid in db.users {
      var m := MatchTotp(cfg, db.users[uid], code, now);
      if m.Matched? { MatchExact(cfg, db.users[uid], code, now, m.counter); }
    }
  }

  /** New codes need the password and an acceptable TOTP code, and end the sessions. */
  lemma RegenerateExact(
    cfg: Config, db: Db, uid: UserId, passwordOk: bool, code: string, now: Time, hashes: seq<Digest>)
    ensures var (db', r) := RegenerateCodes(cfg, db, uid, passwordOk, code, now, hashes);
      && (r.Ok? <==>
            && Locked(db, uid) && passwordOk && MfaOn(db, uid)
            && Checkable(cfg, db.users[uid], code) && Acceptable(cfg, db.users[uid], code, now))
      && (!r.Ok? ==> db' == db && r.Error?)
      && (r.Ok? ==>
            && uid in db'.users && db'.users[uid].lastCounter.Some?
            && Earliest(cfg, db.users[uid], code, TimeStep(now), db'.users[uid].lastCounter.value)
            && db'.users == db.users[uid := db.users[uid].(lastCounter := db'.users[uid].lastCounter)]
            && (forall c :: c in db'.codes <==> HasCodesOf(db.codes, c, uid, hashes))
            && UserEnded(db.tokens, db'.tokens, uid, RecoveryRegenerated, now))
  {
    ReplaceExact(db, uid, hashes);
    MatchedIsEarliest(cfg, db, uid, code, now);
    if uid in db.users { MatchedIffAcceptable(cfg, db.users[uid], code, now); }
  }

  /** Switching off clears the enrolment and the codes, and ends the sessions. */
  lemma DisableExact(cfg: Config, db: Db, uid: UserId, passwordOk: bool, code: string, now: Time)
    ensures var (db', r) := DisableMfa(cfg, db, uid, passwordOk, code, now);
      && (!r.Ok? ==> db' == db && r.Error?)
      && (r.Ok? ==>
            && uid in db.users
            && db'.users == db.users[uid := db.users[uid].(secret := None, enrollmentCreatedAt := None,
                                                           mfaEnabledAt := None, lastCounter := None)]
            && (forall c :: c in db'.codes <==> c in db.codes && c.user != uid)
            && UserEnded(db.tokens, db'.tokens, uid, AccountRows.MfaDisabled, now)
            && db'.actions == db.actions && db'.identities == db.identities)
  {
    DeleteExact(db.codes, uid);
  }

  // ----- Completing a challenge -----

  /** Only this challenge is consumed. */
  predicate OnlyConsumed(actions: seq<ActionToken>, later: seq<ActionToken>, k: nat, at: Time) {
    && k < |actions| == |later|
    && later[k] == ActionToken(actions[k].user, actions[k].purpose, actions[k].hash, actions[k].target, actions[k].expiresAt, Some(at))
    && forall i :: 0 <= i < |actions| && i != k ==> later[i] == actions[i]
  }

  /** With an acceptable TOTP code the counter is spent, and one session for the challenge's device
      begins; nothing else changes. */
  lemma VerifyWithTotp(cfg: Config, db: Db, hash: Digest, code: string, now: Time, random: Random, k: nat)
    requires Reachable(cfg, db) && k < |db.actions| && db.actions[k].hash == hash && LoginPurpose(db.actions[k].purpose)
    requires VerifyChallenge(cfg, db, hash, code, now, random).1.Tokens?
    requires var uid := db.actions[k].user; uid in db.users && Acceptable(cfg, db.users[uid], code, now)
    ensures var db' := VerifyChallenge(cfg, db, hash, code, now, random).0;
      var uid := db.actions[k].user;
      && uid in db'.users && db'.users[uid].lastCounter.Some?
      && Earliest(cfg, db.users[uid], code, TimeStep(now), db'.users[uid].lastCounter.value)
      && db'.users == db.users[uid := db.users[uid].(lastCounter := db'.users[uid].lastCounter)]
      && db'.codes == db.codes && db'.identities == db.identities
      && OnlyConsumed(db.actions, db'.actions, k, now)
      && Started(cfg, db.tokens, db'.tokens, uid, db.actions[k].target, now, random)
  {
    MfaTheorems.ReachableMfa(cfg, db);
    ActionFound(db.actions, hash, MfaLogin, k);
    var uid := db.actions[k].user;
    MatchedIffAcceptable(cfg, db.users[uid], code, now);
    MatchedIsEarliest(cfg, db, uid, code, now);
  }

  /** Only this recovery code is used. */
  predicate OnlyUsed(cfg: Config, codes: seq<RecoveryCode>, later: seq<RecoveryCode>, uid: UserId, code: string, at: Time) {
    exists j :: 0 <= j < |codes| && codes[j].user == uid && codes[j].usedAt.None? && Some(codes[j].hash) == cfg.codeHash(code)
                && later == codes[j := RecoveryCode(uid, codes[j].hash, Some(at))]
  }

  /** With a recovery code that code is used, the earlier sessions end, and the new one begins. */
  lemma VerifyWithRecovery(cfg: Config, db: Db, hash: Digest, code: string, now: Time, random: Random, k: nat)
    requires Reachable(cfg, db) && k < |db.actions| && db.actions[k].hash == hash && LoginPurpose(db.actions[k].purpose)
    requires VerifyChallenge(cfg, db, hash, code, now, random).1.Tokens?
    requires var uid := db.actions[k].user; uid in db.users && !Acceptable(cfg, db.users[uid], code, now)
    ensures var db' := VerifyChallenge(cfg, db, hash, code, now, random).0;
      var uid, n := db.actions[k].user, |db.tokens|;
      && db'.users == db.users && db'.identities == db.identities
      && OnlyUsed(cfg, db.codes, db'.codes, uid, code, now)
      && OnlyConsumed(db.actions, db'.actions, k, now)
      && |db'.tokens| == n + 1 && UserEnded(db.tokens, db'.tokens[..n], uid, RecoveryUsed, now)
      && Begins(cfg, db'.tokens[n], uid, db.actions[k].target, now, random)
  {
    MfaTheorems.ReachableMfa(cfg, db);
    ActionFound(db.actions, hash, MfaLogin, k);
    var uid := db.actions[k].user;
    MatchedIffAcceptable(cfg, db.users[uid], code, now);
    var j := UsableCode(cfg, db, uid, code);
    assert VerifyChallenge(cfg, db, hash, code, now, random).0.codes == db.codes[j := RecoveryCode(uid, db.codes[j].hash, Some(now))];
  }

  // ----- External identities -----

  lemma BeginOidcExact(cfg: Config, db: Db, state: Digest, intent: Intent, device: string, now: Time)
    ensures var (db', r) := BeginOidc(cfg, db, state, intent, device, now);
      r.Ok? && db' == db.(transactions := db.transactions[state := Transaction(intent, device, now + cfg.transactionLifetime, None)])
  {
  }

  /** Linking adds the identity and ends the sessions, or finds it linked already and changes nothing,
      or is refused. */
  lemma LinkAnswers(db: Db, uid: UserId, claims: Claims, now: Time, ids: NewIds)
    requires AccountIdentities.LinksOk(db)
    ensures var (db', r) := OidcLink(db, uid, claims, now, ids);
      var mine, known := AccountIdentities.Vouched(db.identities, claims, uid), AccountIdentities.Known(db.identities, claims);
      && (r.Ok? <==> Locked(db, uid) && (mine || (!known && AccountIdentities.NoneAt(db.identities, uid, claims.issuer))))
      && (!r.Ok? ==> db' == db && r == Error(if Locked(db, uid) then 409 else 401))
      && (r.Ok? && mine ==> db' == db)
      && (r.Ok? && !mine ==>
            && db' == db.(identities := db.identities + [Identity(ids.identity, uid, claims.issuer, claims.subject)], tokens := db'.tokens)
            && UserEnded(db.tokens, db'.tokens, uid, IdentityLinked, now))
  {
    var i := FindSubject(db.identities, claims.issuer, claims.subject);
    if i < |db.identities| {
      forall k | 0 <= k < |db.identities| && k != i
        ensures db.identities[k].issuer != claims.issuer || db.identities[k].subject != claims.subject
      {
        var a, b := if k < i then k else i, if k < i then i else k;
        assert !AccountIdentities.Clash(db.identities[a], db.identities[b]);
      }
    }
  }

  /** Unlinking an identity of the user removes that row and ends the sessions, unless it is the last way
      to sign in; anything else to unlink is not there, and nothing changes. */
  lemma UnlinkAnswers(cfg: Config, db: Db, id: nat, uid: UserId, now: Time)
    requires Reachable(cfg, db)
    ensures var (db', r) := Unlink(db, id, uid, now);
      && (db'.identities == db.identities ==> db' == db)
      && (r.Ok? || (r == Error(409) && db' == db))
      && (forall i :: 0 <= i < |db.identities| && db.identities[i].id == id && db.identities[i].user == uid ==>
            && uid in db.users
            && (r.Ok? <==> db.users[uid].passwordLogin || AccountIdentities.HasIdentity(RemoveAt(db.identities, i), uid)))
      && (db'.identities != db.identities ==>
            && db' == db.(identities := db'.identities, tokens := db'.tokens)
            && UserEnded(db.tokens, db'.tokens, uid, IdentityUnlinked, now)
            && exists i :: 0 <= i < |db.identities| && db.identities[i].id == id && db.identities[i].user == uid
                           && db'.identities == db.identities[..i] + db.identities[i + 1..])
  {
    ReachableLinks(cfg, db);
    forall i | 0 <= i < |db.identities| && db.identities[i].id == id && db.identities[i].user == uid
      ensures FindOwn(db.identities, id, uid) == i
      ensures CountOwn(db.identities, uid) > 1 <==> AccountIdentities.HasIdentity(RemoveAt(db.identities, i), uid)
    {
      AccountIdentities.OwnIsFound(db.users, db.identities, i, uid);
      AccountIdentities.RemovedIsGone(db.users, db.identities, i);
    }
    var i := FindOwn(db.identities, id, uid);
    if i < |db.identities| { assert db.identities[i].id == id && db.identities[i].user == uid; }
  }

  lemma ReachableLinks(cfg: Config, db: Db)
    requires Reachable(cfg, db)
    ensures AccountIdentities.LinksOk(db)
  {
    var requests :| db == Run(cfg, EMPTY_DB, requests);
    AccountIdentities.RunKeepsLinks(cfg, requests);
  }
}
