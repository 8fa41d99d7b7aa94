/** The request handlers as programs over the account tables. Each is one transaction, and its effect
    is the function of `AccountRequests` that the runs are made of. `AccountApi` serves them. */
module AccountService {
  import opened Common
  import opened AccountRows
  import opened AccountRequests
  import AccountMfa

  class Accounts {
    const cfg: Config
    var users: map<UserId, User>
    var tokens: seq<Token>
    var actions: seq<ActionToken>
    var codes: seq<RecoveryCode>
    var identities: seq<Identity>
    var transactions: map<Digest, Transaction>
    ghost var log: Log

    constructor (cfg: Config)
      ensures this.cfg == cfg && State() == EMPTY_DB
    {
      this.cfg := cfg;
      users, tokens, actions, codes, identities, transactions := map[], [], [], [], [], map[];
      log := EMPTY_DB.log;
    }

    ghost function State(): Db
      reads this
    {
      Db(users, tokens, actions, codes, identities, transactions, log)
    }

    // ----- Statements shared by the handlers -----

    /** UPDATE refresh_tokens ... WHERE the row is selected and not yet revoked. */
    method RevokeTokens(sel: Selector, reason: Reason, at: Time)
      modifies this`tokens
      ensures tokens == Revoke(old(tokens), sel, reason, at)
    {
      for i := 0 to |tokens|
        invariant |tokens| == |old(tokens)|
        invariant tokens[..i] == Revoke(old(tokens), sel, reason, at)[..i] && tokens[i..] == old(tokens)[i..]
      {
        var t := tokens[i];
        if Selected(sel, t) && !t.revoked {
          tokens := tokens[i := t.(revoked := true, revokedAt := Some(at), reason := Some(reason))];
        }
      }
    }

    /** UPDATE account_action_tokens ... WHERE the user's token of this use is still open. */
    method ConsumeActions(uid: UserId, purpose: Purpose, at: Time)
      modifies this`actions
      ensures actions == Consume(old(actions), uid, purpose, at)
    {
      for i := 0 to |actions|
        invariant |actions| == |old(actions)|
        invariant actions[..i] == Consume(old(actions), uid, purpose, at)[..i] && actions[i..] == old(actions)[i..]
      {
        var a := actions[i];
        if a.user == uid && SameUse(a.purpose, purpose) && a.consumedAt.None? {
          actions := actions[i := a.(consumedAt := Some(at))];
        }
      }
    }

    method DeleteUserCodes(uid: UserId)
      modifies this`codes
      ensures codes == DeleteCodes(old(codes), uid)
    {
      var kept: seq<RecoveryCode> := [];
      for i := 0 to |codes|
        invariant codes == old(codes)
        invariant kept + DeleteCodes(codes[i..], uid) == DeleteCodes(codes, uid)
      {
        assert codes[i..][1..] == codes[i + 1..];
        if codes[i].user != uid { kept := kept + [codes[i]]; }
      }
      codes := kept;
    }

    method ReplaceRecoveryCodes(uid: UserId, hashes: seq<Digest>)
      modifies this`codes, this`log
      ensures State() == ReplaceCodes(old(State()), uid, hashes)
    {
      DeleteUserCodes(uid);
      var kept := codes;
      for i := 0 to |hashes|
        invariant codes == kept + NewCodes(uid, hashes)[..i] && log == old(log)
      {
        codes := codes + [RecoveryCode(uid, hashes[i], None)];
      }
      assert NewCodes(uid, hashes)[..|hashes|] == NewCodes(uid, hashes);
      log := log.(issuedCodes := log.issuedCodes + Elements(hashes));
    }

    // ----- Sessions -----

    method PrepareSessionTokens(uid: UserId, device: string, ghost proof: Proof, now: Time, random: Random)
      returns (r: Response)
      modifies this`tokens, this`log
      ensures (State(), r) == PrepareSession(cfg, old(State()), uid, device, proof, now, random)
    {
      if uid !in users || !users[uid].active { return Error(401); }
      var expiresAt := now + cfg.refreshLifetime;
      tokens := tokens + [Token(uid, random.family, random.token, device, now, now, expiresAt, false, None, None)];
      log := log.(sessions := log.sessions + [Session(uid, random.family, users[uid].mfaEnabledAt.Some?, proof)]);
      r := Tokens(uid);
    }

    method RefreshAccessToken(hash: Digest, now: Time, random: Random) returns (r: Response)
      modifies this`tokens
      ensures (State(), r) == Refresh(cfg, old(State()), hash, now, random)
    {
      var i := FindToken(tokens, hash);
      if i == |tokens| { return Error(401); }
      var stored := tokens[i];
      if stored.revoked {
        RevokeTokens(OfFamily(stored.family), ReuseDetected, now);
        return Error(401);
      }
      if stored.expiresAt < now { return Error(401); }
      if stored.user !in users { return Error(401); }
      if !users[stored.user].active {
        RevokeTokens(OfUser(stored.user), AccountDisabled, now);
        return Error(401);
      }
      var successor := NewToken(stored.user, stored.family, random.token, stored.device, now, cfg.refreshLifetime);
      stored := stored.(revoked := true, revokedAt := Some(now));
      stored := stored.(reason := Some(Rotated), lastUsedAt := now);
      tokens := tokens[i := stored];
      tokens := tokens + [successor];
      r := Tokens(stored.user);
    }

    method RevokeRefreshToken(hash: Digest, now: Time) returns (r: Response)
      modifies this`tokens
      ensures (State(), r) == LogOut(old(State()), hash, now)
    {
      var i := FindToken(tokens, hash);
      if i == |tokens| { return Error(401); }
      RevokeTokens(OfFamily(tokens[i].family), Logout, now);
      r := Ok;
    }

    method RevokeUserSessions(uid: UserId, family: Option<string>, now: Time) returns (r: Response)
      modifies this`tokens
      ensures (State(), r) == RevokeSessions(old(State()), uid, family, now)
    {
      if family.Some? { RevokeTokens(OfUserFamily(uid, family.value), UserRevoked, now); }
      else { RevokeTokens(OfUser(uid), UserRevoked, now); }
      r := Ok;
    }

    method UpdateUserStatus(uid: UserId, active: bool, now: Time) returns (r: Response)
      modifies this`users, this`tokens
      ensures (State(), r) == SetStatus(old(State()), uid, active, now)
    {
      if uid !in users { return Error(404); }
      users := users[uid := users[uid].(active := active)];
      if !active { RevokeTokens(OfUser(uid), AccountDisabled, now); }
      r := Ok;
    }

    // ----- Password reset -----

    method IssueResetToken(uid: UserId, lifetime: nat, now: Time, random: Random) returns (r: Response)
      modifies this`actions
      ensures (State(), r) == RequestReset(old(State()), uid, lifetime, now, random)
    {
      r := Ok;
      if uid !in users || !users[uid].active || !users[uid].emailVerified || users[uid].email.None? { return; }
      ConsumeActions(uid, ResetPassword, now);
      var target := users[uid].email.value;
      actions := actions + [ActionToken(uid, ResetPassword, random.challenge, target, now + lifetime, None)];
    }

    method ConfirmPasswordReset(hash: Digest, now: Time) returns (r: Response)
      modifies this`users, this`actions, this`tokens
      ensures (State(), r) == ConfirmReset(old(State()), hash, now)
    {
      var i := FindAction(actions, hash, ResetPassword);
      if i == |actions| { return Error(400); }
      var stored := actions[i];
      if stored.consumedAt.Some? || stored.expiresAt <= now { return Error(400); }
      var uid := stored.user;
      if uid !in users || !users[uid].active || !users[uid].emailVerified || users[uid].email != Some(stored.target) {
        return Error(400);
      }
      users := users[uid := users[uid].(passwordLogin := true)];
      ConsumeActions(uid, ResetPassword, now);
      RevokeTokens(OfUser(uid), PasswordReset, now);
      r := Ok;
    }

    // ----- MFA -----

    method BeginTotpEnrollment(uid: UserId, passwordOk: bool, secret: string, now: Time) returns (r: Response)
      modifies this`users, this`codes, this`log
      ensures (State(), r) == BeginEnrollment(cfg, old(State()), uid, passwordOk, secret, now)
    {
      if !cfg.mfaAvailable { return Error(503); }
      if uid !in users || !users[uid].active { return Error(401); }
      if !passwordOk { return Error(401); }
      var user := users[uid];
      if user.mfaEnabledAt.Some? { return Error(409); }
      user := user.(secret := Some(secret));
      user := user.(enrollmentCreatedAt := Some(now), lastCounter := None);
      users := users[uid := user];
      DeleteUserCodes(uid);
      log := BumpEpoch(log, uid);
      r := Ok;
    }

    method ConfirmTotpEnrollment(uid: UserId, code: string, now: Time, hashes: seq<Digest>) returns (r: Response)
      modifies this`users, this`codes, this`log
      ensures (State(), r) == ConfirmEnrollment(cfg, old(State()), uid, code, now, hashes)
    {
      if uid !in users || !users[uid].active { return Error(401); }
      var user := users[uid];
      if user.mfaEnabledAt.Some? || user.enrollmentCreatedAt.None? { return Error(400); }
      if user.enrollmentCreatedAt.value + cfg.enrollmentLifetime <= now { return Error(400); }
      var m := AccountMfa.MatchingCounter(cfg, user, code, now);
      if m.Unavailable? { return Error(503); }
      if m.NoMatch? { return Error(400); }
      ReplaceRecoveryCodes(uid, hashes);
      user := user.(mfaEnabledAt := Some(now), enrollmentCreatedAt := None);
      user := user.(lastCounter := Some(m.counter));
      users := users[uid := user];
      log := Accept(log, uid, m.counter, now);
      r := Ok;
    }

    method RegenerateRecoveryCodes(uid: UserId, passwordOk: bool, code: string, now: Time, hashes: seq<Digest>)
      returns (r: Response)
      modifies this`users, this`codes, this`tokens, this`log
      ensures (State(), r) == RegenerateCodes(cfg, old(State()), uid, passwordOk, code, now, hashes)
    {
      if uid !in users || !users[uid].active || !passwordOk { return Error(401); }
      var user := users[uid];
      if user.mfaEnabledAt.None? { return Error(400); }
      var m := AccountMfa.MatchingCounter(cfg, user, code, now);
      if m.Unavailable? { return Error(503); }
      if m.NoMatch? { return Error(400); }
      ReplaceRecoveryCodes(uid, hashes);
      users := users[uid := user.(lastCounter := Some(m.counter))];
      RevokeTokens(OfUser(uid), RecoveryRegenerated, now);
      log := Accept(log, uid, m.counter, now);
      r := Ok;
    }

    method DisableTotp(uid: UserId, passwordOk: bool, code: string, now: Time) returns (r: Response)
      modifies this`users, this`codes, this`tokens, this`log
      ensures (State(), r) == DisableMfa(cfg, old(State()), uid, passwordOk, code, now)
    {
      if uid !in users || !users[uid].active || !passwordOk { return Error(401); }
      var user := users[uid];
      if user.mfaEnabledAt.None? { return Error(400); }
      var m := AccountMfa.MatchingCounter(cfg, user, code, now);
      if m.Unavailable? { return Error(503); }
      if m.NoMatch? {
        var hash := cfg.codeHash(code);
        if hash.None? || FindCode(codes, uid, hash.value) == |codes| { return Error(400); }
      } else {
        log := Accept(log, uid, m.counter, now);
      }
      user := user.(secret := None, enrollmentCreatedAt := None);
      user := user.(mfaEnabledAt := None, lastCounter := None);
      users := users[uid := user];
      DeleteUserCodes(uid);
      RevokeTokens(OfUser(uid), MfaDisabled, now);
      log := BumpEpoch(log, uid);
      r := Ok;
    }

    method PrepareMfaLoginChallenge(uid: UserId, purpose: Purpose, device: string, now: Time, random: Random)
      returns (r: Response)
      modifies this`actions
      ensures (State(), r) == PrepareChallenge(cfg, old(State()), uid, purpose, device, now, random)
    {
      if !cfg.mfaAvailable { return Error(503); }
      ConsumeActions(uid, purpose, now);
      actions := actions + [ActionToken(uid, purpose, random.challenge, device, now + cfg.challengeLifetime, None)];
      r := Challenge(random.challenge);
    }

    method VerifyMfaLoginChallenge(hash: Digest, code: string, now: Time, random: Random) returns (r: Response)
      modifies this`users, this`codes, this`actions, this`tokens, this`log
      ensures (State(), r) == VerifyChallenge(cfg, old(State()), hash, code, now, random)
    {
      if !cfg.mfaAvailable { return Error(503); }
      var i := FindAction(actions, hash, MfaLogin);
      if i == |actions| { return Error(400); }
      var challenge := actions[i];
      if challenge.consumedAt.Some? || challenge.expiresAt <= now { return Error(400); }
      var uid := challenge.user;
      if uid !in users || !users[uid].active { return Error(401); }
      var user := users[uid];
      if user.mfaEnabledAt.None? { return Error(400); }
      var m := AccountMfa.MatchingCounter(cfg, user, code, now);
      if m.Unavailable? { return Error(503); }
      ghost var factor: Factor;
      if m.NoMatch? {
        var j := |codes|;
        var codeHash := cfg.codeHash(code);
        if codeHash.Some? { j := FindCode(codes, uid, codeHash.value); }
        if j == |codes| { return Error(400); }
        factor := Recovery(codes[j].hash);
        codes := codes[j := codes[j].(usedAt := Some(now))];
        RevokeTokens(OfUser(uid), RecoveryUsed, now);
      } else {
        factor := Counter(EpochOf(log, uid), m.counter);
        users := users[uid := user.(lastCounter := Some(m.counter))];
        log := Accept(log, uid, m.counter, now);
      }
      actions := actions[i := challenge.(consumedAt := Some(now))];
      r := PrepareSessionTokens(uid, challenge.target, SecondFactor(hash, factor), now, random);
    }

    // ----- First factors and external identities -----

    method Register(uid: UserId, username: string, email: Option<string>) returns (r: Response)
      modifies this`users
      ensures (State(), r) == RegisterUser(old(State()), uid, username, email)
    {
      if UsernameTaken(users, username) || EmailTaken(users, email) { return Error(409); }
      users := users[uid := User(username, email, false, true, true, None, None, None, None)];
      r := Ok;
    }

    /** What confirming an address does to the account. */
    method ConfirmEmail(uid: UserId) returns (r: Response)
      modifies this`users
      ensures (State(), r) == Serve(cfg, old(State()), EmailVerified(uid))
    {
      if uid !in users { return Error(400); }
      users := users[uid := users[uid].(emailVerified := true)];
      r := Ok;
    }

    method BeginOidcAuthorization(state: Digest, intent: Intent, device: string, now: Time) returns (r: Response)
      modifies this`transactions
      ensures (State(), r) == BeginOidc(cfg, old(State()), state, intent, device, now)
    {
      transactions := transactions[state := Transaction(intent, device, now + cfg.transactionLifetime, None)];
      r := Ok;
    }

    method Login(uid: UserId, passwordOk: bool, device: string, now: Time, random: Random) returns (r: Response)
      modifies this`actions, this`tokens, this`log
      ensures (State(), r) == LogIn(cfg, old(State()), uid, passwordOk, device, now, random)
    {
      if uid !in users || !users[uid].active { return Error(401); }
      if !users[uid].passwordLogin || !passwordOk { return Error(401); }
      if users[uid].mfaEnabledAt.Some? {
        r := PrepareMfaLoginChallenge(uid, MfaLogin, device, now, random);
        return;
      }
      r := PrepareSessionTokens(uid, device, PrimaryOnly, now, random);
    }

    method IdentityForLink(uid: UserId, claims: Claims, now: Time, ids: NewIds) returns (r: Response)
      modifies this`identities, this`tokens
      ensures (State(), r) == OidcLink(old(State()), uid, claims, now, ids)
    {
      if uid !in users || !users[uid].active { return Error(401); }
      var i := FindSubject(identities, claims.issuer, claims.subject);
      if i < |identities| {
        if identities[i].user != uid { return Error(409); }
        return Ok;
      }
      if HasIssuer(identities, uid, claims.issuer) { return Error(409); }
      identities := identities + [Identity(ids.identity, uid, claims.issuer, claims.subject)];
      RevokeTokens(OfUser(uid), IdentityLinked, now);
      r := Ok;
    }

    /** Finds or creates the account of an identity, then signs it in. A failure of the second part
        is undone by the caller. */
    method IdentityForLogin(claims: Claims, device: string, now: Time, ids: NewIds, random: Random)
      returns (r: Response)
      modifies this`users, this`identities, this`actions, this`tokens, this`log
      ensures (State(), r) == OidcLogin(cfg, old(State()), claims, device, now, ids, random)
    {
      var uid: UserId;
      var i := FindSubject(identities, claims.issuer, claims.subject);
      if i < |identities| {
        uid := identities[i].user;
        if uid !in users || !users[uid].active { return Error(401); }
      } else {
        if claims.email.None? { return Error(403); }
        if EmailTaken(users, claims.email) { return Error(409); }
        uid := ids.user;
        users := users[uid := User(ids.username, claims.email, true, true, false, None, None, None, None)];
        identities := identities + [Identity(ids.identity, uid, claims.issuer, claims.subject)];
      }
      if users[uid].mfaEnabledAt.Some? {
        r := PrepareMfaLoginChallenge(uid, OidcMfaLogin, device, now, random);
      } else {
        r := PrepareSessionTokens(uid, device, PrimaryOnly, now, random);
      }
    }

    method CompleteOidcAuthorization(
      state: Digest, bound: bool, provider: Option<Claims>, now: Time, ids: NewIds, random: Random)
      returns (r: Response)
      modifies this
      ensures (State(), r) == CompleteOidc(cfg, old(State()), state, bound, provider, now, ids, random)
    {
      if state !in transactions { return Error(400); }
      var transaction := transactions[state];
      if transaction.consumedAt.Some? || transaction.expiresAt <= now || !bound { return Error(400); }
      if provider.None? { return Error(400); }
      var users0, tokens0, actions0 := users, tokens, actions;
      var identities0, transactions0 := identities, transactions;
      ghost var log0 := log;
      transactions := transactions[state := transaction.(consumedAt := Some(now))];
      log := log.(completed := log.completed + [state]);
      match transaction.intent {
        case ToLink(uid) => r := IdentityForLink(uid, provider.value, now, ids);
        case ToLogin => r := IdentityForLogin(provider.value, transaction.device, now, ids, random);
      }
      if r.Error? {
        users, tokens, actions := users0, tokens0, actions0;
        identities, transactions, log := identities0, transactions0, log0;
      }
    }

    method UnlinkExternalIdentity(id: nat, uid: UserId, now: Time) returns (r: Response)
      modifies this`identities, this`tokens
      ensures (State(), r) == Unlink(old(State()), id, uid, now)
    {
      var i := FindOwn(identities, id, uid);
      if i == |identities| { return Ok; }
      var count := CountOwn(identities, uid);
      if uid !in users || (!users[uid].passwordLogin && count <= 1) { return Error(409); }
      identities := identities[..i] + identities[i + 1..];
      RevokeTokens(OfUser(uid), IdentityUnlinked, now);
      r := Ok;
    }
  }
}
