/** Session families over every run: rotation chains, replay, revocation and disabled accounts. */
module AccountSessions {
  import opened Common
  import opened AccountRows
  import opened AccountRequests

  // ----- The invariant -----

  predicate FlagsOk(t: Token) {
    (t.revoked <==> t.revokedAt.Some?) && (t.revoked <==> t.reason.Some?)
  }

  predicate SameChain(a: Token, b: Token) {
    a.family == b.family && a.user == b.user && a.device == b.device
  }

  /** Every token of a family but its last was rotated, and nothing else tells them apart. */
  predicate Chained(tokens: seq<Token>) {
    forall i, j :: 0 <= i < j < |tokens| && tokens[i].family == tokens[j].family ==>
      SameChain(tokens[i], tokens[j]) && tokens[i].reason == Some(Rotated)
  }

  predicate HasLater(tokens: seq<Token>, i: nat) {
    exists j :: i < j < |tokens| && tokens[j].family == tokens[i].family
  }

  predicate TokensOk(tokens: seq<Token>) {
    && (forall i :: 0 <= i < |tokens| ==> FlagsOk(tokens[i]))
    && Chained(tokens)
    && (forall i :: 0 <= i < |tokens| && tokens[i].reason == Some(Rotated) ==> HasLater(tokens, i))
    && (forall i, j :: 0 <= i < j < |tokens| ==> tokens[i].hash != tokens[j].hash)
  }

  /** Live tokens belong to active users. */
  predicate ActiveOk(users: map<UserId, User>, tokens: seq<Token>) {
    forall i :: 0 <= i < |tokens| ==>
      tokens[i].user in users && (!tokens[i].revoked ==> users[tokens[i].user].active)
  }

  predicate BornIn(sessions: seq<Session>, t: Token) {
    exists k :: 0 <= k < |sessions| && sessions[k].family == t.family && sessions[k].user == t.user
  }

  /** Every family was born once, as a session of its user. */
  predicate BirthsOk(tokens: seq<Token>, sessions: seq<Session>) {
    && (forall i, j :: 0 <= i < j < |sessions| ==> sessions[i].family != sessions[j].family)
    && (forall i :: 0 <= i < |tokens| ==> BornIn(sessions, tokens[i]))
  }

  predicate SessionsOk(db: Db) {
    TokensOk(db.tokens) && ActiveOk(db.users, db.tokens) && BirthsOk(db.tokens, db.log.sessions)
  }

  // ----- How rows may change -----

  /** A token keeps its identity for ever, and once revoked it never changes again. */
  predicate Evolved(t: Token, u: Token) {
    && t.user == u.user && t.family == u.family && t.hash == u.hash && t.device == u.device
    && t.createdAt == u.createdAt && t.expiresAt == u.expiresAt
    && (t.revoked ==> t == u)
  }

  predicate AllEvolved(tokens: seq<Token>, later: seq<Token>) {
    |tokens| <= |later| && forall i :: 0 <= i < |tokens| ==> Evolved(tokens[i], later[i])
  }

  ghost predicate Dead(tokens: seq<Token>, family: string) {
    forall i :: 0 <= i < |tokens| && tokens[i].family == family ==> tokens[i].revoked
  }

  predicate HasFamily(tokens: seq<Token>, family: string) {
    exists i :: 0 <= i < |tokens| && tokens[i].family == family
  }

  ghost predicate DeadStayDead(tokens: seq<Token>, later: seq<Token>) {
    forall family :: HasFamily(tokens, family) && Dead(tokens, family) ==> Dead(later, family)
  }

  /** What every request preserves: rows evolve, and dead families stay dead. */
  ghost predicate Sound(db: Db, db': Db) {
    SessionsOk(db') && AllEvolved(db.tokens, db'.tokens) && DeadStayDead(db.tokens, db'.tokens)
  }

  predicate SameActive(users: map<UserId, User>, users': map<UserId, User>) {
    forall u :: u in users ==> u in users' && users'[u].active == users[u].active
  }

  lemma KeepIsSound(db: Db, db': Db)
    requires SessionsOk(db) && db'.tokens == db.tokens && db'.log.sessions == db.log.sessions
    requires SameActive(db.users, db'.users)
    ensures Sound(db, db')
  {
  }

  lemma RevokeKeepsTokens(tokens: seq<Token>, sel: Selector, reason: Reason, at: Time)
    requires TokensOk(tokens) && !reason.Rotated?
    ensures TokensOk(Revoke(tokens, sel, reason, at))
  {
    var r := Revoke(tokens, sel, reason, at);
    forall i | 0 <= i < |r| && r[i].reason == Some(Rotated) ensures HasLater(r, i) {
      assert HasLater(tokens, i);
      var j :| i < j < |tokens| && tokens[j].family == tokens[i].family;
      assert r[j].family == r[i].family;
    }
  }

  lemma RevokeIsSound(db: Db, db': Db, sel: Selector, reason: Reason, at: Time)
    requires SessionsOk(db) && db'.log.sessions == db.log.sessions && !reason.Rotated?
    requires db'.tokens == Revoke(db.tokens, sel, reason, at)
    requires SameActive(db.users, db'.users)
    ensures Sound(db, db')
  {
    RevokeKeepsTokens(db.tokens, sel, reason, at);
    RevokeKeepsBirths(db.tokens, db.log.sessions, sel, reason, at);
  }

  lemma RevokeKeepsBirths(tokens: seq<Token>, sessions: seq<Session>, sel: Selector, reason: Reason, at: Time)
    requires BirthsOk(tokens, sessions)
    ensures BirthsOk(Revoke(tokens, sel, reason, at), sessions)
    ensures DeadStayDead(tokens, Revoke(tokens, sel, reason, at))
  {
    var r := Revoke(tokens, sel, reason, at);
    forall i | 0 <= i < |r| ensures BornIn(sessions, r[i]) {
      assert BornIn(sessions, tokens[i]);
    }
  }

  lemma IssueKeepsTokens(tokens: seq<Token>, t: Token)
    requires TokensOk(tokens) && !t.revoked && FlagsOk(t)
    requires forall i :: 0 <= i < |tokens| ==> tokens[i].family != t.family && tokens[i].hash != t.hash
    ensures TokensOk(tokens + [t]) && DeadStayDead(tokens, tokens + [t])
  {
    var r := tokens + [t];
    forall i | 0 <= i < |r| && r[i].reason == Some(Rotated) ensures HasLater(r, i) {
      assert HasLater(tokens, i);
      var j :| i < j < |tokens| && tokens[j].family == tokens[i].family;
      assert r[j].family == r[i].family;
    }
  }

  lemma IssueKeepsBirths(tokens: seq<Token>, sessions: seq<Session>, t: Token, s: Session)
    requires BirthsOk(tokens, sessions) && s.family == t.family && s.user == t.user
    requires forall i :: 0 <= i < |sessions| ==> sessions[i].family != t.family
    ensures BirthsOk(tokens + [t], sessions + [s])
  {
    var later := sessions + [s];
    forall i | 0 <= i < |tokens + [t]| ensures BornIn(later, (tokens + [t])[i]) {
      if i < |tokens| {
        assert BornIn(sessions, tokens[i]);
        var k :| 0 <= k < |sessions| && sessions[k].family == tokens[i].family && sessions[k].user == tokens[i].user;
        assert later[k] == sessions[k];
      } else {
        assert later[|sessions|] == s;
      }
    }
  }

  lemma IssueIsSound(db: Db, db': Db, t: Token, s: Session)
    requires SessionsOk(db) && db'.tokens == db.tokens + [t] && db'.log.sessions == db.log.sessions + [s]
    requires SameActive(db.users, db'.users)
    requires !t.revoked && FlagsOk(t) && s.family == t.family && s.user == t.user
    requires t.user in db'.users && db'.users[t.user].active
    requires forall i :: 0 <= i < |db.tokens| ==> db.tokens[i].family != t.family && db.tokens[i].hash != t.hash
    requires forall i :: 0 <= i < |db.log.sessions| ==> db.log.sessions[i].family != t.family
    ensures Sound(db, db')
  {
    IssueKeepsTokens(db.tokens, t);
    IssueKeepsBirths(db.tokens, db.log.sessions, t, s);
  }

  lemma RotateKeepsTokens(cfg: Config, tokens: seq<Token>, i: nat, now: Time, hash: Digest)
    requires TokensOk(tokens) && i < |tokens| && !tokens[i].revoked
    requires forall k :: 0 <= k < |tokens| ==> tokens[k].hash != hash
    ensures TokensOk(Rotate(cfg, tokens, i, now, hash))
  {
    var r, n := Rotate(cfg, tokens, i, now, hash), |tokens|;
    RotateKeepsChains(cfg, tokens, i, now, hash);
    assert forall k :: 0 <= k < n && k != i ==> r[k] == tokens[k];
    forall k | 0 <= k < |r| && r[k].reason == Some(Rotated) ensures HasLater(r, k) {
      if k == i {
        assert r[n].family == r[k].family;
      } else {
        assert HasLater(tokens, k);
        var j :| k < j < |tokens| && tokens[j].family == tokens[k].family;
        assert r[j].family == r[k].family;
      }
    }
  }

  lemma RotateKeepsChains(cfg: Config, tokens: seq<Token>, i: nat, now: Time, hash: Digest)
    requires TokensOk(tokens) && i < |tokens| && !tokens[i].revoked
    ensures Chained(Rotate(cfg, tokens, i, now, hash))
  {
    var r, n := Rotate(cfg, tokens, i, now, hash), |tokens|;
    assert forall k :: i < k < n ==> tokens[k].family != tokens[i].family;
    forall j, k | 0 <= j < k < |r| && r[j].family == r[k].family
      ensures SameChain(r[j], r[k]) && r[j].reason == Some(Rotated)
    {
      if k == n {
        assert j != i ==> tokens[j].family == tokens[i].family;
      } else {
        assert tokens[j].family == tokens[k].family;
      }
    }
  }

  lemma RotateIsSound(cfg: Config, db: Db, db': Db, i: nat, now: Time, hash: Digest)
    requires SessionsOk(db) && i < |db.tokens| && !db.tokens[i].revoked
    requires db' == db.(tokens := Rotate(cfg, db.tokens, i, now, hash))
    requires forall k :: 0 <= k < |db.tokens| ==> db.tokens[k].hash != hash
    ensures Sound(db, db')
  {
    RotateKeepsTokens(cfg, db.tokens, i, now, hash);
    RotateKeepsRest(cfg, db, db', i, now, hash);
    RotateKeepsDead(cfg, db.tokens, i, now, hash);
  }

  lemma RotateKeepsDead(cfg: Config, tokens: seq<Token>, i: nat, now: Time, hash: Digest)
    requires i < |tokens| && !tokens[i].revoked
    ensures DeadStayDead(tokens, Rotate(cfg, tokens, i, now, hash))
  {
    var r := Rotate(cfg, tokens, i, now, hash);
    assert forall k :: 0 <= k < |tokens| && k != i ==> r[k] == tokens[k];
    forall family | Dead(tokens, family) ensures Dead(r, family) {
      assert tokens[i].family != family;
    }
  }

  lemma RotateKeepsRest(cfg: Config, db: Db, db': Db, i: nat, now: Time, hash: Digest)
    requires SessionsOk(db) && i < |db.tokens| && !db.tokens[i].revoked
    requires db' == db.(tokens := Rotate(cfg, db.tokens, i, now, hash))
    ensures AllEvolved(db.tokens, db'.tokens)
    ensures ActiveOk(db'.users, db'.tokens) && BirthsOk(db'.tokens, db'.log.sessions)
  {
    var n := |db.tokens|;
    assert forall k :: 0 <= k < n && k != i ==> db'.tokens[k] == db.tokens[k];
    forall k | 0 <= k < |db'.tokens| ensures BornIn(db'.log.sessions, db'.tokens[k]) {
      assert BornIn(db.log.sessions, db.tokens[if k < n then k else i]);
    }
  }

  lemma SoundTwice(a: Db, b: Db, c: Db)
    requires Sound(a, b) && Sound(b, c)
    ensures Sound(a, c)
  {
    forall family | HasFamily(a.tokens, family) && Dead(a.tokens, family) ensures Dead(c.tokens, family) {
      var i :| 0 <= i < |a.tokens| && a.tokens[i].family == family;
      assert Evolved(a.tokens[i], b.tokens[i]);
      assert HasFamily(b.tokens, family);
    }
  }

  // ----- Every request -----

  lemma SessionIsSound(
    cfg: Config, db: Db, uid: UserId, device: string, proof: Proof, now: Time, random: Random)
    requires SessionsOk(db) && FreshIn(db, random)
    ensures Sound(db, PrepareSession(cfg, db, uid, device, proof, now, random).0)
  {
    if uid in db.users && db.users[uid].active {
      IssueIsSound(db, PrepareSession(cfg, db, uid, device, proof, now, random).0,
        NewToken(uid, random.family, random.token, device, now, cfg.refreshLifetime),
        Session(uid, random.family, db.users[uid].mfaEnabledAt.Some?, proof));
    }
  }

  lemma PrimaryIsSound(
    cfg: Config, db: Db, uid: UserId, purpose: Purpose, device: string, now: Time, random: Random)
    requires SessionsOk(db) && FreshIn(db, random) && uid in db.users
    ensures Sound(db, FinishPrimary(cfg, db, uid, purpose, device, now, random).0)
  {
    if db.users[uid].mfaEnabledAt.None? { SessionIsSound(cfg, db, uid, device, PrimaryOnly, now, random); }
  }

  lemma StatusIsSound(db: Db, uid: UserId, active: bool, now: Time)
    requires SessionsOk(db)
    ensures Sound(db, SetStatus(db, uid, active, now).0)
  {
    if uid in db.users && !active {
      var db' := SetStatus(db, uid, active, now).0;
      RevokeIsSound(db, db.(tokens := db'.tokens), OfUser(uid), AccountDisabled, now);
    }
  }

  lemma RefreshIsSound(cfg: Config, db: Db, hash: Digest, now: Time, random: Random)
    requires SessionsOk(db) && FreshIn(db, random)
    ensures Sound(db, Refresh(cfg, db, hash, now, random).0)
  {
    var db' := Refresh(cfg, db, hash, now, random).0;
    var i := FindToken(db.tokens, hash);
    if i < |db.tokens| {
      var t := db.tokens[i];
      if t.revoked {
        RevokeIsSound(db, db', OfFamily(t.family), ReuseDetected, now);
      } else if t.expiresAt >= now && t.user in db.users {
        if db.users[t.user].active {
          RotateIsSound(cfg, db, db', i, now, random.token);
        } else {
          RevokeIsSound(db, db', OfUser(t.user), AccountDisabled, now);
        }
      }
    }
  }

  lemma CounterLoginIsSound(cfg: Config, db: Db, i: nat, counter: int, proof: Proof, now: Time, random: Random)
    requires SessionsOk(db) && FreshIn(db, random) && i < |db.actions| && db.actions[i].user in db.users
    ensures Sound(db, PrepareSession(cfg, UseCounter(db, i, counter, now), db.actions[i].user, db.actions[i].target,
                                     proof, now, random).0)
  {
    var used := UseCounter(db, i, counter, now);
    KeepIsSound(db, used);
    assert FreshIn(used, random) by { SameFresh(db, used, random); }
    SessionIsSound(cfg, used, db.actions[i].user, db.actions[i].target, proof, now, random);
    SoundTwice(db, used, PrepareSession(cfg, used, db.actions[i].user, db.actions[i].target, proof, now, random).0);
  }

  lemma SameFresh(db: Db, used: Db, random: Random)
    requires FreshIn(db, random) && used.tokens == db.tokens && used.log.sessions == db.log.sessions
    requires |used.actions| == |db.actions| && forall i :: 0 <= i < |db.actions| ==> used.actions[i].hash == db.actions[i].hash
    ensures FreshIn(used, random)
  {
    forall a | a in used.actions ensures a.hash != random.challenge {
      var i :| 0 <= i < |used.actions| && used.actions[i] == a;
      assert db.actions[i] in db.actions;
    }
  }

  lemma CodeLoginIsSound(cfg: Config, db: Db, i: nat, j: nat, proof: Proof, now: Time, random: Random)
    requires SessionsOk(db) && FreshIn(db, random) && i < |db.actions| && j < |db.codes|
    ensures Sound(db, PrepareSession(cfg, UseCode(db, i, j, now), db.actions[i].user, db.actions[i].target,
                                     proof, now, random).0)
  {
    var used := UseCode(db, i, j, now);
    RevokeIsSound(db, used, OfUser(db.actions[i].user), RecoveryUsed, now);
    RevokeKeepsFresh(db, used, OfUser(db.actions[i].user), RecoveryUsed, now, random);
    SessionIsSound(cfg, used, db.actions[i].user, db.actions[i].target, proof, now, random);
    SoundTwice(db, used, PrepareSession(cfg, used, db.actions[i].user, db.actions[i].target, proof, now, random).0);
  }

  lemma VerifyIsSound(cfg: Config, db: Db, hash: Digest, code: string, now: Time, random: Random)
    requires SessionsOk(db) && FreshIn(db, random)
    ensures Sound(db, VerifyChallenge(cfg, db, hash, code, now, random).0)
  {
    var reply := VerifyChallenge(cfg, db, hash, code, now, random);
    if reply.1.Tokens? {
      var i := FindAction(db.actions, hash, MfaLogin);
      var uid := db.actions[i].user;
      match MatchTotp(cfg, db.users[uid], code, now)
      case Matched(counter) =>
        CounterLoginIsSound(cfg, db, i, counter, SecondFactor(hash, Counter(EpochOf(db.log, uid), counter)), now, random);
      case NoMatch =>
        var j := UsableCode(cfg, db, uid, code);
        CodeLoginIsSound(cfg, db, i, j, SecondFactor(hash, Recovery(db.codes[j].hash)), now, random);
    } else {
      VerifyFails(cfg, db, hash, code, now, random);
    }
  }

  /** A challenge that is not completed changes nothing. */
  lemma VerifyFails(cfg: Config, db: Db, hash: Digest, code: string, now: Time, random: Random)
    requires SessionsOk(db) && !VerifyChallenge(cfg, db, hash, code, now, random).1.Tokens?
    ensures Sound(db, VerifyChallenge(cfg, db, hash, code, now, random).0)
  {
    assert VerifyChallenge(cfg, db, hash, code, now, random).0 == db;
    KeepIsSound(db, db);
  }

  lemma RevokeKeepsFresh(db: Db, used: Db, sel: Selector, reason: Reason, at: Time, random: Random)
    requires FreshIn(db, random) && used.tokens == Revoke(db.tokens, sel, reason, at)
    requires used.log.sessions == db.log.sessions
    requires |used.actions| == |db.actions| && forall i :: 0 <= i < |db.actions| ==> used.actions[i].hash == db.actions[i].hash
    ensures FreshIn(used, random)
  {
    forall t | t in used.tokens ensures t.family != random.family && t.hash != random.token {
      var i :| 0 <= i < |used.tokens| && used.tokens[i] == t;
      assert db.tokens[i] in db.tokens;
    }
    forall a | a in used.actions ensures a.hash != random.challenge {
      var i :| 0 <= i < |used.actions| && used.actions[i] == a;
      assert db.actions[i] in db.actions;
    }
  }

  lemma OidcIsSound(
    cfg: Config, db: Db, state: Digest, bound: bool, provider: Option<Claims>, now: Time, ids: NewIds, random: Random)
    requires SessionsOk(db) && FreshIn(db, random) && FreshIds(db, ids)
    ensures Sound(db, CompleteOidc(cfg, db, state, bound, provider, now, ids, random).0)
  {
    var reply := CompleteOidc(cfg, db, state, bound, provider, now, ids, random);
    if !reply.1.Error? {
      var t := db.transactions[state];
      var used := UseTransaction(db, state, now);
      KeepIsSound(db, used);
      match t.intent {
        case ToLink(uid) =>
          if reply.0.tokens == db.tokens { KeepIsSound(used, reply.0); }
          else { RevokeIsSound(used, reply.0, OfUser(uid), IdentityLinked, now); }
        case ToLogin => LoginIsSound(cfg, used, provider.value, t.device, now, ids, random);
      }
      SoundTwice(db, used, reply.0);
    }
  }

  lemma LoginIsSound(cfg: Config, db: Db, claims: Claims, device: string, now: Time, ids: NewIds, random: Random)
    requires SessionsOk(db) && FreshIn(db, random) && FreshIds(db, ids)
    ensures Sound(db, OidcLogin(cfg, db, claims, device, now, ids, random).0)
  {
    var reply := OidcLogin(cfg, db, claims, device, now, ids, random);
    var i := FindSubject(db.identities, claims.issuer, claims.subject);
    if i < |db.identities| {
      var uid := db.identities[i].user;
      if Locked(db, uid) { PrimaryIsSound(cfg, db, uid, OidcMfaLogin, device, now, random); }
    } else if claims.email.Some? && !EmailTaken(db.users, claims.email) {
      var db1 := AddAccount(db, claims, ids);
      KeepIsSound(db, db1);
      PrimaryIsSound(cfg, db1, ids.user, OidcMfaLogin, device, now, random);
      SoundTwice(db, db1, reply.0);
    }
  }

  /** Requests that revoke the sessions of one user, or do nothing. */
  lemma RevokingIsSound(cfg: Config, db: Db, r: Request)
    requires SessionsOk(db) && Enabled(db, r)
    requires r.LogoutToken? || r.RevokeUserSessions? || r.ResetConfirm? || r.CodesRegenerate? || r.MfaDisable? ||
      r.IdentityUnlink?
    ensures Sound(db, Serve(cfg, db, r).0)
  {
    var reply := Serve(cfg, db, r);
    if reply.0 == db {
      KeepIsSound(db, db);
    } else {
      match r
      case LogoutToken(hash, now) =>
        RevokeIsSound(db, reply.0, OfFamily(db.tokens[FindToken(db.tokens, hash)].family), Logout, now);
      case RevokeUserSessions(uid, family, now) =>
        RevokeIsSound(db, reply.0, if family.Some? then OfUserFamily(uid, family.value) else OfUser(uid), UserRevoked, now);
      case ResetConfirm(hash, now) =>
        var i := FindAction(db.actions, hash, ResetPassword);
        RevokeIsSound(db, reply.0, OfUser(db.actions[i].user), PasswordReset, now);
      case CodesRegenerate(uid, _, _, now, _) => RevokeIsSound(db, reply.0, OfUser(uid), RecoveryRegenerated, now);
      case MfaDisable(uid, _, _, now) => RevokeIsSound(db, reply.0, OfUser(uid), AccountRows.MfaDisabled, now);
      case IdentityUnlink(_, uid, now) => RevokeIsSound(db, reply.0, OfUser(uid), IdentityUnlinked, now);
    }
  }

  /** Requests that leave the sessions alone. */
  lemma QuietIsSound(cfg: Config, db: Db, r: Request)
    requires SessionsOk(db) && Enabled(db, r)
    requires r.Register? || r.EmailVerified? || r.ResetRequest? || r.EnrollmentBegin? || r.EnrollmentConfirm? || r.OidcBegin?
    ensures Sound(db, Serve(cfg, db, r).0)
  {
    KeepIsSound(db, Serve(cfg, db, r).0);
  }

  lemma StepIsSound(cfg: Config, db: Db, r: Request)
    requires SessionsOk(db)
    ensures Sound(db, Step(cfg, db, r))
  {
    if Enabled(db, r) {
      match r
      case PasswordLogin(uid, passwordOk, device, now, random) =>
        if uid in db.users { PrimaryIsSound(cfg, db, uid, MfaLogin, device, now, random); }
      case StatusChange(uid, active, now) => StatusIsSound(db, uid, active, now);
      case RefreshToken(hash, now, random) => RefreshIsSound(cfg, db, hash, now, random);
      case ChallengeVerify(hash, code, now, random) => VerifyIsSound(cfg, db, hash, code, now, random);
      case OidcComplete(state, bound, provider, now, ids, random) =>
        OidcIsSound(cfg, db, state, bound, provider, now, ids, random);
      case LogoutToken(_, _) => RevokingIsSound(cfg, db, r);
      case RevokeUserSessions(_, _, _) => RevokingIsSound(cfg, db, r);
      case ResetConfirm(_, _) => RevokingIsSound(cfg, db, r);
      case CodesRegenerate(_, _, _, _, _) => RevokingIsSound(cfg, db, r);
      case MfaDisable(_, _, _, _) => RevokingIsSound(cfg, db, r);
      case IdentityUnlink(_, _, _) => RevokingIsSound(cfg, db, r);
      case _ => QuietIsSound(cfg, db, r);
    }
  }

  lemma {:induction false} RunIsSound(cfg: Config, db: Db, requests: seq<Request>)
    requires SessionsOk(db)
    ensures Sound(db, Run(cfg, db, requests))
  {
    if requests == [] {
      KeepIsSound(db, db);
    } else {
      var before := Run(cfg, db, requests[..|requests| - 1]);
      RunIsSound(cfg, db, requests[..|requests| - 1]);
      StepIsSound(cfg, before, requests[|requests| - 1]);
      SoundTwice(db, before, Run(cfg, db, requests));
    }
  }
}
