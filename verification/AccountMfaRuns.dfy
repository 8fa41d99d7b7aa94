/** Every request keeps the second-factor invariant of `AccountMfa`. */
module AccountMfaRuns {
  import opened Common
  import opened AccountRows
  import opened AccountRequests
  import opened AccountMfa

  // ----- Tables -----

  lemma ConsumeKeeps(actions: seq<ActionToken>, uid: UserId, purpose: Purpose, at: Time)
    requires ActionsOk(actions)
    ensures ActionsOk(Consume(actions, uid, purpose, at))
    ensures ActionsAdvance(actions, Consume(actions, uid, purpose, at))
  {
  }

  lemma IssueActionKeeps(actions: seq<ActionToken>, a: ActionToken, at: Time)
    requires ActionsOk(actions) && forall k :: 0 <= k < |actions| ==> actions[k].hash != a.hash
    ensures var later := Consume(actions, a.user, a.purpose, at) + [a];
      ActionsOk(later) && ActionsAdvance(actions, later)
  {
    ConsumeKeeps(actions, a.user, a.purpose, at);
  }

  lemma UseActionKeeps(actions: seq<ActionToken>, i: nat, at: Time)
    requires ActionsOk(actions) && i < |actions|
    ensures var later := actions[i := actions[i].(consumedAt := Some(at))];
      ActionsOk(later) && ActionsAdvance(actions, later) && ChallengeSpent(later, actions[i].hash)
  {
    var later := actions[i := actions[i].(consumedAt := Some(at))];
    assert forall k :: 0 <= k < |actions| ==> later[k] == actions[k].(consumedAt := later[k].consumedAt);
    assert later[i].consumedAt.Some?;
  }

  lemma {:induction false} DeleteExact(codes: seq<RecoveryCode>, uid: UserId)
    ensures forall c :: c in DeleteCodes(codes, uid) <==> c in codes && c.user != uid
  {
    if codes != [] { DeleteExact(codes[1..], uid); }
  }

  lemma {:induction false} DeleteKeeps(codes: seq<RecoveryCode>, issued: set<Digest>, uid: UserId)
    requires CodesOk(codes, issued)
    ensures CodesOk(DeleteCodes(codes, uid), issued)
    ensures forall c :: c in DeleteCodes(codes, uid) ==> c in codes
  {
    DeleteExact(codes, uid);
    if codes != [] {
      var rest := codes[1..];
      var kept := DeleteCodes(rest, uid);
      DeleteKeeps(rest, issued, uid);
      forall c | c in kept ensures c.hash != codes[0].hash {
        var j :| 0 <= j < |rest| && rest[j] == c;
        assert codes[j + 1] == c;
      }
    }
  }

  lemma CodesRemain(db: Db, codes: seq<RecoveryCode>)
    requires forall c :: c in codes ==> c in db.codes
    ensures forall i :: 0 <= i < |codes| ==> CodeAdvances(db, codes[i])
  {
    forall i | 0 <= i < |codes| ensures CodeAdvances(db, codes[i]) {
      assert codes[i] in db.codes;
    }
  }

  lemma ReplaceKeeps(db: Db, uid: UserId, hashes: seq<Digest>)
    requires CodesOk(db.codes, db.log.issuedCodes) && FreshCodes(db, hashes)
    ensures var later := ReplaceCodes(db, uid, hashes);
      CodesOk(later.codes, later.log.issuedCodes) && CodesAdvance(db, later)
  {
    var kept, added := DeleteCodes(db.codes, uid), NewCodes(uid, hashes);
    var issued := db.log.issuedCodes + Elements(hashes);
    DeleteKeeps(db.codes, db.log.issuedCodes, uid);
    CodesRemain(db, kept);
    forall i | 0 <= i < |added| ensures added[i].hash !in db.log.issuedCodes && added[i].hash in issued {
      assert hashes[i] in hashes;
    }
    var codes := kept + added;
    forall i, j | 0 <= i < j < |codes| ensures codes[i].hash != codes[j].hash {
      if i < |kept| && j >= |kept| { assert codes[j] == added[j - |kept|]; }
    }
    forall i | 0 <= i < |codes| ensures CodeAdvances(db, codes[i]) && codes[i].hash in issued {
      if i >= |kept| { assert codes[i] == added[i - |kept|]; }
    }
  }

  // ----- Requests that leave second factors alone -----

  predicate SameFactors(u: User, v: User) {
    u.secret == v.secret && u.enrollmentCreatedAt == v.enrollmentCreatedAt &&
    u.mfaEnabledAt == v.mfaEnabledAt && u.lastCounter == v.lastCounter
  }

  predicate UsersQuiet(users: map<UserId, User>, users': map<UserId, User>) {
    && (forall u :: u in users ==> u in users' && SameFactors(users[u], users'[u]))
    && (forall u :: u in users' && u !in users ==> UserOk(users'[u]))
  }

  predicate LogQuiet(log: Log, log': Log) {
    log.accepted == log'.accepted && log.epochs == log'.epochs && log.issuedCodes == log'.issuedCodes
  }

  predicate Quiet(db: Db, db': Db) {
    UsersQuiet(db.users, db'.users) && db.codes == db'.codes && LogQuiet(db.log, db'.log)
  }

  lemma QuietAdvances(db: Db, db': Db)
    requires MfaOk(db) && Quiet(db, db') && ActionsAdvance(db.actions, db'.actions)
    ensures Advances(db, db')
    ensures UsersOk(db'.users) && AcceptedOk(db') && CodesOk(db'.codes, db'.log.issuedCodes)
  {
    assert db.log.epochs == db'.log.epochs;
    CodesRemain(db, db'.codes);
    forall u | u in db.users ensures UserAdvances(db, db', u) {
      assert SameFactors(db.users[u], db'.users[u]);
    }
    forall u | u in db'.users ensures UserOk(db'.users[u]) {
      if u in db.users { assert SameFactors(db.users[u], db'.users[u]) && UserOk(db.users[u]); }
    }
    AcceptedStay(db, db');
  }

  lemma QuietKeeps(db: Db, db': Db)
    requires MfaOk(db) && Quiet(db, db')
    requires ActionsOk(db'.actions) && ActionsAdvance(db.actions, db'.actions)
    requires db'.log.sessions == db.log.sessions
    ensures MfaOk(db')
  {
    QuietAdvances(db, db');
    PaidSessionsStay(db, db');
  }

  lemma PrimarySessionKeeps(db: Db, db': Db, s: Session)
    requires MfaOk(db) && Quiet(db, db') && db'.actions == db.actions
    requires db'.log.sessions == db.log.sessions + [s]
    requires s.user in db'.users && !s.mfaOn && s.proof.PrimaryOnly?
    ensures MfaOk(db')
  {
    QuietAdvances(db, db');
    NewSessionPaid(db, db', s);
  }

  lemma ChallengeKeeps(
    cfg: Config, db: Db, uid: UserId, purpose: Purpose, device: string, now: Time, random: Random)
    requires MfaOk(db) && FreshIn(db, random)
    ensures MfaOk(PrepareChallenge(cfg, db, uid, purpose, device, now, random).0)
  {
    var db' := PrepareChallenge(cfg, db, uid, purpose, device, now, random).0;
    if db' != db {
      var a := ActionToken(uid, purpose, random.challenge, device, now + cfg.challengeLifetime, None);
      assert forall k :: 0 <= k < |db.actions| ==> db.actions[k] in db.actions;
      IssueActionKeeps(db.actions, a, now);
      QuietKeeps(db, db');
    }
  }

  lemma PrimaryKeeps(
    cfg: Config, db: Db, uid: UserId, purpose: Purpose, device: string, now: Time, random: Random)
    requires MfaOk(db) && FreshIn(db, random) && uid in db.users
    ensures MfaOk(FinishPrimary(cfg, db, uid, purpose, device, now, random).0)
  {
    if db.users[uid].mfaEnabledAt.Some? {
      ChallengeKeeps(cfg, db, uid, purpose, device, now, random);
    } else if db.users[uid].active {
      var db' := PrepareSession(cfg, db, uid, device, PrimaryOnly, now, random).0;
      PrimarySessionKeeps(db, db', Session(uid, random.family, false, PrimaryOnly));
    }
  }

  lemma OidcLoginKeeps(cfg: Config, db: Db, claims: Claims, device: string, now: Time, ids: NewIds, random: Random)
    requires MfaOk(db) && FreshIn(db, random) && FreshIds(db, ids)
    ensures MfaOk(OidcLogin(cfg, db, claims, device, now, ids, random).0)
  {
    var i := FindSubject(db.identities, claims.issuer, claims.subject);
    if i < |db.identities| {
      var uid := db.identities[i].user;
      if Locked(db, uid) { PrimaryKeeps(cfg, db, uid, OidcMfaLogin, device, now, random); }
    } else if claims.email.Some? && !EmailTaken(db.users, claims.email) {
      var db1 := AddAccount(db, claims, ids);
      QuietKeeps(db, db1);
      PrimaryKeeps(cfg, db1, ids.user, OidcMfaLogin, device, now, random);
    }
  }

  lemma OidcKeeps(cfg: Config, db: Db, r: Request)
    requires MfaOk(db) && r.OidcComplete? && Enabled(db, r)
    ensures MfaOk(Serve(cfg, db, r).0)
  {
    var reply := Serve(cfg, db, r);
    if !reply.1.Error? {
      var t := db.transactions[r.state];
      var used := UseTransaction(db, r.state, r.now);
      QuietKeeps(db, used);
      if t.intent.ToLogin? { OidcLoginKeeps(cfg, used, r.provider.value, t.device, r.now, r.ids, r.random); }
      else { QuietKeeps(used, reply.0); }
    }
  }

  lemma ResetRequestKeeps(db: Db, uid: UserId, lifetime: nat, now: Time, random: Random)
    requires MfaOk(db) && FreshIn(db, random)
    ensures MfaOk(RequestReset(db, uid, lifetime, now, random).0)
  {
    var db' := RequestReset(db, uid, lifetime, now, random).0;
    if db' != db {
      var a := ActionToken(uid, ResetPassword, random.challenge, db.users[uid].email.value, now + lifetime, None);
      assert forall k :: 0 <= k < |db.actions| ==> db.actions[k] in db.actions;
      IssueActionKeeps(db.actions, a, now);
      QuietKeeps(db, db');
    }
  }

  lemma ResetConfirmKeeps(db: Db, hash: Digest, now: Time)
    requires MfaOk(db)
    ensures MfaOk(ConfirmReset(db, hash, now).0)
  {
    var db' := ConfirmReset(db, hash, now).0;
    if db' != db {
      ConsumeKeeps(db.actions, db.actions[FindAction(db.actions, hash, ResetPassword)].user, ResetPassword, now);
      QuietKeeps(db, db');
    }
  }

  // ----- Enrolment -----

  /** One user's factors change; everybody else's stay. */
  predicate OnlyUser(db: Db, db': Db, uid: UserId) {
    && uid in db.users && db'.users.Keys == db.users.Keys
    && (forall u :: u in db.users && u != uid ==>
          db'.users[u] == db.users[u] && EpochOf(db'.log, u) == EpochOf(db.log, u))
  }

  lemma OnlyUserAdvances(db: Db, db': Db, uid: UserId)
    requires OnlyUser(db, db', uid) && UserAdvances(db, db', uid)
    ensures UsersAdvance(db, db')
  {
    forall u | u in db.users ensures UserAdvances(db, db', u) {
    }
  }

  lemma OnlyUserOk(db: Db, db': Db, uid: UserId)
    requires OnlyUser(db, db', uid) && UsersOk(db.users) && UserOk(db'.users[uid])
    ensures UsersOk(db'.users)
  {
    forall u | u in db'.users ensures UserOk(db'.users[u]) {
      if u != uid { assert db'.users[u] == db.users[u]; }
    }
  }

  lemma BeginKeeps(cfg: Config, db: Db, r: Request)
    requires MfaOk(db) && r.EnrollmentBegin?
    ensures MfaOk(Serve(cfg, db, r).0)
  {
    var reply := Serve(cfg, db, r);
    if reply.1.Ok? {
      var db', uid := reply.0, r.uid;
      DeleteKeeps(db.codes, db.log.issuedCodes, uid);
      CodesRemain(db, db'.codes);
      OnlyUserAdvances(db, db', uid);
      OnlyUserOk(db, db', uid);
      AcceptedStay(db, db');
      PaidSessionsStay(db, db');
    }
  }

  /** A matched counter is near the current step and above the last accepted one. */
  lemma MatchedCounter(cfg: Config, user: User, code: string, now: Time)
    ensures var m := MatchTotp(cfg, user, code, now);
      m.Matched? ==>
        && TimeStep(now) - 1 <= m.counter <= TimeStep(now) + 1
        && (user.lastCounter.Some? ==> m.counter > user.lastCounter.value)
  {
  }

  /** A counter is accepted together with a new set of recovery codes. */
  lemma AcceptWithCodesKeeps(db: Db, db': Db, uid: UserId, counter: int, now: Time, hashes: seq<Digest>)
    requires MfaOk(db) && FreshCodes(db, hashes) && OnlyUser(db, db', uid) && UserOk(db'.users[uid])
    requires db.users[uid].lastCounter.Some? ==> counter > db.users[uid].lastCounter.value
    requires TimeStep(now) - 1 <= counter <= TimeStep(now) + 1
    requires db'.users[uid].lastCounter == Some(counter)
    requires db'.codes == ReplaceCodes(db, uid, hashes).codes
    requires db'.log == Accept(ReplaceCodes(db, uid, hashes).log, uid, counter, now)
    requires db'.actions == db.actions
    ensures MfaOk(db')
  {
    ReplaceKeeps(db, uid, hashes);
    OnlyUserAdvances(db, db', uid);
    OnlyUserOk(db, db', uid);
    AcceptOk(db, db', uid, counter, now);
    PaidSessionsStay(db, db');
  }

  lemma ConfirmKeeps(cfg: Config, db: Db, uid: UserId, code: string, now: Time, hashes: seq<Digest>)
    requires MfaOk(db) && FreshCodes(db, hashes)
    ensures MfaOk(ConfirmEnrollment(cfg, db, uid, code, now, hashes).0)
  {
    var reply := ConfirmEnrollment(cfg, db, uid, code, now, hashes);
    if reply.1.Ok? {
      MatchedCounter(cfg, db.users[uid], code, now);
      assert UserOk(db.users[uid]);
      var m := MatchTotp(cfg, db.users[uid], code, now);
      AcceptWithCodesKeeps(db, reply.0, uid, m.counter, now, hashes);
    }
  }

  lemma RegenerateKeeps(
    cfg: Config, db: Db, uid: UserId, passwordOk: bool, code: string, now: Time, hashes: seq<Digest>)
    requires MfaOk(db) && FreshCodes(db, hashes)
    ensures MfaOk(RegenerateCodes(cfg, db, uid, passwordOk, code, now, hashes).0)
  {
    var reply := RegenerateCodes(cfg, db, uid, passwordOk, code, now, hashes);
    if reply.1.Ok? {
      MatchedCounter(cfg, db.users[uid], code, now);
      assert UserOk(db.users[uid]);
      var m := MatchTotp(cfg, db.users[uid], code, now);
      AcceptWithCodesKeeps(db, reply.0, uid, m.counter, now, hashes);
    }
  }

  /** Switching off ends the epoch, so the counter just accepted is spent with it. */
  lemma SwitchOffKeeps(db: Db, db1: Db, uid: UserId, now: Time)
    requires MfaOk(db) && uid in db.users && db1 == db.(log := db1.log)
    requires db1.log == db.log || exists counter ::
      && db1.log == Accept(db.log, uid, counter, now)
      && (db.users[uid].lastCounter.Some? ==> counter > db.users[uid].lastCounter.value)
      && TimeStep(now) - 1 <= counter <= TimeStep(now) + 1
    ensures MfaOk(SwitchOff(db1, uid, now))
  {
    var db' := SwitchOff(db1, uid, now);
    DeleteKeeps(db.codes, db.log.issuedCodes, uid);
    CodesRemain(db, db'.codes);
    OnlyUserAdvances(db, db', uid);
    OnlyUserOk(db, db', uid);
    if db1.log == db.log {
      AcceptedStay(db, db');
    } else {
      var counter :| db1.log == Accept(db.log, uid, counter, now)
        && (db.users[uid].lastCounter.Some? ==> counter > db.users[uid].lastCounter.value)
        && TimeStep(now) - 1 <= counter <= TimeStep(now) + 1;
      AcceptOk(db, db', uid, counter, now);
    }
    PaidSessionsStay(db, db');
  }

  lemma DisableKeeps(cfg: Config, db: Db, uid: UserId, passwordOk: bool, code: string, now: Time)
    requires MfaOk(db)
    ensures MfaOk(DisableMfa(cfg, db, uid, passwordOk, code, now).0)
  {
    var reply := DisableMfa(cfg, db, uid, passwordOk, code, now);
    if reply.1.Ok? {
      MatchedCounter(cfg, db.users[uid], code, now);
      match MatchTotp(cfg, db.users[uid], code, now)
      case Matched(counter) => SwitchOffKeeps(db, db.(log := Accept(db.log, uid, counter, now)), uid, now);
      case NoMatch => SwitchOffKeeps(db, db, uid, now);
    }
  }

  // ----- Completing a challenge -----

  lemma CounterLoginKeeps(cfg: Config, db: Db, i: nat, counter: int, now: Time, db': Db, s: Session)
    requires MfaOk(db) && i < |db.actions| && db.actions[i].consumedAt.None?
    requires var uid := db.actions[i].user;
      && uid in db.users && db.users[uid].mfaEnabledAt.Some?
      && counter > db.users[uid].lastCounter.value
      && TimeStep(now) - 1 <= counter <= TimeStep(now) + 1
      && s == Session(uid, s.family, true, SecondFactor(db.actions[i].hash, Counter(EpochOf(db.log, uid), counter)))
    requires var used := UseCounter(db, i, counter, now);
      db' == used.(tokens := db'.tokens, log := used.log.(sessions := db.log.sessions + [s]))
    ensures MfaOk(db')
  {
    var uid := db.actions[i].user;
    UseActionKeeps(db.actions, i, now);
    CodesRemain(db, db'.codes);
    OnlyUserAdvances(db, db', uid);
    OnlyUserOk(db, db', uid);
    AcceptOk(db, db', uid, counter, now);
    NewSessionPaid(db, db', s);
  }

  lemma UseCodeAdvances(db: Db, j: nat, now: Time)
    requires CodesOk(db.codes, db.log.issuedCodes) && j < |db.codes|
    ensures var later := db.codes[j := db.codes[j].(usedAt := Some(now))];
      && CodesOk(later, db.log.issuedCodes)
      && (forall k :: 0 <= k < |later| ==> CodeAdvances(db, later[k]))
      && (forall k :: 0 <= k < |later| && later[k].hash == db.codes[j].hash ==> later[k].usedAt.Some?)
  {
    var later := db.codes[j := db.codes[j].(usedAt := Some(now))];
    forall k | 0 <= k < |later| ensures CodeAdvances(db, later[k]) {
      assert db.codes[k].hash == later[k].hash;
    }
  }

  lemma RecoveryLoginKeeps(cfg: Config, db: Db, i: nat, j: nat, now: Time, db': Db, s: Session)
    requires MfaOk(db) && i < |db.actions| && db.actions[i].consumedAt.None?
    requires j < |db.codes| && db.codes[j].usedAt.None?
    requires var uid := db.actions[i].user;
      && uid in db.users
      && s == Session(uid, s.family, true, SecondFactor(db.actions[i].hash, Recovery(db.codes[j].hash)))
    requires var used := UseCode(db, i, j, now);
      db' == used.(tokens := db'.tokens, log := used.log.(sessions := db.log.sessions + [s]))
    ensures MfaOk(db')
  {
    var uid := db.actions[i].user;
    UseActionKeeps(db.actions, i, now);
    UseCodeAdvances(db, j, now);
    OnlyUserAdvances(db, db', uid);
    AcceptedStay(db, db');
    NewSessionPaid(db, db', s);
  }

  lemma VerifyKeeps(cfg: Config, db: Db, r: Request)
    requires MfaOk(db) && r.ChallengeVerify?
    ensures MfaOk(Serve(cfg, db, r).0)
  {
    var reply := Serve(cfg, db, r);
    if reply.1.Tokens? {
      var i := FindAction(db.actions, r.hash, MfaLogin);
      var uid := db.actions[i].user;
      var s := reply.0.log.sessions[|db.log.sessions|];
      MatchedCounter(cfg, db.users[uid], r.code, r.now);
      assert UserOk(db.users[uid]);
      match MatchTotp(cfg, db.users[uid], r.code, r.now)
      case Matched(counter) => CounterLoginKeeps(cfg, db, i, counter, r.now, reply.0, s);
      case NoMatch => RecoveryLoginKeeps(cfg, db, i, UsableCode(cfg, db, uid, r.code), r.now, reply.0, s);
    }
  }

  // ----- All requests -----

  lemma AdministrationKeeps(cfg: Config, db: Db, r: Request)
    requires MfaOk(db) && Enabled(db, r) && (r.Register? || r.StatusChange? || r.EmailVerified?)
    ensures MfaOk(Serve(cfg, db, r).0)
  {
    AdministrationIsQuiet(cfg, db, r);
    QuietKeeps(db, Serve(cfg, db, r).0);
  }

  lemma AdministrationIsQuiet(cfg: Config, db: Db, r: Request)
    requires Enabled(db, r) && (r.Register? || r.StatusChange? || r.EmailVerified?)
    ensures var db' := Serve(cfg, db, r).0;
      Quiet(db, db') && db'.actions == db.actions && db'.log == db.log
  {
  }

  /** Requests that touch only tokens, identities and transactions. */
  lemma ElsewhereKeeps(cfg: Config, db: Db, r: Request)
    requires MfaOk(db)
    requires r.RefreshToken? || r.LogoutToken? || r.RevokeUserSessions? || r.OidcBegin? || r.IdentityUnlink?
    ensures MfaOk(Serve(cfg, db, r).0)
  {
    ElsewhereIsQuiet(cfg, db, r);
    QuietKeeps(db, Serve(cfg, db, r).0);
  }

  lemma ElsewhereIsQuiet(cfg: Config, db: Db, r: Request)
    requires r.RefreshToken? || r.LogoutToken? || r.RevokeUserSessions? || r.OidcBegin? || r.IdentityUnlink?
    ensures var db' := Serve(cfg, db, r).0;
      db'.users == db.users && db'.actions == db.actions && db'.codes == db.codes && db'.log == db.log
  {
  }

  lemma StepKeeps(cfg: Config, db: Db, r: Request)
    requires MfaOk(db)
    ensures MfaOk(Step(cfg, db, r))
  {
    if Enabled(db, r) {
      match r
      case PasswordLogin(uid, passwordOk, device, now, random) =>
        if uid in db.users { PrimaryKeeps(cfg, db, uid, MfaLogin, device, now, random); }
      case OidcComplete(_, _, _, _, _, _) => OidcKeeps(cfg, db, r);
      case ResetRequest(uid, lifetime, now, random) => ResetRequestKeeps(db, uid, lifetime, now, random);
      case ResetConfirm(hash, now) => ResetConfirmKeeps(db, hash, now);
      case EnrollmentBegin(_, _, _, _) => BeginKeeps(cfg, db, r);
      case EnrollmentConfirm(uid, code, now, hashes) => ConfirmKeeps(cfg, db, uid, code, now, hashes);
      case CodesRegenerate(uid, passwordOk, code, now, hashes) =>
        RegenerateKeeps(cfg, db, uid, passwordOk, code, now, hashes);
      case MfaDisable(uid, passwordOk, code, now) => DisableKeeps(cfg, db, uid, passwordOk, code, now);
      case ChallengeVerify(_, _, _, _) => VerifyKeeps(cfg, db, r);
      case Register(_, _, _) => AdministrationKeeps(cfg, db, r);
      case StatusChange(_, _, _) => AdministrationKeeps(cfg, db, r);
      case EmailVerified(_) => AdministrationKeeps(cfg, db, r);
      case _ => ElsewhereKeeps(cfg, db, r);
    }
  }

  lemma {:induction false} RunKeeps(cfg: Config, requests: seq<Request>)
    ensures MfaOk(Run(cfg, EMPTY_DB, requests))
  {
    if requests != [] {
      RunKeeps(cfg, requests[..|requests| - 1]);
      StepKeeps(cfg, Run(cfg, EMPTY_DB, requests[..|requests| - 1]), requests[|requests| - 1]);
    }
  }
}
