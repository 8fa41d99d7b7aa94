/** The account tables as callers see them: whatever requests have been served, in whatever order, the
    tables are in a state that a run reaches, and so have the properties proved of those. */
module AccountApi {
  import opened Common
  import opened AccountRows
  import opened AccountRequests
  import opened AccountService
  import AccountSessions
  import AccountMfa
  import AccountIdentities
  import SessionTheorems
  import SessionOrigins
  import Effects = RequestEffects
  import MfaTheorems

  // ----- Histories -----

  /** A request together with the state in which it was served. */
  datatype Served = Served(before: Db, request: Request)

  function StateAt(trace: seq<Served>, now: Db, i: nat): Db {
    if i < |trace| then trace[i].before else now
  }

  predicate Leads(cfg: Config, s: Served, after: Db) {
    Enabled(s.before, s.request) && after == Serve(cfg, s.before, s.request).0
  }

  /** Starting from empty tables, every request led to the state in which the next one was served. */
  predicate IsTrace(cfg: Config, trace: seq<Served>, now: Db) {
    && StateAt(trace, now, 0) == EMPTY_DB
    && forall i :: 0 <= i < |trace| ==> Leads(cfg, trace[i], StateAt(trace, now, i + 1))
  }

  lemma Grows(cfg: Config, trace: seq<Served>, now: Db, r: Request)
    requires IsTrace(cfg, trace, now) && Enabled(now, r)
    ensures IsTrace(cfg, trace + [Served(now, r)], Serve(cfg, now, r).0)
  {
    var longer, next := trace + [Served(now, r)], Serve(cfg, now, r).0;
    forall i | 0 <= i < |longer| ensures Leads(cfg, longer[i], StateAt(longer, next, i + 1)) {
      if i < |trace| { assert Leads(cfg, trace[i], StateAt(trace, now, i + 1)); }
    }
  }

  function Requests(trace: seq<Served>): seq<Request> {
    if trace == [] then [] else Requests(trace[..|trace| - 1]) + [trace[|trace| - 1].request]
  }

  /** Such tables are those of a run. */
  lemma {:induction false} TraceIsRun(cfg: Config, trace: seq<Served>, now: Db)
    requires IsTrace(cfg, trace, now)
    ensures now == Run(cfg, EMPTY_DB, Requests(trace))
  {
    if trace != [] {
      var n := |trace| - 1;
      assert Leads(cfg, trace[n], StateAt(trace, now, n + 1));
      forall i | 0 <= i < n ensures Leads(cfg, trace[..n][i], StateAt(trace[..n], trace[n].before, i + 1)) {
        assert Leads(cfg, trace[i], StateAt(trace, now, i + 1));
      }
      TraceIsRun(cfg, trace[..n], trace[n].before);
      assert Requests(trace)[..|Requests(trace)| - 1] == Requests(trace[..n]);
    }
  }

  // ----- Properties of the tables -----

  predicate LiveToken(tokens: seq<Token>, hash: Digest, now: Time) {
    exists i :: 0 <= i < |tokens| && tokens[i].hash == hash && !tokens[i].revoked && now <= tokens[i].expiresAt
  }

  predicate NoneLive(tokens: seq<Token>, uid: UserId) {
    forall i :: 0 <= i < |tokens| && tokens[i].user == uid ==> tokens[i].revoked
  }

  predicate FamilyEnded(tokens: seq<Token>, family: string) {
    forall i :: 0 <= i < |tokens| && tokens[i].family == family ==> tokens[i].revoked
  }

  class Api {
    const accounts: Accounts
    ghost var trace: seq<Served>

    ghost predicate Valid()
      reads this, accounts
    {
      IsTrace(accounts.cfg, trace, accounts.State())
    }

    constructor (cfg: Config)
      ensures Valid() && fresh(accounts) && accounts.cfg == cfg && trace == []
    {
      accounts := new Accounts(cfg);
      trace := [];
    }

    // ----- Serving requests -----

    method SessionRequest(r: Request) returns (response: Response)
      requires r.Register? || r.PasswordLogin? || r.StatusChange? || r.EmailVerified? || r.RefreshToken? ||
        r.LogoutToken? || r.RevokeUserSessions? || r.ResetRequest? || r.ResetConfirm?
      modifies accounts
      ensures (accounts.State(), response) == Serve(accounts.cfg, old(accounts.State()), r)
    {
      match r
      case Register(uid, username, email) => response := accounts.Register(uid, username, email);
      case PasswordLogin(uid, passwordOk, device, now, random) =>
        response := accounts.Login(uid, passwordOk, device, now, random);
      case StatusChange(uid, active, now) => response := accounts.UpdateUserStatus(uid, active, now);
      case EmailVerified(uid) => response := accounts.ConfirmEmail(uid);
      case RefreshToken(hash, now, random) => response := accounts.RefreshAccessToken(hash, now, random);
      case LogoutToken(hash, now) => response := accounts.RevokeRefreshToken(hash, now);
      case RevokeUserSessions(uid, family, now) => response := accounts.RevokeUserSessions(uid, family, now);
      case ResetRequest(uid, lifetime, now, random) => response := accounts.IssueResetToken(uid, lifetime, now, random);
      case ResetConfirm(hash, now) => response := accounts.ConfirmPasswordReset(hash, now);
    }

    method FactorRequest(r: Request) returns (response: Response)
      requires r.EnrollmentBegin? || r.EnrollmentConfirm? || r.CodesRegenerate? || r.MfaDisable? || r.ChallengeVerify?
      modifies accounts
      ensures (accounts.State(), response) == Serve(accounts.cfg, old(accounts.State()), r)
    {
      match r
      case EnrollmentBegin(uid, passwordOk, secret, now) =>
        response := accounts.BeginTotpEnrollment(uid, passwordOk, secret, now);
      case EnrollmentConfirm(uid, code, now, hashes) =>
        response := accounts.ConfirmTotpEnrollment(uid, code, now, hashes);
      case CodesRegenerate(uid, passwordOk, code, now, hashes) =>
        response := accounts.RegenerateRecoveryCodes(uid, passwordOk, code, now, hashes);
      case MfaDisable(uid, passwordOk, code, now) => response := accounts.DisableTotp(uid, passwordOk, code, now);
      case ChallengeVerify(hash, code, now, random) =>
        response := accounts.VerifyMfaLoginChallenge(hash, code, now, random);
    }

    method IdentityRequest(r: Request) returns (response: Response)
      requires r.OidcBegin? || r.OidcComplete? || r.IdentityUnlink?
      modifies accounts
      ensures (accounts.State(), response) == Serve(accounts.cfg, old(accounts.State()), r)
    {
      match r
      case OidcBegin(state, intent, device, now) =>
        response := accounts.BeginOidcAuthorization(state, intent, device, now);
      case OidcComplete(state, bound, provider, now, ids, random) =>
        response := accounts.CompleteOidcAuthorization(state, bound, provider, now, ids, random);
      case IdentityUnlink(id, uid, now) => response := accounts.UnlinkExternalIdentity(id, uid, now);
    }

    /** Serves any request whose random values and new ids are new. */
    method Handle(r: Request) returns (response: Response)
      requires Valid() && Enabled(accounts.State(), r)
      modifies this, accounts
      ensures Valid() && trace == old(trace) + [Served(old(accounts.State()), r)]
      ensures (accounts.State(), response) == Serve(accounts.cfg, old(accounts.State()), r)
    {
      Grows(accounts.cfg, trace, accounts.State(), r);
      trace := trace + [Served(accounts.State(), r)];
      match r
      case EnrollmentBegin(_, _, _, _) => response := FactorRequest(r);
      case EnrollmentConfirm(_, _, _, _) => response := FactorRequest(r);
      case CodesRegenerate(_, _, _, _, _) => response := FactorRequest(r);
      case MfaDisable(_, _, _, _) => response := FactorRequest(r);
      case ChallengeVerify(_, _, _, _) => response := FactorRequest(r);
      case OidcBegin(_, _, _, _) => response := IdentityRequest(r);
      case OidcComplete(_, _, _, _, _, _) => response := IdentityRequest(r);
      case IdentityUnlink(_, _, _) => response := IdentityRequest(r);
      case _ => response := SessionRequest(r);
    }

    // ----- What holds at any time -----

    lemma TablesReachable()
      requires Valid()
      ensures SessionTheorems.Reachable(accounts.cfg, accounts.State())
    {
      TraceIsRun(accounts.cfg, trace, accounts.State());
    }

    /** At most one live token per family, one user and device per family, and none of a disabled user. */
    lemma Sessions()
      requires Valid()
      ensures forall i, j :: 0 <= i < j < |accounts.tokens| && accounts.tokens[i].family == accounts.tokens[j].family ==>
        AccountSessions.SameChain(accounts.tokens[i], accounts.tokens[j]) && accounts.tokens[i].revoked
      ensures forall u :: u in accounts.users && !accounts.users[u].active ==> NoneLive(accounts.tokens, u)
    {
      TablesReachable();
      SessionTheorems.ReachableSessions(accounts.cfg, accounts.State());
    }

    /** Identities are unique, and everybody can sign in. */
    lemma Identities()
      requires Valid()
      ensures AccountIdentities.IdentitiesOk(accounts.users, accounts.identities)
      ensures AccountIdentities.CanSignIn(accounts.users, accounts.identities)
    {
      TraceIsRun(accounts.cfg, trace, accounts.State());
      AccountIdentities.RunKeepsLinks(accounts.cfg, Requests(trace));
    }

    /** At most one login challenge of a user is open. */
    lemma Challenges(i: nat, j: nat)
      requires Valid() && i < j < |accounts.actions| && accounts.actions[i].user == accounts.actions[j].user
      requires LoginPurpose(accounts.actions[i].purpose) && LoginPurpose(accounts.actions[j].purpose)
      ensures accounts.actions[i].consumedAt.Some?
    {
      TablesReachable();
      MfaTheorems.OneOpenChallenge(accounts.cfg, accounts.State(), i, j);
    }

    // ----- What single requests give their callers -----

    /** Succeeds exactly for a live, unexpired token; a revoked one ends its family instead. */
    method Refresh(hash: Digest, now: Time, random: Random) returns (response: Response)
      requires Valid() && FreshIn(accounts.State(), random)
      modifies this, accounts
      ensures Valid()
      ensures response.Tokens? <==> old(LiveToken(accounts.tokens, hash, now))
      ensures forall t :: t in old(accounts.tokens) && t.hash == hash && t.revoked ==>
        FamilyEnded(accounts.tokens, t.family)
    {
      ghost var db := accounts.State();
      TablesReachable();
      SessionTheorems.RefreshExact(accounts.cfg, db, hash, now, random);
      SessionTheorems.ReachableSessions(accounts.cfg, db);
      forall i | 0 <= i < |db.tokens| && db.tokens[i].hash == hash && db.tokens[i].revoked
        ensures FamilyEnded(AccountRequests.Refresh(accounts.cfg, db, hash, now, random).0.tokens, db.tokens[i].family)
      {
        SessionTheorems.ReplayRevokes(accounts.cfg, db, i, now, random);
      }
      response := Handle(RefreshToken(hash, now, random));
    }

    /** The right password of an active account gives a session for the device, or with MFA on a challenge
        that stays open for its lifetime. */
    method LogIn(uid: UserId, passwordOk: bool, device: string, now: Time, random: Random) returns (response: Response)
      requires Valid() && FreshIn(accounts.State(), random)
      modifies this, accounts
      ensures Valid()
      ensures response.Tokens? <==> old(CanLogIn(uid, passwordOk)) && !old(accounts.users[uid].mfaEnabledAt.Some?)
      ensures response.Challenge? <==>
        old(CanLogIn(uid, passwordOk)) && old(accounts.users[uid].mfaEnabledAt.Some?) && accounts.cfg.mfaAvailable
      ensures response.Tokens? ==>
        Effects.Started(accounts.cfg, old(accounts.tokens), accounts.tokens, uid, device, now, random)
      ensures response.Challenge? ==>
        SessionOrigins.HoldsOpen(accounts.actions, response.challenge, MfaLogin, now, uid) ||
        accounts.cfg.challengeLifetime == 0
    {
      ghost var db := accounts.State();
      Effects.LoginExact(accounts.cfg, db, uid, passwordOk, device, now, random);
      response := Handle(PasswordLogin(uid, passwordOk, device, now, random));
      if response.Challenge? {
        ghost var n := |db.actions|;
        assert accounts.actions[n].hash == response.challenge && accounts.actions[n].user == uid;
      }
    }

    predicate CanLogIn(uid: UserId, passwordOk: bool)
      reads accounts
    {
      uid in accounts.users && accounts.users[uid].active && accounts.users[uid].passwordLogin && passwordOk
    }

    /** Ends one session of the user, or all of them, and nobody else's. */
    method SignOut(uid: UserId, family: Option<string>, now: Time) returns (response: Response)
      requires Valid()
      modifies this, accounts
      ensures Valid() && response.Ok?
      ensures family.None? ==>
        Effects.UserEnded(old(accounts.tokens), accounts.tokens, uid, UserRevoked, now) && NoneLive(accounts.tokens, uid)
      ensures family.Some? ==> Effects.OwnFamilyEnded(old(accounts.tokens), accounts.tokens, uid, family.value, now)
    {
      ghost var db := accounts.State();
      TablesReachable();
      if family.None? { Effects.SignOutEverywhere(accounts.cfg, db, uid, now, []); }
      else { Effects.SignOutOfDevice(db, uid, family.value, now); }
      response := Handle(RevokeUserSessions(uid, family, now));
    }

    /** Disabling leaves the user no live token. */
    method Disable(uid: UserId, now: Time) returns (response: Response)
      requires Valid()
      modifies this, accounts
      ensures Valid() && (response.Ok? <==> old(uid in accounts.users))
      ensures response.Ok? ==> uid in accounts.users && !accounts.users[uid].active && NoneLive(accounts.tokens, uid)
    {
      response := Handle(StatusChange(uid, false, now));
      Sessions();
    }

    /** A completed challenge was open, and its user is signed in by exactly one new session. */
    method CompleteChallenge(hash: Digest, code: string, now: Time, random: Random) returns (response: Response)
      requires Valid() && FreshIn(accounts.State(), random)
      modifies this, accounts
      ensures Valid()
      ensures response.Tokens? ==>
        && old(SessionOrigins.HoldsOpen(accounts.actions, hash, MfaLogin, now, response.user))
        && |accounts.tokens| == |old(accounts.tokens)| + 1
        && accounts.tokens[|old(accounts.tokens)|].user == response.user
        && AccountMfa.ChallengeSpent(accounts.actions, hash)
    {
      ghost var db := accounts.State();
      response := Handle(ChallengeVerify(hash, code, now, random));
      if response.Tokens? { ChallengeUsed(accounts.cfg, db, hash, code, now, random); }
    }

    /** A confirmed reset leaves the owner of the token no live session. */
    method Reset(hash: Digest, now: Time) returns (response: Response)
      requires Valid()
      modifies this, accounts
      ensures Valid()
      ensures response.Ok? ==>
        exists uid :: SessionOrigins.HoldsOpen(old(accounts.actions), hash, ResetPassword, now, uid)
                      && NoneLive(accounts.tokens, uid)
    {
      ghost var db := accounts.State();
      response := Handle(ResetConfirm(hash, now));
      if response.Ok? { ResetUsed(db, hash, now); }
    }

    /** Unlinking never takes the last way to sign in. */
    method UnlinkIdentity(id: nat, uid: UserId, now: Time) returns (response: Response)
      requires Valid()
      modifies this, accounts
      ensures Valid() && AccountIdentities.CanSignIn(accounts.users, accounts.identities)
    {
      response := Handle(IdentityUnlink(id, uid, now));
      Identities();
    }
  }

  lemma ChallengeUsed(cfg: Config, db: Db, hash: Digest, code: string, now: Time, random: Random)
    requires VerifyChallenge(cfg, db, hash, code, now, random).1.Tokens?
    ensures var (db', r) := VerifyChallenge(cfg, db, hash, code, now, random);
      && SessionOrigins.HoldsOpen(db.actions, hash, MfaLogin, now, r.user)
      && |db'.tokens| == |db.tokens| + 1 && db'.tokens[|db.tokens|].user == r.user
      && AccountMfa.ChallengeSpent(db'.actions, hash)
  {
    var i := FindAction(db.actions, hash, MfaLogin);
    assert SessionOrigins.OpenAction(db.actions[i], hash, MfaLogin, now);
    var db' := VerifyChallenge(cfg, db, hash, code, now, random).0;
    assert db'.actions[i].hash == hash && db'.actions[i].consumedAt.Some?;
  }

  lemma ResetUsed(db: Db, hash: Digest, now: Time)
    requires ConfirmReset(db, hash, now).1.Ok?
    ensures exists uid :: SessionOrigins.HoldsOpen(db.actions, hash, ResetPassword, now, uid)
                          && NoneLive(ConfirmReset(db, hash, now).0.tokens, uid)
  {
    var i := FindAction(db.actions, hash, ResetPassword);
    assert SessionOrigins.OpenAction(db.actions[i], hash, ResetPassword, now);
    assert SessionOrigins.HoldsOpen(db.actions, hash, ResetPassword, now, db.actions[i].user);
  }
}
