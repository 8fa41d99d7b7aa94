/** External identities over every run: they are unique, they never attach to somebody else's account,
    and every account keeps a way to sign in. */
module AccountIdentities {
  import opened Common
  import opened AccountRows
  import opened AccountRequests
  import opened SessionTheorems

  // ----- The invariant -----

  predicate Clash(a: Identity, b: Identity) {
    || a.id == b.id
    || (a.issuer == b.issuer && a.subject == b.subject)
    || (a.issuer == b.issuer && a.user == b.user)
  }

  predicate IdentitiesOk(users: map<UserId, User>, identities: seq<Identity>) {
    && (forall i, j :: 0 <= i < j < |identities| ==> !Clash(identities[i], identities[j]))
    && (forall i :: 0 <= i < |identities| ==> identities[i].user in users)
  }

  predicate HasIdentity(identities: seq<Identity>, uid: UserId) {
    exists i :: 0 <= i < |identities| && identities[i].user == uid
  }

  /** Every account can sign in with its password or with an identity. */
  predicate CanSignIn(users: map<UserId, User>, identities: seq<Identity>) {
    forall u :: u in users ==> users[u].passwordLogin || HasIdentity(identities, u)
  }

  predicate NamesOk(users: map<UserId, User>) {
    forall u, v :: u in users && v in users && u != v ==>
      users[u].username != users[v].username && (users[u].email.Some? ==> users[u].email != users[v].email)
  }

  /** Each OIDC transaction led to at most one committed result. */
  predicate OneShot(transactions: map<Digest, Transaction>, completed: seq<Digest>) {
    && Distinct(completed)
    && forall i :: 0 <= i < |completed| ==>
         completed[i] in transactions && transactions[completed[i]].consumedAt.Some?
  }

  predicate LinksOk(db: Db) {
    && IdentitiesOk(db.users, db.identities) && CanSignIn(db.users, db.identities)
    && NamesOk(db.users) && OneShot(db.transactions, db.log.completed)
  }

  // ----- Users -----

  /** Accounts keep name, address and password login, except that a reset turns the latter on. */
  predicate SameSignIn(u: User, v: User) {
    u.username == v.username && u.email == v.email && (u.passwordLogin ==> v.passwordLogin)
  }

  predicate UsersKept(users: map<UserId, User>, users': map<UserId, User>) {
    users'.Keys == users.Keys && forall u :: u in users ==> SameSignIn(users[u], users'[u])
  }

  lemma UsersKeptOk(db: Db, db': Db)
    requires LinksOk(db) && UsersKept(db.users, db'.users) && db'.identities == db.identities
    requires db'.transactions == db.transactions && db'.log.completed == db.log.completed
    ensures LinksOk(db')
  {
  }

  lemma NewUserNames(users: map<UserId, User>, uid: UserId, user: User)
    requires NamesOk(users) && uid !in users
    requires !UsernameTaken(users, user.username) && !EmailTaken(users, user.email)
    ensures NamesOk(users[uid := user])
  {
  }

  // ----- Identities -----

  lemma AddIdentityOk(users: map<UserId, User>, identities: seq<Identity>, x: Identity)
    requires IdentitiesOk(users, identities) && x.user in users
    requires forall i :: 0 <= i < |identities| ==> !Clash(identities[i], x)
    ensures IdentitiesOk(users, identities + [x])
  {
  }

  lemma {:induction false} CountOwnPositive(identities: seq<Identity>, uid: UserId)
    ensures CountOwn(identities, uid) > 0 <==> HasIdentity(identities, uid)
  {
    if identities != [] {
      var n := |identities| - 1;
      CountOwnPositive(identities[..n], uid);
      if HasIdentity(identities[..n], uid) {
        var i :| 0 <= i < n && identities[..n][i].user == uid;
        assert identities[i].user == uid;
      }
    }
  }

  lemma {:induction false} CountOwnRemoved(identities: seq<Identity>, i: nat, uid: UserId)
    requires i < |identities|
    ensures CountOwn(RemoveAt(identities, i), uid) ==
      CountOwn(identities, uid) - if identities[i].user == uid then 1 else 0
  {
    var n := |identities| - 1;
    if i == n {
      assert RemoveAt(identities, i) == identities[..n];
    } else {
      CountOwnRemoved(identities[..n], i, uid);
      assert RemoveAt(identities, i) == RemoveAt(identities[..n], i) + [identities[n]];
      assert RemoveAt(identities, i)[..n - 1] == RemoveAt(identities[..n], i);
    }
  }

  lemma RemoveKeepsSignIn(users: map<UserId, User>, identities: seq<Identity>, i: nat)
    requires CanSignIn(users, identities) && i < |identities|
    requires var uid := identities[i].user;
      uid in users && (users[uid].passwordLogin || CountOwn(identities, uid) > 1)
    ensures CanSignIn(users, RemoveAt(identities, i))
  {
    forall u | u in users ensures users[u].passwordLogin || HasIdentity(RemoveAt(identities, i), u) {
      CountOwnPositive(identities, u);
      CountOwnRemoved(identities, i, u);
      CountOwnPositive(RemoveAt(identities, i), u);
    }
  }

  lemma RemoveIdentityOk(users: map<UserId, User>, identities: seq<Identity>, i: nat)
    requires IdentitiesOk(users, identities) && i < |identities|
    ensures IdentitiesOk(users, RemoveAt(identities, i))
  {
    var r := RemoveAt(identities, i);
    assert forall k :: 0 <= k < |r| ==> r[k] == identities[if k < i then k else k + 1];
  }

  // ----- Requests -----

  lemma RegisterKeeps(db: Db, uid: UserId, username: string, email: Option<string>)
    requires LinksOk(db) && uid !in db.users
    ensures LinksOk(RegisterUser(db, uid, username, email).0)
  {
    var db' := RegisterUser(db, uid, username, email).0;
    if db' != db { NewUserNames(db.users, uid, db'.users[uid]); }
  }

  lemma UnlinkKeeps(db: Db, id: nat, uid: UserId, now: Time)
    requires LinksOk(db)
    ensures LinksOk(Unlink(db, id, uid, now).0)
  {
    var i := FindOwn(db.identities, id, uid);
    if i < |db.identities| && uid in db.users && (db.users[uid].passwordLogin || CountOwn(db.identities, uid) > 1) {
      RemoveKeepsSignIn(db.users, db.identities, i);
      RemoveIdentityOk(db.users, db.identities, i);
    }
  }

  lemma LinkKeeps(db: Db, uid: UserId, claims: Claims, now: Time, ids: NewIds)
    requires LinksOk(db) && FreshIds(db, ids)
    ensures LinksOk(OidcLink(db, uid, claims, now, ids).0)
  {
    var db' := OidcLink(db, uid, claims, now, ids).0;
    if db'.identities != db.identities {
      var x := NewIdentity(claims, ids, uid);
      forall i | 0 <= i < |db.identities| ensures !Clash(db.identities[i], x) {
        assert db.identities[i] in db.identities;
      }
      AddIdentityOk(db.users, db.identities, x);
      forall u | u in db.users ensures db.users[u].passwordLogin || HasIdentity(db'.identities, u) {
        if HasIdentity(db.identities, u) {
          var i :| 0 <= i < |db.identities| && db.identities[i].user == u;
          assert db'.identities[i].user == u;
        }
      }
    }
  }

  lemma NewAccountOk(db: Db, claims: Claims, ids: NewIds)
    requires LinksOk(db) && FreshIds(db, ids) && FindSubject(db.identities, claims.issuer, claims.subject) == |db.identities|
    requires !EmailTaken(db.users, claims.email)
    ensures LinksOk(AddAccount(db, claims, ids))
  {
    var x := NewIdentity(claims, ids, ids.user);
    var users, identities := AddAccount(db, claims, ids).users, db.identities + [x];
    NewUserNames(db.users, ids.user, users[ids.user]);
    forall i | 0 <= i < |db.identities| ensures !Clash(db.identities[i], x) {
      assert db.identities[i] in db.identities;
    }
    AddIdentityOk(users, db.identities, x);
    forall u | u in users ensures users[u].passwordLogin || HasIdentity(identities, u) {
      if u == ids.user {
        assert identities[|db.identities|].user == u;
      } else if HasIdentity(db.identities, u) {
        var i :| 0 <= i < |db.identities| && db.identities[i].user == u;
        assert identities[i].user == u;
      }
    }
  }

  lemma PrimaryKeepsLinks(
    cfg: Config, db: Db, uid: UserId, purpose: Purpose, device: string, now: Time, random: Random)
    requires LinksOk(db) && uid in db.users
    ensures LinksOk(FinishPrimary(cfg, db, uid, purpose, device, now, random).0)
  {
  }

  lemma OidcLoginKeepsLinks(cfg: Config, db: Db, claims: Claims, device: string, now: Time, ids: NewIds, random: Random)
    requires LinksOk(db) && FreshIds(db, ids)
    ensures LinksOk(OidcLogin(cfg, db, claims, device, now, ids, random).0)
  {
    var i := FindSubject(db.identities, claims.issuer, claims.subject);
    if i < |db.identities| {
      var uid := db.identities[i].user;
      if Locked(db, uid) { PrimaryKeepsLinks(cfg, db, uid, OidcMfaLogin, device, now, random); }
    } else if claims.email.Some? && !EmailTaken(db.users, claims.email) {
      NewAccountOk(db, claims, ids);
      PrimaryKeepsLinks(cfg, AddAccount(db, claims, ids), ids.user, OidcMfaLogin, device, now, random);
    }
  }

  lemma CompleteKeeps(cfg: Config, db: Db, r: Request)
    requires LinksOk(db) && r.OidcComplete? && Enabled(db, r)
    ensures LinksOk(Serve(cfg, db, r).0)
  {
    var reply := Serve(cfg, db, r);
    if !reply.1.Error? {
      var t := db.transactions[r.state];
      var used := UseTransaction(db, r.state, r.now);
      assert OneShot(used.transactions, used.log.completed);
      match t.intent
      case ToLink(uid) => LinkKeeps(used, uid, r.provider.value, r.now, r.ids);
      case ToLogin => OidcLoginKeepsLinks(cfg, used, r.provider.value, t.device, r.now, r.ids, r.random);
    }
  }

  /** Everything that `LinksOk` speaks about is kept. */
  predicate LinksKept(db: Db, db': Db) {
    && UsersKept(db.users, db'.users) && db'.identities == db.identities
    && db'.transactions == db.transactions && db'.log.completed == db.log.completed
  }

  lemma BeginKept(cfg: Config, db: Db, uid: UserId, passwordOk: bool, secret: string, now: Time)
    ensures LinksKept(db, BeginEnrollment(cfg, db, uid, passwordOk, secret, now).0)
  {
  }

  lemma ConfirmKept(cfg: Config, db: Db, uid: UserId, code: string, now: Time, hashes: seq<Digest>)
    ensures LinksKept(db, ConfirmEnrollment(cfg, db, uid, code, now, hashes).0)
  {
  }

  lemma RegenerateKept(
    cfg: Config, db: Db, uid: UserId, passwordOk: bool, code: string, now: Time, hashes: seq<Digest>)
    ensures LinksKept(db, RegenerateCodes(cfg, db, uid, passwordOk, code, now, hashes).0)
  {
  }

  lemma DisableKept(cfg: Config, db: Db, uid: UserId, passwordOk: bool, code: string, now: Time)
    ensures LinksKept(db, DisableMfa(cfg, db, uid, passwordOk, code, now).0)
  {
  }

  lemma SessionKept(
    cfg: Config, db: Db, db1: Db, uid: UserId, device: string, proof: Proof, now: Time, random: Random)
    requires LinksKept(db, db1)
    ensures LinksKept(db, PrepareSession(cfg, db1, uid, device, proof, now, random).0)
  {
  }

  lemma VerifyKept(cfg: Config, db: Db, hash: Digest, code: string, now: Time, random: Random)
    ensures LinksKept(db, VerifyChallenge(cfg, db, hash, code, now, random).0)
  {
    var i := FindAction(db.actions, hash, MfaLogin);
    if i < |db.actions| && Locked(db, db.actions[i].user) {
      var a := db.actions[i];
      match MatchTotp(cfg, db.users[a.user], code, now)
      case Unavailable =>
      case Matched(counter) =>
        SessionKept(cfg, db, UseCounter(db, i, counter, now), a.user, a.target,
          SecondFactor(hash, Counter(EpochOf(db.log, a.user), counter)), now, random);
      case NoMatch =>
        var j := UsableCode(cfg, db, a.user, code);
        if j < |db.codes| {
          SessionKept(cfg, db, UseCode(db, i, j, now), a.user, a.target,
            SecondFactor(hash, Recovery(db.codes[j].hash)), now, random);
        }
    }
  }

  lemma StatusKept(db: Db, uid: UserId, active: bool, now: Time)
    ensures LinksKept(db, SetStatus(db, uid, active, now).0)
  {
  }

  lemma ResetKept(db: Db, hash: Digest, now: Time)
    ensures LinksKept(db, ConfirmReset(db, hash, now).0)
  {
  }

  lemma LoginKeepsLinks(
    cfg: Config, db: Db, uid: UserId, passwordOk: bool, device: string, now: Time, random: Random)
    requires LinksOk(db)
    ensures LinksOk(LogIn(cfg, db, uid, passwordOk, device, now, random).0)
  {
    if uid in db.users { PrimaryKeepsLinks(cfg, db, uid, MfaLogin, device, now, random); }
  }

  lemma BeginOidcKeepsLinks(cfg: Config, db: Db, state: Digest, intent: Intent, device: string, now: Time)
    requires LinksOk(db) && state !in db.transactions
    ensures LinksOk(BeginOidc(cfg, db, state, intent, device, now).0)
  {
  }

  lemma RefreshKept(cfg: Config, db: Db, hash: Digest, now: Time, random: Random)
    ensures LinksKept(db, Refresh(cfg, db, hash, now, random).0)
  {
  }

  /** Requests that touch only refresh tokens, action tokens and the verified flag. */
  lemma ElsewhereKept(cfg: Config, db: Db, r: Request)
    requires r.EmailVerified? || r.LogoutToken? || r.RevokeUserSessions? || r.ResetRequest?
    ensures LinksKept(db, Serve(cfg, db, r).0)
  {
  }

  /** Requests that leave identities alone. */
  lemma RequestKept(cfg: Config, db: Db, r: Request)
    requires !r.Register? && !r.PasswordLogin? && !r.OidcBegin? && !r.OidcComplete? && !r.IdentityUnlink?
    ensures LinksKept(db, Serve(cfg, db, r).0)
  {
    match r
    case ChallengeVerify(hash, code, now, random) => VerifyKept(cfg, db, hash, code, now, random);
    case StatusChange(uid, active, now) => StatusKept(db, uid, active, now);
    case ResetConfirm(hash, now) => ResetKept(db, hash, now);
    case RefreshToken(hash, now, random) => RefreshKept(cfg, db, hash, now, random);
    case EnrollmentBegin(uid, ok, secret, now) => BeginKept(cfg, db, uid, ok, secret, now);
    case EnrollmentConfirm(uid, code, now, hashes) => ConfirmKept(cfg, db, uid, code, now, hashes);
    case CodesRegenerate(uid, ok, code, now, hashes) => RegenerateKept(cfg, db, uid, ok, code, now, hashes);
    case MfaDisable(uid, ok, code, now) => DisableKept(cfg, db, uid, ok, code, now);
    case _ => ElsewhereKept(cfg, db, r);
  }

  lemma StepKeepsLinks(cfg: Config, db: Db, r: Request)
    requires LinksOk(db)
    ensures LinksOk(Step(cfg, db, r))
  {
    if Enabled(db, r) {
      match r
      case Register(uid, username, email) => RegisterKeeps(db, uid, username, email);
      case OidcComplete(_, _, _, _, _, _) => CompleteKeeps(cfg, db, r);
      case IdentityUnlink(id, uid, now) => UnlinkKeeps(db, id, uid, now);
      case PasswordLogin(uid, passwordOk, device, now, random) =>
        LoginKeepsLinks(cfg, db, uid, passwordOk, device, now, random);
      case OidcBegin(state, intent, device, now) => BeginOidcKeepsLinks(cfg, db, state, intent, device, now);
      case _ => RequestKept(cfg, db, r); UsersKeptOk(db, Serve(cfg, db, r).0);
    }
  }

  lemma {:induction false} RunKeepsLinks(cfg: Config, requests: seq<Request>)
    ensures LinksOk(Run(cfg, EMPTY_DB, requests))
  {
    if requests != [] {
      RunKeepsLinks(cfg, requests[..|requests| - 1]);
      StepKeepsLinks(cfg, Run(cfg, EMPTY_DB, requests[..|requests| - 1]), requests[|requests| - 1]);
    }
  }

  // ----- Theorems -----

  /** In every reachable state no identity belongs to two accounts, no account has two identities of
      one issuer, and every account keeps a way to sign in; names and addresses stay unique, and no
      OIDC transaction completes twice. */
  lemma IdentitiesAlways(cfg: Config, db: Db)
    requires Reachable(cfg, db)
    ensures forall i, j :: 0 <= i < j < |db.identities| ==>
      db.identities[i].issuer == db.identities[j].issuer ==>
        db.identities[i].subject != db.identities[j].subject && db.identities[i].user != db.identities[j].user
    ensures forall u :: u in db.users ==> db.users[u].passwordLogin || HasIdentity(db.identities, u)
    ensures NamesOk(db.users) && Distinct(db.log.completed)
  {
    var requests :| db == Run(cfg, EMPTY_DB, requests);
    RunKeepsLinks(cfg, requests);
    forall i, j | 0 <= i < j < |db.identities| && db.identities[i].issuer == db.identities[j].issuer
      ensures db.identities[i].subject != db.identities[j].subject && db.identities[i].user != db.identities[j].user
    {
      assert !Clash(db.identities[i], db.identities[j]);
    }
  }

  /** An identity is added only to the account that asked for the link, or to an account created by
      the very same sign-in; a matching address never attaches one to an existing account. */
  lemma IdentityOnlyOnRequest(cfg: Config, db: Db, r: Request, i: nat)
    requires Reachable(cfg, db)
    requires var db' := Step(cfg, db, r); |db.identities| <= i < |db'.identities|
    ensures r.OidcComplete? && r.state in db.transactions
    ensures var x, t := Step(cfg, db, r).identities[i], db.transactions[r.state];
      match t.intent
      case ToLink(uid) => x.user == uid && uid in db.users
      case ToLogin => x.user !in db.users
  {
    match r
    case OidcComplete(_, _, _, _, _, _) =>
    case Register(_, _, _) =>
    case PasswordLogin(uid, passwordOk, device, now, random) =>
      if uid in db.users { PrimaryKeepsIdentities(cfg, db, uid, MfaLogin, device, now, random); }
    case OidcBegin(_, _, _, _) =>
    case IdentityUnlink(_, _, _) =>
    case _ => RequestKept(cfg, db, r);
  }

  lemma PrimaryKeepsIdentities(
    cfg: Config, db: Db, uid: UserId, purpose: Purpose, device: string, now: Time, random: Random)
    requires uid in db.users
    ensures FinishPrimary(cfg, db, uid, purpose, device, now, random).0.identities == db.identities
  {
  }

  predicate Vouched(identities: seq<Identity>, claims: Claims, uid: UserId) {
    exists k :: 0 <= k < |identities| && identities[k].user == uid &&
      identities[k].issuer == claims.issuer && identities[k].subject == claims.subject
  }

  /** The user has no identity of this issuer. */
  predicate NoneAt(identities: seq<Identity>, uid: UserId, issuer: string) {
    forall k :: 0 <= k < |identities| && identities[k].user == uid ==> identities[k].issuer != issuer
  }

  predicate Known(identities: seq<Identity>, claims: Claims) {
    exists k :: 0 <= k < |identities| && identities[k].issuer == claims.issuer && identities[k].subject == claims.subject
  }

  /** After linking, the identity is the user's exactly when it was before, or when the user is active
      and neither the identity nor the user's place at that issuer was taken. */
  lemma LinkExact(db: Db, uid: UserId, claims: Claims, now: Time, ids: NewIds)
    requires LinksOk(db)
    ensures Vouched(OidcLink(db, uid, claims, now, ids).0.identities, claims, uid) <==>
      || Vouched(db.identities, claims, uid)
      || (Locked(db, uid) && !Known(db.identities, claims) && NoneAt(db.identities, uid, claims.issuer))
  {
    var after := OidcLink(db, uid, claims, now, ids).0.identities;
    if Vouched(db.identities, claims, uid) {
      var k :| 0 <= k < |db.identities| && db.identities[k].user == uid &&
        db.identities[k].issuer == claims.issuer && db.identities[k].subject == claims.subject;
      assert after[k] == db.identities[k];
    }
    if after != db.identities { assert after[|db.identities|].user == uid; }
  }

  predicate Gone(identities: seq<Identity>, id: nat) {
    forall k :: 0 <= k < |identities| ==> identities[k].id != id
  }

  lemma RemovedIsGone(users: map<UserId, User>, identities: seq<Identity>, i: nat)
    requires IdentitiesOk(users, identities) && i < |identities|
    ensures Gone(RemoveAt(identities, i), identities[i].id)
    ensures HasIdentity(RemoveAt(identities, i), identities[i].user) <==> CountOwn(identities, identities[i].user) > 1
  {
    var rest := RemoveAt(identities, i);
    forall k | 0 <= k < |rest| ensures rest[k].id != identities[i].id {
      if k < i { assert !Clash(identities[k], identities[i]); } else { assert !Clash(identities[i], identities[k + 1]); }
    }
    CountOwnRemoved(identities, i, identities[i].user);
    CountOwnPositive(rest, identities[i].user);
  }

  lemma OwnIsFound(users: map<UserId, User>, identities: seq<Identity>, i: nat, uid: UserId)
    requires IdentitiesOk(users, identities) && i < |identities|
    ensures FindOwn(identities, identities[i].id, uid) == if identities[i].user == uid then i else |identities|
  {
    forall k | 0 <= k < |identities| && k != i ensures identities[k].id != identities[i].id {
      if k < i { assert !Clash(identities[k], identities[i]); } else { assert !Clash(identities[i], identities[k]); }
    }
  }

  /** Unlinking removes the identity exactly when it is the user's and not the only way to sign in. */
  lemma UnlinkExact(db: Db, i: nat, uid: UserId, now: Time)
    requires LinksOk(db) && i < |db.identities|
    ensures Gone(Unlink(db, db.identities[i].id, uid, now).0.identities, db.identities[i].id) <==>
      (db.identities[i].user == uid &&
       (db.users[uid].passwordLogin || HasIdentity(RemoveAt(db.identities, i), uid)))
  {
    OwnIsFound(db.users, db.identities, i, uid);
    RemovedIsGone(db.users, db.identities, i);
  }
}
