/** What one request does to the account tables. Each request is one transaction that reads the clock
    once; a request that fails leaves the tables as they were, except where it commits first. */
module AccountRequests {
  import opened Common
  import opened AccountRows

  /** `otp` is the TOTP generator for 30-second steps and `codeHash` the digest of a normalised
      recovery code, absent when the code cannot be encoded. */
  datatype Config = Config(
    otp: (string, int) -> string,
    codeHash: string -> Option<Digest>,
    mfaAvailable: bool,
    refreshLifetime: nat,
    challengeLifetime: nat,
    enrollmentLifetime: nat,
    transactionLifetime: nat)

  /** The random values a request draws; they do not repeat. */
  datatype Random = Random(family: string, token: Digest, challenge: Digest)

  datatype Response = Ok | Tokens(user: UserId) | Challenge(challenge: Digest) | Error(status: nat)

  type Reply = (Db, Response)

  function Fail(db: Db, status: nat): Reply {
    (db, Error(status))
  }

  // ----- Issuing sessions and challenges -----

  /** The only place where a session family is born. */
  function PrepareSession(
    cfg: Config, db: Db, uid: UserId, device: string, proof: Proof, now: Time, random: Random): Reply
  {
    if uid !in db.users || !db.users[uid].active then Fail(db, 401)
    else
      (db.(tokens := db.tokens + [NewToken(uid, random.family, random.token, device, now, cfg.refreshLifetime)],
           log := db.log.(sessions := db.log.sessions +
             [Session(uid, random.family, db.users[uid].mfaEnabledAt.Some?, proof)])),
       Tokens(uid))
  }

  function PrepareChallenge(
    cfg: Config, db: Db, uid: UserId, purpose: Purpose, device: string, now: Time, random: Random): Reply
  {
    if !cfg.mfaAvailable then Fail(db, 503)
    else
      (db.(actions := Consume(db.actions, uid, purpose, now) +
             [ActionToken(uid, purpose, random.challenge, device, now + cfg.challengeLifetime, None)]),
       Challenge(random.challenge))
  }

  /** After the first factor: a challenge when MFA is on, a session otherwise. */
  function FinishPrimary(
    cfg: Config, db: Db, uid: UserId, purpose: Purpose, device: string, now: Time, random: Random): Reply
    requires uid in db.users
  {
    if db.users[uid].mfaEnabledAt.Some? then PrepareChallenge(cfg, db, uid, purpose, device, now, random)
    else PrepareSession(cfg, db, uid, device, PrimaryOnly, now, random)
  }

  // ----- Registration, password login, administration -----

  function RegisterUser(db: Db, uid: UserId, username: string, email: Option<string>): Reply {
    if UsernameTaken(db.users, username) || EmailTaken(db.users, email) then Fail(db, 409)
    else (db.(users := db.users[uid := User(username, email, false, true, true, None, None, None, None)]), Ok)
  }

  function LogIn(cfg: Config, db: Db, uid: UserId, passwordOk: bool, device: string, now: Time, random: Random): Reply {
    if uid !in db.users || !db.users[uid].active then Fail(db, 401)
    else if !db.users[uid].passwordLogin || !passwordOk then Fail(db, 401)
    else FinishPrimary(cfg, db, uid, MfaLogin, device, now, random)
  }

  /** Disabling revokes every session in the same commit; enabling brings none back. */
  function SetStatus(db: Db, uid: UserId, active: bool, now: Time): Reply {
    if uid !in db.users then Fail(db, 404)
    else
      var users := db.users[uid := db.users[uid].(active := active)];
      if active then (db.(users := users), Ok)
      else (db.(users := users, tokens := Revoke(db.tokens, OfUser(uid), AccountDisabled, now)), Ok)
  }

  // ----- Refresh tokens -----

  /** Rotation revokes the presented token and appends its successor. */
  function Rotate(cfg: Config, tokens: seq<Token>, i: nat, now: Time, hash: Digest): seq<Token>
    requires i < |tokens|
  {
    var t := tokens[i];
    tokens[i := RevokeToken(t, Rotated, now).(lastUsedAt := now)] +
    [NewToken(t.user, t.family, hash, t.device, now, cfg.refreshLifetime)]
  }

  /** Presenting a revoked token revokes what is left of its family. */
  function Refresh(cfg: Config, db: Db, hash: Digest, now: Time, random: Random): Reply {
    var i := FindToken(db.tokens, hash);
    if i == |db.tokens| then Fail(db, 401)
    else
      var t := db.tokens[i];
      if t.revoked then Fail(db.(tokens := Revoke(db.tokens, OfFamily(t.family), ReuseDetected, now)), 401)
      else if t.expiresAt < now then Fail(db, 401)
      else if t.user !in db.users then Fail(db, 401)
      else if !db.users[t.user].active then
        Fail(db.(tokens := Revoke(db.tokens, OfUser(t.user), AccountDisabled, now)), 401)
      else (db.(tokens := Rotate(cfg, db.tokens, i, now, random.token)), Tokens(t.user))
  }

  function LogOut(db: Db, hash: Digest, now: Time): Reply {
    var i := FindToken(db.tokens, hash);
    if i == |db.tokens| then Fail(db, 401)
    else (db.(tokens := Revoke(db.tokens, OfFamily(db.tokens[i].family), Logout, now)), Ok)
  }

  function RevokeSessions(db: Db, uid: UserId, family: Option<string>, now: Time): Reply {
    var sel := if family.Some? then OfUserFamily(uid, family.value) else OfUser(uid);
    (db.(tokens := Revoke(db.tokens, sel, UserRevoked, now)), Ok)
  }

  // ----- Password reset -----

  /** `lifetime` is the configured validity of the token. An unknown address gets the same answer. */
  function RequestReset(db: Db, uid: UserId, lifetime: nat, now: Time, random: Random): Reply {
    if uid !in db.users || !db.users[uid].active || !db.users[uid].emailVerified || db.users[uid].email.None?
    then (db, Ok)
    else
      (db.(actions := Consume(db.actions, uid, ResetPassword, now) +
             [ActionToken(uid, ResetPassword, random.challenge, db.users[uid].email.value, now + lifetime, None)]),
       Ok)
  }

  function ConfirmReset(db: Db, hash: Digest, now: Time): Reply {
    var i := FindAction(db.actions, hash, ResetPassword);
    if i == |db.actions| || db.actions[i].consumedAt.Some? || db.actions[i].expiresAt <= now then Fail(db, 400)
    else
      var a := db.actions[i];
      if a.user !in db.users || !db.users[a.user].active || !db.users[a.user].emailVerified ||
         db.users[a.user].email != Some(a.target)
      then Fail(db, 400)
      else
        (db.(users := db.users[a.user := db.users[a.user].(passwordLogin := true)],
             actions := Consume(db.actions, a.user, ResetPassword, now),
             tokens := Revoke(db.tokens, OfUser(a.user), PasswordReset, now)),
         Ok)
  }

  // ----- TOTP -----

  const SECOND: nat := 1_000_000

  function TimeStep(now: Time): int {
    (now / SECOND) / 30
  }

  predicate SixDigits(code: string) {
    |code| == 6 && forall i :: 0 <= i < 6 ==> '0' <= code[i] <= '9'
  }

  datatype Match = Unavailable | NoMatch | Matched(counter: int)

  /** The first of the three counters around the current step that produces the code. */
  function FirstProducing(cfg: Config, secret: string, code: string, step: int): Option<int> {
    if cfg.otp(secret, step - 1) == code then Some(step - 1)
    else if cfg.otp(secret, step) == code then Some(step)
    else if cfg.otp(secret, step + 1) == code then Some(step + 1)
    else None
  }

  function MatchTotp(cfg: Config, user: User, code: string, now: Time): Match {
    if !SixDigits(code) || user.secret.None? then NoMatch
    else if !cfg.mfaAvailable then Unavailable
    else
      match FirstProducing(cfg, user.secret.value, code, TimeStep(now))
      case None => NoMatch
      case Some(counter) =>
        if user.lastCounter.Some? && counter <= user.lastCounter.value then NoMatch else Matched(counter)
  }

  function EpochOf(log: Log, uid: UserId): nat {
    if uid in log.epochs then log.epochs[uid] else 0
  }

  function BumpEpoch(log: Log, uid: UserId): Log {
    log.(epochs := log.epochs[uid := EpochOf(log, uid) + 1])
  }

  function Accept(log: Log, uid: UserId, counter: int, now: Time): Log {
    log.(accepted := log.accepted + [Accepted(uid, EpochOf(log, uid), counter, TimeStep(now))])
  }

  predicate Locked(db: Db, uid: UserId) {
    uid in db.users && db.users[uid].active
  }

  function BeginEnrollment(cfg: Config, db: Db, uid: UserId, passwordOk: bool, secret: string, now: Time): Reply {
    if !cfg.mfaAvailable then Fail(db, 503)
    else if !Locked(db, uid) || !passwordOk then Fail(db, 401)
    else if db.users[uid].mfaEnabledAt.Some? then Fail(db, 409)
    else
      var user := db.users[uid].(secret := Some(secret), enrollmentCreatedAt := Some(now), lastCounter := None);
      (db.(users := db.users[uid := user], codes := DeleteCodes(db.codes, uid), log := BumpEpoch(db.log, uid)), Ok)
  }

  function ReplaceCodes(db: Db, uid: UserId, hashes: seq<Digest>): Db {
    db.(codes := DeleteCodes(db.codes, uid) + NewCodes(uid, hashes),
        log := db.log.(issuedCodes := db.log.issuedCodes + Elements(hashes)))
  }

  function ConfirmEnrollment(cfg: Config, db: Db, uid: UserId, code: string, now: Time, hashes: seq<Digest>): Reply {
    if !Locked(db, uid) then Fail(db, 401)
    else
      var user := db.users[uid];
      if user.mfaEnabledAt.Some? || user.enrollmentCreatedAt.None? ||
         user.enrollmentCreatedAt.value + cfg.enrollmentLifetime <= now
      then Fail(db, 400)
      else
        match MatchTotp(cfg, user, code, now)
        case Unavailable => Fail(db, 503)
        case NoMatch => Fail(db, 400)
        case Matched(counter) =>
          var enabled := user.(mfaEnabledAt := Some(now), enrollmentCreatedAt := None, lastCounter := Some(counter));
          var db1 := ReplaceCodes(db, uid, hashes);
          (db1.(users := db.users[uid := enabled], log := Accept(db1.log, uid, counter, now)), Ok)
  }

  function RegenerateCodes(
    cfg: Config, db: Db, uid: UserId, passwordOk: bool, code: string, now: Time, hashes: seq<Digest>): Reply
  {
    if !Locked(db, uid) || !passwordOk then Fail(db, 401)
    else if db.users[uid].mfaEnabledAt.None? then Fail(db, 400)
    else
      match MatchTotp(cfg, db.users[uid], code, now)
      case Unavailable => Fail(db, 503)
      case NoMatch => Fail(db, 400)
      case Matched(counter) =>
        var db1 := ReplaceCodes(db, uid, hashes);
        (db1.(users := db.users[uid := db.users[uid].(lastCounter := Some(counter))],
              tokens := Revoke(db.tokens, OfUser(uid), RecoveryRegenerated, now),
              log := Accept(db1.log, uid, counter, now)),
         Ok)
  }

  /** An unused recovery code of the user, as a position, or the number of codes. */
  function UsableCode(cfg: Config, db: Db, uid: UserId, code: string): (i: nat)
    ensures i <= |db.codes|
  {
    var hash := cfg.codeHash(code);
    if hash.None? then |db.codes| else FindCode(db.codes, uid, hash.value)
  }

  function SwitchOff(db: Db, uid: UserId, now: Time): Db
    requires uid in db.users
  {
    var user := db.users[uid].(secret := None, enrollmentCreatedAt := None, mfaEnabledAt := None, lastCounter := None);
    db.(users := db.users[uid := user], codes := DeleteCodes(db.codes, uid),
        tokens := Revoke(db.tokens, OfUser(uid), MfaDisabled, now), log := BumpEpoch(db.log, uid))
  }

  function DisableMfa(cfg: Config, db: Db, uid: UserId, passwordOk: bool, code: string, now: Time): Reply {
    if !Locked(db, uid) || !passwordOk then Fail(db, 401)
    else if db.users[uid].mfaEnabledAt.None? then Fail(db, 400)
    else
      match MatchTotp(cfg, db.users[uid], code, now)
      case Unavailable => Fail(db, 503)
      case Matched(counter) => (SwitchOff(db.(log := Accept(db.log, uid, counter, now)), uid, now), Ok)
      case NoMatch =>
        if UsableCode(cfg, db, uid, code) == |db.codes| then Fail(db, 400) else (SwitchOff(db, uid, now), Ok)
  }

  /** The second step of a login: consumes the challenge together with a TOTP counter or a recovery
      code, and only then issues a session. */
  function VerifyChallenge(cfg: Config, db: Db, hash: Digest, code: string, now: Time, random: Random): Reply {
    var i := FindAction(db.actions, hash, MfaLogin);
    if !cfg.mfaAvailable then Fail(db, 503)
    else if i == |db.actions| || db.actions[i].consumedAt.Some? || db.actions[i].expiresAt <= now then Fail(db, 400)
    else
      var a := db.actions[i];
      if !Locked(db, a.user) then Fail(db, 401)
      else if db.users[a.user].mfaEnabledAt.None? then Fail(db, 400)
      else
        match MatchTotp(cfg, db.users[a.user], code, now)
        case Unavailable => Fail(db, 503)
        case Matched(counter) =>
          PrepareSession(cfg, UseCounter(db, i, counter, now), a.user, a.target,
            SecondFactor(hash, Counter(EpochOf(db.log, a.user), counter)), now, random)
        case NoMatch =>
          var j := UsableCode(cfg, db, a.user, code);
          if j == |db.codes| then Fail(db, 400)
          else
            PrepareSession(cfg, UseCode(db, i, j, now), a.user, a.target,
              SecondFactor(hash, Recovery(db.codes[j].hash)), now, random)
  }

  function UseCounter(db: Db, i: nat, counter: int, now: Time): Db
    requires i < |db.actions| && db.actions[i].user in db.users
  {
    var uid := db.actions[i].user;
    db.(actions := db.actions[i := db.actions[i].(consumedAt := Some(now))],
        users := db.users[uid := db.users[uid].(lastCounter := Some(counter))],
        log := Accept(db.log, uid, counter, now))
  }

  function UseCode(db: Db, i: nat, j: nat, now: Time): Db
    requires i < |db.actions| && j < |db.codes|
  {
    db.(actions := db.actions[i := db.actions[i].(consumedAt := Some(now))],
        codes := db.codes[j := db.codes[j].(usedAt := Some(now))],
        tokens := Revoke(db.tokens, OfUser(db.actions[i].user), RecoveryUsed, now))
  }

  // ----- External identities -----

  function BeginOidc(cfg: Config, db: Db, state: Digest, intent: Intent, device: string, now: Time): Reply {
    (db.(transactions := db.transactions[state := Transaction(intent, device, now + cfg.transactionLifetime, None)]), Ok)
  }

  /** What the provider vouches for; `email` is present only when verified. */
  datatype Claims = Claims(issuer: string, subject: string, email: Option<string>)

  datatype NewIds = NewIds(user: UserId, identity: nat, username: string)

  function NewIdentity(claims: Claims, ids: NewIds, user: UserId): Identity {
    Identity(ids.identity, user, claims.issuer, claims.subject)
  }

  /** An account without password login, for an identity that nobody has. */
  function AddAccount(db: Db, claims: Claims, ids: NewIds): Db {
    db.(users := db.users[ids.user := User(ids.username, claims.email, true, true, false, None, None, None, None)],
        identities := db.identities + [NewIdentity(claims, ids, ids.user)])
  }

  /** The transaction leads to a result. */
  function UseTransaction(db: Db, state: Digest, now: Time): Db
    requires state in db.transactions
  {
    db.(transactions := db.transactions[state := db.transactions[state].(consumedAt := Some(now))],
        log := db.log.(completed := db.log.completed + [state]))
  }

  /** Signing in with a known identity, or with a new one on a new account. */
  function OidcLogin(
    cfg: Config, db: Db, claims: Claims, device: string, now: Time, ids: NewIds, random: Random): Reply
  {
    var i := FindSubject(db.identities, claims.issuer, claims.subject);
    if i < |db.identities| then
      var uid := db.identities[i].user;
      if !Locked(db, uid) then Fail(db, 401) else FinishPrimary(cfg, db, uid, OidcMfaLogin, device, now, random)
    else if claims.email.None? then Fail(db, 403)
    else if EmailTaken(db.users, claims.email) then Fail(db, 409)
    else
      var db1 := AddAccount(db, claims, ids);
      FinishPrimary(cfg, db1, ids.user, OidcMfaLogin, device, now, random)
  }

  function OidcLink(db: Db, uid: UserId, claims: Claims, now: Time, ids: NewIds): Reply {
    var i := FindSubject(db.identities, claims.issuer, claims.subject);
    if !Locked(db, uid) then Fail(db, 401)
    else if i < |db.identities| then (if db.identities[i].user != uid then Fail(db, 409) else (db, Ok))
    else if HasIssuer(db.identities, uid, claims.issuer) then Fail(db, 409)
    else
      (db.(identities := db.identities + [NewIdentity(claims, ids, uid)],
           tokens := Revoke(db.tokens, OfUser(uid), IdentityLinked, now)),
       Ok)
  }

  /** `provider` is what the exchange with the provider yields, if it succeeds and the nonce is
      right; `bound` tells whether issuer, redirect and browser are those of the transaction. */
  function CompleteOidc(
    cfg: Config, db: Db, state: Digest, bound: bool, provider: Option<Claims>, now: Time, ids: NewIds, random: Random)
    : Reply
  {
    if state !in db.transactions || db.transactions[state].consumedAt.Some? ||
       db.transactions[state].expiresAt <= now || !bound || provider.None?
    then Fail(db, 400)
    else
      var t := db.transactions[state];
      var used := UseTransaction(db, state, now);
      var reply := match t.intent
        case ToLink(uid) => OidcLink(used, uid, provider.value, now, ids)
        case ToLogin => OidcLogin(cfg, used, provider.value, t.device, now, ids, random);
      if reply.1.Error? then Fail(db, reply.1.status) else reply
  }

  function Unlink(db: Db, id: nat, uid: UserId, now: Time): Reply {
    var i := FindOwn(db.identities, id, uid);
    if i == |db.identities| then (db, Ok)
    else if uid !in db.users || (!db.users[uid].passwordLogin && CountOwn(db.identities, uid) <= 1) then Fail(db, 409)
    else
      (db.(identities := RemoveAt(db.identities, i), tokens := Revoke(db.tokens, OfUser(uid), IdentityUnlinked, now)),
       Ok)
  }

  // ----- Requests -----

  datatype Request =
    | Register(uid: UserId, username: string, email: Option<string>)
    | PasswordLogin(uid: UserId, passwordOk: bool, device: string, now: Time, random: Random)
    | StatusChange(uid: UserId, active: bool, now: Time)
    | EmailVerified(uid: UserId)
    | RefreshToken(hash: Digest, now: Time, random: Random)
    | LogoutToken(hash: Digest, now: Time)
    | RevokeUserSessions(uid: UserId, family: Option<string>, now: Time)
    | ResetRequest(uid: UserId, lifetime: nat, now: Time, random: Random)
    | ResetConfirm(hash: Digest, now: Time)
    | EnrollmentBegin(uid: UserId, passwordOk: bool, secret: string, now: Time)
    | EnrollmentConfirm(uid: UserId, code: string, now: Time, hashes: seq<Digest>)
    | CodesRegenerate(uid: UserId, passwordOk: bool, code: string, now: Time, hashes: seq<Digest>)
    | MfaDisable(uid: UserId, passwordOk: bool, code: string, now: Time)
    | ChallengeVerify(hash: Digest, code: string, now: Time, random: Random)
    | OidcBegin(state: Digest, intent: Intent, device: string, now: Time)
    | OidcComplete(state: Digest, bound: bool, provider: Option<Claims>, now: Time, ids: NewIds, random: Random)
    | IdentityUnlink(id: nat, uid: UserId, now: Time)

  function Serve(cfg: Config, db: Db, r: Request): Reply {
    match r
    case Register(uid, username, email) => RegisterUser(db, uid, username, email)
    case PasswordLogin(uid, passwordOk, device, now, random) => LogIn(cfg, db, uid, passwordOk, device, now, random)
    case StatusChange(uid, active, now) => SetStatus(db, uid, active, now)
    case EmailVerified(uid) =>
      if uid !in db.users then Fail(db, 400)
      else (db.(users := db.users[uid := db.users[uid].(emailVerified := true)]), Ok)
    case RefreshToken(hash, now, random) => Refresh(cfg, db, hash, now, random)
    case LogoutToken(hash, now) => LogOut(db, hash, now)
    case RevokeUserSessions(uid, family, now) => RevokeSessions(db, uid, family, now)
    case ResetRequest(uid, lifetime, now, random) => RequestReset(db, uid, lifetime, now, random)
    case ResetConfirm(hash, now) => ConfirmReset(db, hash, now)
    case EnrollmentBegin(uid, passwordOk, secret, now) => BeginEnrollment(cfg, db, uid, passwordOk, secret, now)
    case EnrollmentConfirm(uid, code, now, hashes) => ConfirmEnrollment(cfg, db, uid, code, now, hashes)
    case CodesRegenerate(uid, passwordOk, code, now, hashes) =>
      RegenerateCodes(cfg, db, uid, passwordOk, code, now, hashes)
    case MfaDisable(uid, passwordOk, code, now) => DisableMfa(cfg, db, uid, passwordOk, code, now)
    case ChallengeVerify(hash, code, now, random) => VerifyChallenge(cfg, db, hash, code, now, random)
    case OidcBegin(state, intent, device, now) => BeginOidc(cfg, db, state, intent, device, now)
    case OidcComplete(state, bound, provider, now, ids, random) =>
      CompleteOidc(cfg, db, state, bound, provider, now, ids, random)
    case IdentityUnlink(id, uid, now) => Unlink(db, id, uid, now)
  }

  // ----- Runs -----

  predicate FreshIn(db: Db, random: Random) {
    && (forall t :: t in db.tokens ==> t.family != random.family && t.hash != random.token)
    && (forall s :: s in db.log.sessions ==> s.family != random.family)
    && (forall a :: a in db.actions ==> a.hash != random.challenge)
  }

  predicate FreshIds(db: Db, ids: NewIds) {
    && ids.user !in db.users && !UsernameTaken(db.users, ids.username)
    && (forall i :: i in db.identities ==> i.id != ids.identity)
  }

  predicate FreshCodes(db: Db, hashes: seq<Digest>) {
    Distinct(hashes) && forall h :: h in hashes ==> h !in db.log.issuedCodes
  }

  /** Random values and new row ids are new; nothing else restricts a request. */
  predicate Enabled(db: Db, r: Request) {
    match r
    case Register(uid, _, _) => uid !in db.users
    case PasswordLogin(_, _, _, _, random) => FreshIn(db, random)
    case RefreshToken(_, _, random) => FreshIn(db, random)
    case ResetRequest(_, _, _, random) => FreshIn(db, random)
    case ChallengeVerify(_, _, _, random) => FreshIn(db, random)
    case EnrollmentConfirm(_, _, _, hashes) => FreshCodes(db, hashes)
    case CodesRegenerate(_, _, _, _, hashes) => FreshCodes(db, hashes)
    case OidcBegin(state, _, _, _) => state !in db.transactions
    case OidcComplete(_, _, _, _, ids, random) => FreshIn(db, random) && FreshIds(db, ids)
    case _ => true
  }

  function Step(cfg: Config, db: Db, r: Request): Db {
    if Enabled(db, r) then Serve(cfg, db, r).0 else db
  }

  function Run(cfg: Config, db: Db, requests: seq<Request>): Db {
    if requests == [] then db
    else Step(cfg, Run(cfg, db, requests[..|requests| - 1]), requests[|requests| - 1])
  }
}
