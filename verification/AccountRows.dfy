/** The account tables and the updates that requests make to them.

    Times are microseconds since the epoch. Secrets appear only as the digests that are stored. */
module AccountRows {
  import opened Common

  type UserId = nat
  type Time = nat
  type Digest = string

  datatype User = User(
    username: string,
    email: Option<string>,
    emailVerified: bool,
    active: bool,
    passwordLogin: bool,
    secret: Option<string>,
    enrollmentCreatedAt: Option<Time>,
    mfaEnabledAt: Option<Time>,
    lastCounter: Option<int>)

  datatype Reason =
    | Rotated | ReuseDetected | Logout | UserRevoked | AccountDisabled | PasswordReset
    | IdentityLinked | IdentityUnlinked | RecoveryUsed | RecoveryRegenerated | MfaDisabled

  datatype Token = Token(
    user: UserId, family: string, hash: Digest, device: string,
    createdAt: Time, lastUsedAt: Time, expiresAt: Time,
    revoked: bool, revokedAt: Option<Time>, reason: Option<Reason>)

  datatype Purpose = MfaLogin | OidcMfaLogin | ResetPassword

  datatype ActionToken = ActionToken(
    user: UserId, purpose: Purpose, hash: Digest, target: string, expiresAt: Time, consumedAt: Option<Time>)

  datatype RecoveryCode = RecoveryCode(user: UserId, hash: Digest, usedAt: Option<Time>)

  datatype Identity = Identity(id: nat, user: UserId, issuer: string, subject: string)

  datatype Intent = ToLogin | ToLink(user: UserId)

  datatype Transaction = Transaction(intent: Intent, device: string, expiresAt: Time, consumedAt: Option<Time>)

  // ----- History, which the program does not keep -----

  datatype Factor = Counter(epoch: nat, counter: int) | Recovery(code: Digest)

  datatype Proof = PrimaryOnly | SecondFactor(challenge: Digest, factor: Factor)

  /** A session family as it was born; `mfaOn` tells whether the user then had MFA enabled. */
  datatype Session = Session(user: UserId, family: string, mfaOn: bool, proof: Proof)

  /** A TOTP code accepted in time step `step`. */
  datatype Accepted = Accepted(user: UserId, epoch: nat, counter: int, step: int)

  datatype Log = Log(
    sessions: seq<Session>,
    accepted: seq<Accepted>,
    epochs: map<UserId, nat>,       // how often MFA enrolment was begun or ended
    issuedCodes: set<Digest>,
    completed: seq<Digest>)         // OIDC transactions that led to a committed result

  datatype Db = Db(
    users: map<UserId, User>,
    tokens: seq<Token>,
    actions: seq<ActionToken>,
    codes: seq<RecoveryCode>,
    identities: seq<Identity>,
    transactions: map<Digest, Transaction>,
    log: Log)

  const EMPTY_DB := Db(map[], [], [], [], [], map[], Log([], [], map[], {}, []))

  // ----- Refresh tokens -----

  datatype Selector = OfFamily(family: string) | OfUser(user: UserId) | OfUserFamily(user: UserId, family: string)

  predicate Selected(sel: Selector, t: Token) {
    match sel
    case OfFamily(family) => t.family == family
    case OfUser(user) => t.user == user
    case OfUserFamily(user, family) => t.user == user && t.family == family
  }

  function RevokeToken(t: Token, reason: Reason, at: Time): Token {
    t.(revoked := true, revokedAt := Some(at), reason := Some(reason))
  }

  /** The conditional bulk update shared by every revocation: only live rows are touched. */
  function Revoke(tokens: seq<Token>, sel: Selector, reason: Reason, at: Time): (r: seq<Token>)
    ensures |r| == |tokens|
    ensures forall i :: 0 <= i < |tokens| ==>
      r[i] == if Selected(sel, tokens[i]) && !tokens[i].revoked then RevokeToken(tokens[i], reason, at) else tokens[i]
  {
    seq(|tokens|, i requires 0 <= i < |tokens| =>
      if Selected(sel, tokens[i]) && !tokens[i].revoked then RevokeToken(tokens[i], reason, at) else tokens[i])
  }

  function NewToken(user: UserId, family: string, hash: Digest, device: string, now: Time, lifetime: nat): Token {
    Token(user, family, hash, device, now, now, now + lifetime, false, None, None)
  }

  /** The position of the row with a unique column value, or the length if there is none. */
  function FindToken(tokens: seq<Token>, hash: Digest): (i: nat)
    ensures i <= |tokens|
    ensures i < |tokens| ==> tokens[i].hash == hash
    ensures forall k :: 0 <= k < i ==> tokens[k].hash != hash
  {
    if tokens == [] then 0
    else if tokens[0].hash == hash then 0
    else 1 + FindToken(tokens[1..], hash)
  }

  // ----- Action tokens -----

  predicate LoginPurpose(p: Purpose) {
    p.MfaLogin? || p.OidcMfaLogin?
  }

  predicate SameUse(p: Purpose, q: Purpose) {
    LoginPurpose(p) <==> LoginPurpose(q)
  }

  /** Marks the user's open tokens of one use as consumed: both login purposes count as one use. */
  function Consume(actions: seq<ActionToken>, user: UserId, purpose: Purpose, at: Time): (r: seq<ActionToken>)
    ensures |r| == |actions|
    ensures forall i :: 0 <= i < |actions| ==>
      r[i] == if actions[i].user == user && SameUse(actions[i].purpose, purpose) && actions[i].consumedAt.None?
              then actions[i].(consumedAt := Some(at)) else actions[i]
  {
    seq(|actions|, i requires 0 <= i < |actions| =>
      if actions[i].user == user && SameUse(actions[i].purpose, purpose) && actions[i].consumedAt.None?
      then actions[i].(consumedAt := Some(at)) else actions[i])
  }

  function FindAction(actions: seq<ActionToken>, hash: Digest, purpose: Purpose): (i: nat)
    ensures i <= |actions|
    ensures i < |actions| ==> actions[i].hash == hash && SameUse(actions[i].purpose, purpose)
    ensures forall k :: 0 <= k < i ==> !(actions[k].hash == hash && SameUse(actions[k].purpose, purpose))
  {
    if actions == [] then 0
    else if actions[0].hash == hash && SameUse(actions[0].purpose, purpose) then 0
    else 1 + FindAction(actions[1..], hash, purpose)
  }

  // ----- Recovery codes -----

  function FindCode(codes: seq<RecoveryCode>, user: UserId, hash: Digest): (i: nat)
    ensures i <= |codes|
    ensures i < |codes| ==> codes[i].user == user && codes[i].hash == hash && codes[i].usedAt.None?
    ensures forall k :: 0 <= k < i ==> !(codes[k].user == user && codes[k].hash == hash && codes[k].usedAt.None?)
  {
    if codes == [] then 0
    else if codes[0].user == user && codes[0].hash == hash && codes[0].usedAt.None? then 0
    else 1 + FindCode(codes[1..], user, hash)
  }

  function DeleteCodes(codes: seq<RecoveryCode>, user: UserId): seq<RecoveryCode> {
    if codes == [] then []
    else if codes[0].user == user then DeleteCodes(codes[1..], user)
    else [codes[0]] + DeleteCodes(codes[1..], user)
  }

  function NewCodes(user: UserId, hashes: seq<Digest>): (r: seq<RecoveryCode>)
    ensures |r| == |hashes|
    ensures forall i :: 0 <= i < |hashes| ==> r[i] == RecoveryCode(user, hashes[i], None)
  {
    seq(|hashes|, i requires 0 <= i < |hashes| => RecoveryCode(user, hashes[i], None))
  }

  // ----- Looking up users and identities by unique columns -----

  predicate UsernameTaken(users: map<UserId, User>, username: string) {
    exists u :: u in users && users[u].username == username
  }

  predicate EmailTaken(users: map<UserId, User>, email: Option<string>) {
    email.Some? && exists u :: u in users && users[u].email == email
  }

  function FindSubject(identities: seq<Identity>, issuer: string, subject: string): (i: nat)
    ensures i <= |identities|
    ensures i < |identities| ==> identities[i].issuer == issuer && identities[i].subject == subject
    ensures forall k :: 0 <= k < i ==> !(identities[k].issuer == issuer && identities[k].subject == subject)
  {
    if identities == [] then 0
    else if identities[0].issuer == issuer && identities[0].subject == subject then 0
    else 1 + FindSubject(identities[1..], issuer, subject)
  }

  predicate HasIssuer(identities: seq<Identity>, user: UserId, issuer: string) {
    exists i :: 0 <= i < |identities| && identities[i].user == user && identities[i].issuer == issuer
  }

  function FindOwn(identities: seq<Identity>, id: nat, user: UserId): (i: nat)
    ensures i <= |identities|
    ensures i < |identities| ==> identities[i].id == id && identities[i].user == user
    ensures forall k :: 0 <= k < i ==> !(identities[k].id == id && identities[k].user == user)
  {
    if identities == [] then 0
    else if identities[0].id == id && identities[0].user == user then 0
    else 1 + FindOwn(identities[1..], id, user)
  }

  function CountOwn(identities: seq<Identity>, user: UserId): nat {
    if identities == [] then 0
    else CountOwn(identities[..|identities| - 1], user) + if identities[|identities| - 1].user == user then 1 else 0
  }

  function RemoveAt<T>(s: seq<T>, i: nat): seq<T>
    requires i < |s|
  {
    s[..i] + s[i + 1..]
  }
}
