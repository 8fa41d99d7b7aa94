/** What holds of sessions in every reachable state of the account tables. */
module SessionTheorems {
  import opened Common
  import opened AccountRows
  import opened AccountRequests
  import opened AccountSessions

  ghost predicate Reachable(cfg: Config, db: Db) {
    exists requests :: db == Run(cfg, EMPTY_DB, requests)
  }

  lemma ReachableSessions(cfg: Config, db: Db)
    requires Reachable(cfg, db)
    ensures SessionsOk(db)
  {
    var requests :| db == Run(cfg, EMPTY_DB, requests);
    RunIsSound(cfg, EMPTY_DB, requests);
  }

  lemma ReachableStep(cfg: Config, db: Db, r: Request)
    requires Reachable(cfg, db)
    ensures Reachable(cfg, Step(cfg, db, r))
  {
    var requests :| db == Run(cfg, EMPTY_DB, requests);
    assert (requests + [r])[..|requests|] == requests;
    assert Step(cfg, db, r) == Run(cfg, EMPTY_DB, requests + [r]);
  }

  // ----- Families are chains -----

  function CountFamily(tokens: seq<Token>, family: string): nat {
    if tokens == [] then 0
    else CountFamily(tokens[..|tokens| - 1], family) + if tokens[|tokens| - 1].family == family then 1 else 0
  }

  function CountRotated(tokens: seq<Token>, family: string): nat {
    if tokens == [] then 0
    else
      var t := tokens[|tokens| - 1];
      CountRotated(tokens[..|tokens| - 1], family) + if t.family == family && t.reason == Some(Rotated) then 1 else 0
  }

  lemma {:induction false} CountsAgree(tokens: seq<Token>, family: string)
    requires forall i :: 0 <= i < |tokens| && tokens[i].family == family ==> tokens[i].reason == Some(Rotated)
    ensures CountFamily(tokens, family) == CountRotated(tokens, family)
  {
    if tokens != [] { CountsAgree(tokens[..|tokens| - 1], family); }
  }

  lemma {:induction false} CountsDiffer(tokens: seq<Token>, last: nat)
    requires last < |tokens| && LastOf(tokens, last) && tokens[last].reason != Some(Rotated)
    requires forall i :: 0 <= i < last && tokens[i].family == tokens[last].family ==> tokens[i].reason == Some(Rotated)
    ensures CountFamily(tokens, tokens[last].family) == 1 + CountRotated(tokens, tokens[last].family)
  {
    var n := |tokens| - 1;
    if last == n { CountsAgree(tokens[..n], tokens[last].family); }
    else { CountsDiffer(tokens[..n], last); }
  }

  predicate LastOf(tokens: seq<Token>, i: nat)
    requires i < |tokens|
  {
    forall j :: i < j < |tokens| ==> tokens[j].family != tokens[i].family
  }

  lemma LastExists(tokens: seq<Token>, i: nat) returns (k: nat)
    requires i < |tokens|
    ensures i <= k < |tokens| && tokens[k].family == tokens[i].family && LastOf(tokens, k)
    decreases |tokens| - i
  {
    k := i;
    if j :| i < j < |tokens| && tokens[j].family == tokens[i].family { k := LastExists(tokens, j); }
  }

  /** A family is a rotation chain: one user, one device, one token more than its rotations, and at
      most one live token, which is its newest. */
  lemma FamilyIsChain(cfg: Config, db: Db, i: nat)
    requires Reachable(cfg, db) && i < |db.tokens|
    ensures var family := db.tokens[i].family;
      CountFamily(db.tokens, family) == 1 + CountRotated(db.tokens, family)
    ensures forall j :: 0 <= j < |db.tokens| && db.tokens[j].family == db.tokens[i].family ==>
      && db.tokens[j].user == db.tokens[i].user && db.tokens[j].device == db.tokens[i].device
      && (!db.tokens[i].revoked && j != i ==> db.tokens[j].revoked && j < i)
  {
    ReachableSessions(cfg, db);
    var last := LastExists(db.tokens, i);
    assert !HasLater(db.tokens, last);
    CountsDiffer(db.tokens, last);
  }

  /** Every token descends from exactly one issued session, of the same user. */
  lemma FamilyIsBornOnce(cfg: Config, db: Db, i: nat)
    requires Reachable(cfg, db) && i < |db.tokens|
    ensures BornIn(db.log.sessions, db.tokens[i])
    ensures forall j, k :: 0 <= j < k < |db.log.sessions| ==> db.log.sessions[j].family != db.log.sessions[k].family
  {
    ReachableSessions(cfg, db);
  }

  // ----- Replay -----

  lemma DeadForever(cfg: Config, db: Db, family: string, requests: seq<Request>)
    requires SessionsOk(db) && HasFamily(db.tokens, family) && Dead(db.tokens, family)
    ensures Dead(Run(cfg, db, requests).tokens, family)
  {
    RunIsSound(cfg, db, requests);
  }

  lemma HashFinds(tokens: seq<Token>, i: nat)
    requires TokensOk(tokens) && i < |tokens|
    ensures FindToken(tokens, tokens[i].hash) == i
  {
  }

  lemma ReplayRevokes(cfg: Config, db: Db, i: nat, now: Time, random: Random)
    requires SessionsOk(db) && i < |db.tokens| && db.tokens[i].revoked
    ensures var after := Refresh(cfg, db, db.tokens[i].hash, now, random).0;
      HasFamily(after.tokens, db.tokens[i].family) && Dead(after.tokens, db.tokens[i].family)
  {
    HashFinds(db.tokens, i);
    assert Refresh(cfg, db, db.tokens[i].hash, now, random).0.tokens[i].family == db.tokens[i].family;
  }

  lemma ReplayIsFinal(cfg: Config, db: Db, i: nat, now: Time, random: Random, requests: seq<Request>)
    requires SessionsOk(db) && i < |db.tokens| && db.tokens[i].revoked && FreshIn(db, random)
    ensures var after := Refresh(cfg, db, db.tokens[i].hash, now, random).0;
      Dead(Run(cfg, after, requests).tokens, db.tokens[i].family)
  {
    RefreshIsSound(cfg, db, db.tokens[i].hash, now, random);
    ReplayRevokes(cfg, db, i, now, random);
    DeadForever(cfg, Refresh(cfg, db, db.tokens[i].hash, now, random).0, db.tokens[i].family, requests);
  }

  lemma RefreshStep(cfg: Config, db: Db, hash: Digest, now: Time, random: Random)
    requires FreshIn(db, random)
    ensures Step(cfg, db, RefreshToken(hash, now, random)) == Refresh(cfg, db, hash, now, random).0
  {
  }

  /** Presenting any revoked token kills its family, whatever is requested afterwards. */
  lemma ReplayKillsFamily(cfg: Config, db: Db, i: nat, now: Time, random: Random, requests: seq<Request>)
    requires Reachable(cfg, db) && i < |db.tokens| && db.tokens[i].revoked && FreshIn(db, random)
    ensures var after := Step(cfg, db, RefreshToken(db.tokens[i].hash, now, random));
      Dead(Run(cfg, after, requests).tokens, db.tokens[i].family)
  {
    RefreshStep(cfg, db, db.tokens[i].hash, now, random);
    ReplayIsFinal(cfg, db, i, now, random, requests) by { ReachableSessions(cfg, db); }
  }

  // ----- Revocation -----

  /** A token is marked revoked exactly when time and reason are recorded; they are never replaced. */
  lemma RevocationIsPermanent(cfg: Config, db: Db, i: nat, requests: seq<Request>)
    requires Reachable(cfg, db) && i < |db.tokens|
    ensures FlagsOk(db.tokens[i])
    ensures i < |Run(cfg, db, requests).tokens|
    ensures Evolved(db.tokens[i], Run(cfg, db, requests).tokens[i])
  {
    ReachableSessions(cfg, db);
    RunIsSound(cfg, db, requests);
  }

  /** A disabled account has no live token, and none of its tokens ever lives again. */
  lemma DisabledHasNoSession(cfg: Config, db: Db, uid: UserId, i: nat, requests: seq<Request>)
    requires Reachable(cfg, db) && uid in db.users && !db.users[uid].active
    requires i < |db.tokens| && db.tokens[i].user == uid
    ensures var later := Run(cfg, db, requests).tokens;
      i < |later| && later[i].revoked
  {
    ReachableSessions(cfg, db);
    RunIsSound(cfg, db, requests);
  }

  /** Refreshing works exactly for a live, unexpired token; the account's state adds nothing. */
  lemma RefreshExact(cfg: Config, db: Db, hash: Digest, now: Time, random: Random)
    requires Reachable(cfg, db)
    ensures Refresh(cfg, db, hash, now, random).1.Tokens? <==>
      exists i :: 0 <= i < |db.tokens| && db.tokens[i].hash == hash && !db.tokens[i].revoked && now <= db.tokens[i].expiresAt
  {
    ReachableSessions(cfg, db);
    var i := FindToken(db.tokens, hash);
    if i < |db.tokens| { HashFinds(db.tokens, i); }
  }

  /** The successor inherits user, family and device, and only the presented token ends. */
  lemma RefreshRotates(cfg: Config, db: Db, i: nat, now: Time, random: Random)
    requires Reachable(cfg, db) && i < |db.tokens| && !db.tokens[i].revoked && now <= db.tokens[i].expiresAt
    ensures Refresh(cfg, db, db.tokens[i].hash, now, random).1 == Tokens(db.tokens[i].user)
    ensures var (db', t) := (Refresh(cfg, db, db.tokens[i].hash, now, random).0, db.tokens[i]);
      var after := db'.tokens;
      && db' == db.(tokens := after)
      && |after| == |db.tokens| + 1
      && after[|db.tokens|] ==
           Token(t.user, t.family, random.token, t.device, now, now, now + cfg.refreshLifetime, false, None, None)
      && after[i] ==
           Token(t.user, t.family, t.hash, t.device, t.createdAt, now, t.expiresAt, true, Some(now), Some(Rotated))
      && forall k :: 0 <= k < |db.tokens| && k != i ==> after[k] == db.tokens[k]
  {
    ReachableSessions(cfg, db);
    HashFinds(db.tokens, i);
  }
}
