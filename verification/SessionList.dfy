/** Listing a user's devices: group the tokens by family, keep the families with a usable token, and
    sort them by last use. */
module SessionList {
  import opened Common
  import opened AccountRows
  import opened AccountRequests
  import opened AccountSessions
  import opened SessionTheorems

  datatype DeviceSession = DeviceSession(
    id: string, device: string, createdAt: Time, lastUsedAt: Time, expiresAt: Time)

  predicate Usable(t: Token, now: Time) {
    !t.revoked && t.expiresAt > now
  }

  function InFamily(records: seq<Token>, family: string): seq<Token> {
    if records == [] then []
    else
      var t := records[|records| - 1];
      InFamily(records[..|records| - 1], family) + if t.family == family then [t] else []
  }

  function UsableOf(records: seq<Token>, now: Time): seq<Token> {
    if records == [] then []
    else
      var t := records[|records| - 1];
      UsableOf(records[..|records| - 1], now) + if Usable(t, now) then [t] else []
  }

  lemma {:induction false} InFamilyMembers(records: seq<Token>, family: string)
    ensures forall t :: t in InFamily(records, family) <==> t in records && t.family == family
  {
    if records != [] { InFamilyMembers(records[..|records| - 1], family); }
  }

  lemma {:induction false} UsableMembers(records: seq<Token>, now: Time)
    ensures forall t :: t in UsableOf(records, now) <==> t in records && Usable(t, now)
  {
    if records != [] { UsableMembers(records[..|records| - 1], now); }
  }

  predicate HasUsable(records: seq<Token>, family: string, now: Time) {
    exists t :: t in records && t.family == family && Usable(t, now)
  }

  /** What is reported of a family: the device of a most recently used usable token, the earliest
      creation and latest use over all of the family, and the latest expiry of a usable token. */
  ghost predicate Describes(s: DeviceSession, records: seq<Token>, now: Time) {
    && (exists t :: t in records && t.family == s.id && Usable(t, now) && t.device == s.device &&
          forall u :: u in records && u.family == s.id && Usable(u, now) ==> u.lastUsedAt <= t.lastUsedAt)
    && (exists t :: t in records && t.family == s.id && t.createdAt == s.createdAt)
    && (exists t :: t in records && t.family == s.id && t.lastUsedAt == s.lastUsedAt)
    && (exists t :: t in records && t.family == s.id && Usable(t, now) && t.expiresAt == s.expiresAt)
    && (forall t :: t in records && t.family == s.id ==> s.createdAt <= t.createdAt && t.lastUsedAt <= s.lastUsedAt)
    && (forall t :: t in records && t.family == s.id && Usable(t, now) ==> t.expiresAt <= s.expiresAt)
  }

  method Summarize(family: string, records: seq<Token>, active: seq<Token>) returns (s: DeviceSession)
    requires records != [] && active != []
    ensures s.id == family
    ensures exists t :: t in active && t.device == s.device && forall u :: u in active ==> u.lastUsedAt <= t.lastUsedAt
    ensures exists t :: t in records && t.createdAt == s.createdAt
    ensures exists t :: t in records && t.lastUsedAt == s.lastUsedAt
    ensures exists t :: t in active && t.expiresAt == s.expiresAt
    ensures forall t :: t in records ==> s.createdAt <= t.createdAt && t.lastUsedAt <= s.lastUsedAt
    ensures forall t :: t in active ==> t.expiresAt <= s.expiresAt
  {
    var current, expiresAt := active[0], active[0].expiresAt;
    for i := 1 to |active|
      invariant current in active && forall k :: 0 <= k < i ==> active[k].lastUsedAt <= current.lastUsedAt
      invariant exists t :: t in active && t.expiresAt == expiresAt
      invariant forall k :: 0 <= k < i ==> active[k].expiresAt <= expiresAt
    {
      if active[i].lastUsedAt > current.lastUsedAt { current := active[i]; }
      if active[i].expiresAt > expiresAt { expiresAt := active[i].expiresAt; }
    }
    var createdAt, lastUsedAt := records[0].createdAt, records[0].lastUsedAt;
    for i := 1 to |records|
      invariant exists t :: t in records && t.createdAt == createdAt
      invariant exists t :: t in records && t.lastUsedAt == lastUsedAt
      invariant forall k :: 0 <= k < i ==> createdAt <= records[k].createdAt && records[k].lastUsedAt <= lastUsedAt
    {
      if records[i].createdAt < createdAt { createdAt := records[i].createdAt; }
      if records[i].lastUsedAt > lastUsedAt { lastUsedAt := records[i].lastUsedAt; }
    }
    s := DeviceSession(family, current.device, createdAt, lastUsedAt, expiresAt);
  }

  // ----- Sorting by last use, latest first -----

  predicate LatestFirst(s: seq<DeviceSession>) {
    forall i, j :: 0 <= i < j < |s| ==> s[i].lastUsedAt >= s[j].lastUsedAt
  }

  function Insert(s: seq<DeviceSession>, x: DeviceSession): seq<DeviceSession> {
    if s == [] then [x]
    else if s[|s| - 1].lastUsedAt >= x.lastUsedAt then s + [x]
    else Insert(s[..|s| - 1], x) + [s[|s| - 1]]
  }

  lemma {:induction false} InsertMembers(s: seq<DeviceSession>, x: DeviceSession)
    ensures multiset(Insert(s, x)) == multiset(s) + multiset{x}
  {
    if s != [] && s[|s| - 1].lastUsedAt < x.lastUsedAt {
      InsertMembers(s[..|s| - 1], x);
      assert s == s[..|s| - 1] + [s[|s| - 1]];
    }
  }

  lemma {:induction false} InsertSorts(s: seq<DeviceSession>, x: DeviceSession)
    requires LatestFirst(s)
    ensures LatestFirst(Insert(s, x))
  {
    if s != [] && s[|s| - 1].lastUsedAt < x.lastUsedAt {
      var n := |s| - 1;
      var front := Insert(s[..n], x);
      InsertSorts(s[..n], x);
      InsertMembers(s[..n], x);
      forall i | 0 <= i < |front| ensures front[i].lastUsedAt >= s[n].lastUsedAt {
        assert front[i] in multiset(front);
        assert front[i] in s[..n] || front[i] == x;
      }
    }
  }

  method SortLatestFirst(s: seq<DeviceSession>) returns (r: seq<DeviceSession>)
    ensures LatestFirst(r) && multiset(r) == multiset(s)
  {
    r := [];
    for i := 0 to |s|
      invariant LatestFirst(r) && multiset(r) == multiset(s[..i])
    {
      InsertSorts(r, s[i]);
      InsertMembers(r, s[i]);
      r := Insert(r, s[i]);
      assert s[..i + 1] == s[..i] + [s[i]];
    }
    assert s[..|s|] == s;
  }

  // ----- The listing -----

  predicate DistinctIds(s: seq<DeviceSession>) {
    forall i, j :: 0 <= i < j < |s| ==> s[i].id != s[j].id
  }

  lemma PermutedIds(s: seq<DeviceSession>, r: seq<DeviceSession>)
    requires multiset(s) == multiset(r) && DistinctIds(s)
    ensures DistinctIds(r)
    ensures forall x :: x in s <==> x in r
  {
    assert forall x :: x in s <==> x in multiset(s);
    assert forall x :: x in r <==> x in multiset(r);
    forall i, j | 0 <= i < j < |r| ensures r[i].id != r[j].id {
      var a, b := r[i], r[j];
      assert a in s && b in s;
      if a == b {
        assert multiset(r)[a] >= 2 by {
          assert r == r[..i] + [a] + r[i + 1..j] + [b] + r[j + 1..];
        }
        OnceEach(s, a);
      }
    }
  }

  lemma {:induction false} OnceEach(s: seq<DeviceSession>, x: DeviceSession)
    requires DistinctIds(s)
    ensures multiset(s)[x] <= 1
  {
    if s != [] {
      var n := |s| - 1;
      assert s == s[..n] + [s[n]];
      OnceEach(s[..n], x);
      if s[n] == x { assert x !in s[..n]; assert multiset(s[..n])[x] == 0; }
    }
  }

  lemma InFamilyNext(records: seq<Token>, i: nat, family: string)
    requires i < |records|
    ensures InFamily(records[..i + 1], family) ==
      InFamily(records[..i], family) + if records[i].family == family then [records[i]] else []
  {
    assert records[..i + 1][..i] == records[..i];
  }

  predicate Grouped(records: seq<Token>, families: map<string, seq<Token>>, f: string) {
    InFamily(records, f) == if f in families then families[f] else []
  }

  /** Groups the records by family, in the order in which the families first appear. */
  method GroupByFamily(records: seq<Token>) returns (families: map<string, seq<Token>>, order: seq<string>)
    ensures Distinct(order) && forall f :: f in order <==> f in families
    ensures forall f :: f in families ==> families[f] != []
    ensures forall f :: Grouped(records, families, f)
  {
    families, order := map[], [];
    for i := 0 to |records|
      invariant Distinct(order) && forall f :: f in order <==> f in families
      invariant forall f :: f in families ==> families[f] != []
      invariant forall f :: Grouped(records[..i], families, f)
    {
      var record := records[i];
      ghost var before := families;
      if record.family !in families {
        families := families[record.family := []];
        order := order + [record.family];
      }
      families := families[record.family := families[record.family] + [record]];
      var upToHere := records[..i + 1];
      forall f ensures Grouped(upToHere, families, f) {
        InFamilyNext(records, i, f);
        assert Grouped(records[..i], before, f);
      }
    }
    assert records[..|records|] == records;
  }

  /** The entry of one family, if it has a usable token. */
  method DescribeFamily(f: string, members: seq<Token>, now: Time, ghost records: seq<Token>)
    returns (s: Option<DeviceSession>)
    requires members == InFamily(records, f) && members != []
    ensures s.Some? <==> HasUsable(records, f, now)
    ensures s.Some? ==> s.value.id == f && Describes(s.value, records, now)
  {
    var active := UsableOf(members, now);
    InFamilyMembers(records, f);
    UsableMembers(members, now);
    if active == [] { return None; }
    assert active[0] in active;
    var session := Summarize(f, members, active);
    s := Some(session);
  }

  /** `found` describes exactly those of `families` that have a usable token. */
  ghost predicate Lists(found: seq<DeviceSession>, families: seq<string>, records: seq<Token>, now: Time) {
    && DistinctIds(found)
    && (forall s :: s in found ==> s.id in families && Describes(s, records, now))
    && (forall f :: f in families && HasUsable(records, f, now) ==> exists s :: s in found && s.id == f)
  }

  lemma ListsMore(
    found: seq<DeviceSession>, families: seq<string>, f: string, s: Option<DeviceSession>, records: seq<Token>, now: Time)
    requires Lists(found, families, records, now) && f !in families
    requires s.Some? <==> HasUsable(records, f, now)
    requires s.Some? ==> s.value.id == f && Describes(s.value, records, now)
    ensures Lists(found + if s.Some? then [s.value] else [], families + [f], records, now)
  {
    var longer := found + if s.Some? then [s.value] else [];
    forall g | g in families + [f] && HasUsable(records, g, now) ensures exists x :: x in longer && x.id == g {
      if g == f {
        assert longer[|found|] == s.value;
      } else {
        var x :| x in found && x.id == g;
        assert x in longer;
      }
    }
  }

  predicate Listed(sessions: seq<DeviceSession>, family: string) {
    exists s :: s in sessions && s.id == family
  }

  /** The expiry shown is that of an unrevoked, unexpired token of the family. */
  predicate EndsWith(records: seq<Token>, s: DeviceSession, now: Time) {
    exists t :: t in records && t.family == s.id && !t.revoked && now < t.expiresAt && t.expiresAt == s.expiresAt
  }

  method ListActiveSessions(records: seq<Token>, now: Time) returns (sessions: seq<DeviceSession>)
    ensures DistinctIds(sessions) && LatestFirst(sessions)
    ensures forall f :: HasUsable(records, f, now) ==> exists s :: s in sessions && s.id == f
    ensures forall s :: s in sessions ==> Describes(s, records, now)
    ensures forall t :: t in records && !t.revoked && now < t.expiresAt ==> Listed(sessions, t.family)
    ensures forall s :: s in sessions ==> EndsWith(records, s, now)
  {
    var families, order := GroupByFamily(records);
    var found: seq<DeviceSession> := [];
    for i := 0 to |order|
      invariant Lists(found, order[..i], records, now)
    {
      var f := order[i];
      assert order[..i + 1] == order[..i] + [f] && f !in order[..i];
      assert f in order && Grouped(records, families, f);
      var s := DescribeFamily(f, families[f], now, records);
      ListsMore(found, order[..i], f, s, records, now);
      if s.Some? { found := found + [s.value]; }
    }
    assert order[..|order|] == order;
    forall f | HasUsable(records, f, now) ensures exists s :: s in found && s.id == f {
      InFamilyMembers(records, f);
      assert Grouped(records, families, f);
    }
    sessions := SortLatestFirst(found);
    PermutedIds(found, sessions);
    forall t | t in records && !t.revoked && now < t.expiresAt ensures Listed(sessions, t.family) {
      assert HasUsable(records, t.family, now);
    }
  }

  // ----- What the listing means -----

  predicate RecordsOf(records: seq<Token>, tokens: seq<Token>, uid: UserId) {
    && (forall t :: t in records ==> t in tokens && t.user == uid)
    && (forall t :: t in tokens && t.user == uid ==> t in records)
  }

  /** A listed session shows the device and expiry of the one live token of its family, and that
      token can be refreshed at the very instant of the listing. */
  lemma ListedIsRefreshable(
    cfg: Config, db: Db, uid: UserId, records: seq<Token>, now: Time, s: DeviceSession, random: Random)
    requires Reachable(cfg, db) && RecordsOf(records, db.tokens, uid) && Describes(s, records, now)
    ensures exists i :: 0 <= i < |db.tokens| && IsTip(db.tokens, i, s) && Refreshes(cfg, db, i, now, random)
  {
    ReachableSessions(cfg, db);
    var i := ListedTip(db.tokens, uid, records, now, s);
    LiveRefreshes(cfg, db, i, now, random);
  }

  lemma ListedRows(tokens: seq<Token>, uid: UserId, records: seq<Token>, now: Time, s: DeviceSession)
    returns (i: nat, j: nat)
    requires RecordsOf(records, tokens, uid) && Describes(s, records, now)
    ensures i < |tokens| && tokens[i].family == s.id && Usable(tokens[i], now) && tokens[i].expiresAt == s.expiresAt
    ensures j < |tokens| && tokens[j].family == s.id && Usable(tokens[j], now) && tokens[j].device == s.device
  {
    var t :| t in records && t.family == s.id && Usable(t, now) && t.expiresAt == s.expiresAt;
    var u :| u in records && u.family == s.id && Usable(u, now) && u.device == s.device;
    i :| 0 <= i < |tokens| && tokens[i] == t;
    j :| 0 <= j < |tokens| && tokens[j] == u;
  }

  lemma ListedTip(tokens: seq<Token>, uid: UserId, records: seq<Token>, now: Time, s: DeviceSession) returns (i: nat)
    requires TokensOk(tokens) && RecordsOf(records, tokens, uid) && Describes(s, records, now)
    ensures i < |tokens| && IsTip(tokens, i, s) && Usable(tokens[i], now)
  {
    var j;
    i, j := ListedRows(tokens, uid, records, now, s);
    LiveIsOnly(tokens, i, j);
    forall k | 0 <= k < |tokens| && k != i && tokens[k].family == s.id ensures tokens[k].revoked {
      LiveIsOnly(tokens, i, k);
    }
  }

  lemma LiveIsOnly(tokens: seq<Token>, i: nat, j: nat)
    requires TokensOk(tokens) && i < |tokens| && j < |tokens| && tokens[i].family == tokens[j].family
    requires !tokens[i].revoked
    ensures j != i ==> tokens[j].revoked
  {
  }

  lemma LiveRefreshes(cfg: Config, db: Db, i: nat, now: Time, random: Random)
    requires SessionsOk(db) && i < |db.tokens| && Usable(db.tokens[i], now)
    ensures Refreshes(cfg, db, i, now, random)
  {
    HashFinds(db.tokens, i);
  }

  predicate Refreshes(cfg: Config, db: Db, i: nat, now: Time, random: Random)
    requires i < |db.tokens|
  {
    Refresh(cfg, db, db.tokens[i].hash, now, random).1 == Tokens(db.tokens[i].user)
  }

  predicate IsTip(tokens: seq<Token>, i: nat, s: DeviceSession)
    requires i < |tokens|
  {
    && tokens[i].family == s.id && !tokens[i].revoked
    && tokens[i].device == s.device && tokens[i].expiresAt == s.expiresAt
    && forall j :: 0 <= j < |tokens| && j != i && tokens[j].family == s.id ==> tokens[j].revoked
  }
}
