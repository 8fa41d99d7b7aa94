/** Refresh tokens when requests overlap: one statement per step, under row locks and committed reads.

    The other account modules take each request as one atomic transaction. Here a transaction holds the
    rows that it locked until it commits, a bulk update sees the rows that were committed when it began,
    waits for the locked ones and looks at them again, and never sees rows inserted meanwhile. */
module RefreshRaces {
  import opened Common
  import opened AccountRows

  type Txn = nat

  datatype Row = Row(user: UserId, family: string, live: bool)

  /** The rows that a bulk revocation addresses. */
  datatype Scope = Family(family: string) | Sessions(user: UserId)

  predicate Addressed(scope: Scope, r: Row) {
    match scope
    case Family(family) => r.family == family
    case Sessions(user) => r.user == user
  }

  /** `Presented` holds the row of a revoked token, or of one to log out. A sweep began when there were
      `size` rows; it has still to visit `todo` and has locked `taken`, besides its presented row. */
  datatype Phase =
    | Idle
    | Presented(row: nat)
    | Rotating(row: nat, checked: bool)
    | Sweeping(scope: Scope, size: nat, todo: set<nat>, taken: set<nat>, key: Option<nat>, disables: bool)

  /** Committed rows, disabled users, and transactions under way. */
  datatype State = State(rows: seq<Row>, inactive: set<UserId>, txns: map<Txn, Phase>)

  const INIT := State([], {}, map[])

  function PhaseOf(s: State, p: Txn): Phase {
    if p in s.txns then s.txns[p] else Idle
  }

  predicate Locks(phase: Phase, j: nat) {
    match phase
    case Idle => false
    case Presented(row) => j == row
    case Rotating(row, _) => j == row
    case Sweeping(_, _, _, taken, key, _) => j in taken || key == Some(j)
  }

  predicate FreeFor(s: State, p: Txn, j: nat) {
    forall q :: q in s.txns && q != p ==> !Locks(s.txns[q], j)
  }

  // ----- Steps -----

  datatype Action =
    | Issue(user: UserId, family: string)       // the user row is locked from the check to the commit
    | Enable(user: UserId)
    | Present(p: Txn, row: nat, logout: bool)   // SELECT ... FOR UPDATE of the token's row
    | CheckUser(p: Txn)                         // an unlocked read
    | CommitRotation(p: Txn)
    | SweepFamily(p: Txn)                       // the bulk UPDATE of the presented token's family
    | Sweep(p: Txn, scope: Scope, disables: bool)  // any other bulk UPDATE of tokens
    | Visit(p: Txn, row: nat)                   // waits for the row, then reads it again
    | CommitSweep(p: Txn)
    | Abort(p: Txn)

  predicate Enabled(s: State, a: Action) {
    match a
    case Issue(user, family) => user !in s.inactive && forall i :: 0 <= i < |s.rows| ==> s.rows[i].family != family
    case Enable(_) => true
    case Present(p, row, _) => PhaseOf(s, p).Idle? && row < |s.rows| && FreeFor(s, p, row)
    case CheckUser(p) => PhaseOf(s, p).Rotating? && !PhaseOf(s, p).checked && PhaseOf(s, p).row < |s.rows|
    case CommitRotation(p) => PhaseOf(s, p).Rotating? && PhaseOf(s, p).checked && PhaseOf(s, p).row < |s.rows|
    case SweepFamily(p) => PhaseOf(s, p).Presented? && PhaseOf(s, p).row < |s.rows|
    case Sweep(p, _, _) => PhaseOf(s, p).Idle?
    case Visit(p, row) => PhaseOf(s, p).Sweeping? && row in PhaseOf(s, p).todo && row < |s.rows| && FreeFor(s, p, row)
    case CommitSweep(p) => PhaseOf(s, p).Sweeping? && PhaseOf(s, p).todo == {}
    case Abort(_) => true
  }

  function Enter(s: State, p: Txn, phase: Phase): State {
    s.(txns := s.txns[p := phase])
  }

  function StartSweep(s: State, scope: Scope, key: Option<nat>, disables: bool): Phase {
    Sweeping(scope, |s.rows|, set i | 0 <= i < |s.rows| && Addressed(scope, s.rows[i]) && s.rows[i].live, {}, key, disables)
  }

  function Killed(rows: seq<Row>, taken: set<nat>): (r: seq<Row>)
    ensures |r| == |rows|
    ensures forall i :: 0 <= i < |rows| ==> r[i] == rows[i].(live := rows[i].live && i !in taken)
  {
    seq(|rows|, i requires 0 <= i < |rows| => rows[i].(live := rows[i].live && i !in taken))
  }

  function Apply(s: State, a: Action): State
    requires Enabled(s, a)
  {
    match a
    case Issue(user, family) => s.(rows := s.rows + [Row(user, family, true)])
    case Enable(user) => s.(inactive := s.inactive - {user})
    case Present(p, row, logout) =>
      Enter(s, p, if s.rows[row].live && !logout then Rotating(row, false) else Presented(row))
    case CheckUser(p) =>
      var row := PhaseOf(s, p).row;
      Enter(s, p, if s.rows[row].user in s.inactive then StartSweep(s, Sessions(s.rows[row].user), Some(row), false)
                  else Rotating(row, true))
    case CommitRotation(p) =>
      var row := PhaseOf(s, p).row;
      Enter(s, p, Idle).(rows := Killed(s.rows, {row}) + [s.rows[row].(live := true)])
    case SweepFamily(p) =>
      var row := PhaseOf(s, p).row;
      Enter(s, p, StartSweep(s, Family(s.rows[row].family), Some(row), false))
    case Sweep(p, scope, disables) => Enter(s, p, StartSweep(s, scope, None, disables))
    case Visit(p, row) =>
      var phase := PhaseOf(s, p);
      var taken := if s.rows[row].live then phase.taken + {row} else phase.taken;
      Enter(s, p, phase.(todo := phase.todo - {row}, taken := taken))
    case CommitSweep(p) =>
      var phase := PhaseOf(s, p);
      Enter(s, p, Idle).(
        rows := Killed(s.rows, phase.taken),
        inactive := if phase.disables && phase.scope.Sessions? then s.inactive + {phase.scope.user} else s.inactive)
    case Abort(p) => Enter(s, p, Idle)
  }

  function Step(s: State, a: Action): State {
    if Enabled(s, a) then Apply(s, a) else s
  }

  function Run(s: State, actions: seq<Action>): State {
    if actions == [] then s else Step(Run(s, actions[..|actions| - 1]), actions[|actions| - 1])
  }

  // ----- The invariant -----

  /** Every row of a family but its last is dead, and all belong to one user. */
  predicate Chained(rows: seq<Row>) {
    forall i, j :: 0 <= i < j < |rows| && rows[i].family == rows[j].family ==>
      rows[i].user == rows[j].user && !rows[i].live
  }

  /** A row being rotated is still live, and a sweep has not missed a live row that it could see. */
  ghost predicate PhaseOk(rows: seq<Row>, phase: Phase) {
    match phase
    case Idle => true
    case Presented(row) => row < |rows|
    case Rotating(row, _) => row < |rows| && rows[row].live
    case Sweeping(scope, size, todo, taken, _, _) =>
      && size <= |rows|
      && (forall i :: i in todo || i in taken ==> i < size && Addressed(scope, rows[i]))
      && (forall i :: 0 <= i < size && Addressed(scope, rows[i]) && rows[i].live ==> i in todo || i in taken)
  }

  ghost predicate Exclusive(s: State) {
    forall p, q, j :: p in s.txns && q in s.txns && p != q && Locks(s.txns[p], j) ==> !Locks(s.txns[q], j)
  }

  ghost predicate Inv(s: State) {
    Chained(s.rows) && Exclusive(s) && forall p :: p in s.txns ==> PhaseOk(s.rows, s.txns[p])
  }

  /** Rows go on, except that those of `killed` die. */
  predicate Later(rows: seq<Row>, later: seq<Row>, killed: set<nat>) {
    && |rows| <= |later|
    && forall i :: 0 <= i < |rows| ==> later[i] == rows[i].(live := rows[i].live && i !in killed)
  }

  lemma PhaseStays(rows: seq<Row>, later: seq<Row>, killed: set<nat>, phase: Phase)
    requires PhaseOk(rows, phase) && Later(rows, later, killed)
    requires forall j :: j in killed ==> !Locks(phase, j)
    ensures PhaseOk(later, phase)
  {
  }

  /** One transaction moves to a phase with no new locks, or a free one, and may kill rows it had locked. */
  lemma MoveKeeps(s: State, s': State, p: Txn, phase: Phase, killed: set<nat>)
    requires Inv(s) && s'.txns == s.txns[p := phase] && Later(s.rows, s'.rows, killed) && Chained(s'.rows)
    requires PhaseOk(s'.rows, phase)
    requires forall j :: j in killed ==> Locks(PhaseOf(s, p), j)
    requires forall j: nat :: Locks(phase, j) ==> Locks(PhaseOf(s, p), j) || FreeFor(s, p, j)
    ensures Inv(s')
  {
    forall q | q in s'.txns ensures PhaseOk(s'.rows, s'.txns[q]) {
      if q != p { PhaseStays(s.rows, s'.rows, killed, s.txns[q]); }
    }
    forall q, j: nat | q in s.txns && q != p && Locks(phase, j) ensures !Locks(s.txns[q], j) {
      if Locks(PhaseOf(s, p), j) { assert p in s.txns; } else { assert FreeFor(s, p, j); }
    }
  }

  lemma KilledChained(rows: seq<Row>, taken: set<nat>)
    requires Chained(rows)
    ensures Chained(Killed(rows, taken)) && Later(rows, Killed(rows, taken), taken)
  {
  }

  lemma RotationKeeps(s: State, p: Txn)
    requires Inv(s) && Enabled(s, CommitRotation(p))
    ensures Inv(Apply(s, CommitRotation(p)))
  {
    var row, s' := PhaseOf(s, p).row, Apply(s, CommitRotation(p));
    KilledChained(s.rows, {row});
    var n := |s.rows|;
    assert forall k :: row < k < n ==> s.rows[k].family != s.rows[row].family;
    forall i, j | 0 <= i < j < |s'.rows| && s'.rows[i].family == s'.rows[j].family
      ensures s'.rows[i].user == s'.rows[j].user && !s'.rows[i].live
    {
      if j < n {
        assert s.rows[i].family == s.rows[j].family;
      } else if i < row {
        assert s.rows[i].family == s.rows[row].family;
      }
    }
    MoveKeeps(s, s', p, Idle, {row});
  }

  lemma IssueKeeps(s: State, user: UserId, family: string)
    requires Inv(s) && Enabled(s, Issue(user, family))
    ensures Inv(Apply(s, Issue(user, family)))
  {
    var s' := Apply(s, Issue(user, family));
    forall q | q in s'.txns ensures PhaseOk(s'.rows, s'.txns[q]) {
      PhaseStays(s.rows, s'.rows, {}, s.txns[q]);
    }
  }

  lemma CommitSweepKeeps(s: State, p: Txn)
    requires Inv(s) && Enabled(s, CommitSweep(p))
    ensures Inv(Apply(s, CommitSweep(p)))
  {
    var taken := PhaseOf(s, p).taken;
    KilledChained(s.rows, taken);
    MoveKeeps(s, Apply(s, CommitSweep(p)), p, Idle, taken);
  }

  lemma VisitKeeps(s: State, p: Txn, row: nat)
    requires Inv(s) && Enabled(s, Visit(p, row))
    ensures Inv(Apply(s, Visit(p, row)))
  {
    var s' := Apply(s, Visit(p, row));
    var phase := PhaseOf(s, p);
    assert PhaseOk(s.rows, phase);
    MoveKeeps(s, s', p, s'.txns[p], {});
  }

  lemma StepKeeps(s: State, a: Action)
    requires Inv(s)
    ensures Inv(Step(s, a))
  {
    if Enabled(s, a) {
      match a
      case Issue(user, family) => IssueKeeps(s, user, family);
      case Enable(_) =>
      case CommitRotation(p) => RotationKeeps(s, p);
      case CommitSweep(p) => CommitSweepKeeps(s, p);
      case Visit(p, row) => VisitKeeps(s, p, row);
      case Present(p, _, _) => MoveKeeps(s, Step(s, a), p, Step(s, a).txns[p], {});
      case CheckUser(p) => assert PhaseOk(s.rows, PhaseOf(s, p)); MoveKeeps(s, Step(s, a), p, Step(s, a).txns[p], {});
      case SweepFamily(p) => MoveKeeps(s, Step(s, a), p, Step(s, a).txns[p], {});
      case Sweep(p, _, _) => MoveKeeps(s, Step(s, a), p, Step(s, a).txns[p], {});
      case Abort(p) => MoveKeeps(s, Step(s, a), p, Idle, {});
    }
  }

  lemma {:induction false} RunKeeps(s: State, actions: seq<Action>)
    requires Inv(s)
    ensures Inv(Run(s, actions))
  {
    if actions != [] {
      RunKeeps(s, actions[..|actions| - 1]);
      StepKeeps(Run(s, actions[..|actions| - 1]), actions[|actions| - 1]);
    }
  }

  ghost predicate Reachable(s: State) {
    exists actions :: s == Run(INIT, actions)
  }

  lemma ReachableInv(s: State)
    requires Reachable(s)
    ensures Inv(s)
  {
    var actions :| s == Run(INIT, actions);
    RunKeeps(INIT, actions);
  }

  // ----- What survives overlapping requests -----

  /** However requests overlap, a family has one user and at most one live token, its newest. */
  lemma OneLivePerFamily(s: State, i: nat, j: nat)
    requires Reachable(s) && i < j < |s.rows| && s.rows[i].family == s.rows[j].family
    ensures s.rows[i].user == s.rows[j].user && !s.rows[i].live
  {
    ReachableInv(s);
  }

  predicate Dead(rows: seq<Row>, scope: Scope) {
    forall i :: 0 <= i < |rows| && Addressed(scope, rows[i]) ==> !rows[i].live
  }

  lemma StepKeepsDead(s: State, a: Action, family: string, i: nat)
    requires Inv(s) && i < |s.rows| && s.rows[i].family == family && Dead(s.rows, Family(family))
    ensures var s' := Step(s, a);
      i < |s'.rows| && s'.rows[i].family == family && Dead(s'.rows, Family(family))
  {
    if Enabled(s, a) && a.CommitRotation? { assert PhaseOk(s.rows, PhaseOf(s, a.p)); }
  }

  /** And a family without a live token never gets one again. */
  lemma {:induction false} DeadForever(s: State, actions: seq<Action>, family: string, i: nat)
    requires Reachable(s) && i < |s.rows| && s.rows[i].family == family && Dead(s.rows, Family(family))
    ensures var s' := Run(s, actions);
      i < |s'.rows| && s'.rows[i].family == family && Dead(s'.rows, Family(family))
  {
    ReachableInv(s);
    if actions != [] {
      var before := actions[..|actions| - 1];
      DeadForever(s, before, family, i);
      RunKeeps(s, before);
      StepKeepsDead(Run(s, before), actions[|actions| - 1], family, i);
    }
  }

  // ----- What does not, and exactly when -----

  /** A row that was inserted after the sweep began, and is live. */
  predicate Missed(rows: seq<Row>, phase: Phase)
    requires phase.Sweeping?
  {
    exists i :: phase.size <= i < |rows| && Addressed(phase.scope, rows[i]) && rows[i].live
  }

  /** When a replay, a logout or any other revocation commits, the tokens it addressed are dead if and
      only if it has missed none. */
  lemma SweepExact(s: State, p: Txn)
    requires Reachable(s) && Enabled(s, CommitSweep(p))
    ensures Dead(Apply(s, CommitSweep(p)).rows, PhaseOf(s, p).scope) <==> !Missed(s.rows, PhaseOf(s, p))
  {
    ReachableInv(s);
    var phase, after := PhaseOf(s, p), Apply(s, CommitSweep(p)).rows;
    assert PhaseOk(s.rows, phase);
    if Missed(s.rows, phase) {
      var i :| phase.size <= i < |s.rows| && Addressed(phase.scope, s.rows[i]) && s.rows[i].live;
      assert after[i].live && Addressed(phase.scope, after[i]);
    }
  }

  /** No disabled user has a live token. */
  predicate Clean(s: State) {
    forall i :: 0 <= i < |s.rows| && s.rows[i].live ==> s.rows[i].user !in s.inactive
  }

  /** The commit of a disabling that missed a token of its user. */
  predicate Overtaken(s: State, a: Action) {
    a.CommitSweep? && Enabled(s, a) && PhaseOf(s, a.p).disables && PhaseOf(s, a.p).scope.Sessions? &&
    Missed(s.rows, PhaseOf(s, a.p))
  }

  /** A disabled user gets a live token if and only if a disabling commits over a token that was inserted
      after its update began; no other step does it. */
  lemma CleanExact(s: State, a: Action)
    requires Reachable(s) && Clean(s)
    ensures Clean(Step(s, a)) <==> !Overtaken(s, a)
  {
    ReachableInv(s);
    var s' := Step(s, a);
    if Enabled(s, a) {
      if a.CommitRotation? { assert PhaseOk(s.rows, PhaseOf(s, a.p)); }
      if a.CommitSweep? { CommitCleanExact(s, a.p); }
    }
  }

  lemma CommitCleanExact(s: State, p: Txn)
    requires Reachable(s) && Clean(s) && Enabled(s, CommitSweep(p))
    ensures Clean(Apply(s, CommitSweep(p))) <==> !Overtaken(s, CommitSweep(p))
  {
    SweepExact(s, p);
    var phase, s' := PhaseOf(s, p), Apply(s, CommitSweep(p));
    if Overtaken(s, CommitSweep(p)) {
      var i :| 0 <= i < |s'.rows| && Addressed(phase.scope, s'.rows[i]) && s'.rows[i].live;
      assert s'.rows[i].user in s'.inactive;
    }
  }

  /** So in a run without such a commit disabled users never have a live token. */
  lemma {:induction false} CleanRun(actions: seq<Action>)
    requires forall i :: 0 <= i < |actions| ==> !Overtaken(Run(INIT, actions[..i]), actions[i])
    ensures Clean(Run(INIT, actions))
  {
    if actions != [] {
      var n := |actions| - 1;
      var before := actions[..n];
      forall i | 0 <= i < n ensures !Overtaken(Run(INIT, before[..i]), before[i]) {
        assert before[..i] == actions[..i];
      }
      CleanRun(before);
      CleanExact(Run(INIT, before), actions[n]);
    }
  }

  /** A token that outlives its user's activity is not refreshed: presenting it sweeps the user's tokens,
      itself included. */
  lemma InactiveIsSwept(s: State, p: Txn)
    requires Reachable(s) && Enabled(s, CheckUser(p)) && s.rows[PhaseOf(s, p).row].user in s.inactive
    ensures var row, phase := PhaseOf(s, p).row, PhaseOf(Apply(s, CheckUser(p)), p);
      phase.Sweeping? && phase.scope == Sessions(s.rows[row].user) && row in phase.todo
  {
    ReachableInv(s);
    assert PhaseOk(s.rows, PhaseOf(s, p));
  }

  // ----- Both races happen -----

  lemma Extends(s: State, a: Action)
    requires Reachable(s)
    ensures Reachable(Step(s, a))
  {
    var actions :| s == Run(INIT, actions);
    assert (actions + [a])[..|actions|] == actions;
    assert Step(s, a) == Run(INIT, actions + [a]);
  }

  /** User 1 with one session, whose only token transaction 0 is about to rotate. */
  lemma AboutToRotate() returns (s: State)
    ensures Reachable(s) && s.rows == [Row(1, "f", true)] && s.inactive == {} && s.txns == map[0 := Rotating(0, true)]
  {
    assert INIT == Run(INIT, []);
    var s1 := Step(INIT, Issue(1, "f"));
    var s2 := Step(s1, Present(0, 0, false));
    var s3 := Step(s2, CheckUser(0));
    Extends(INIT, Issue(1, "f"));
    Extends(s1, Present(0, 0, false));
    Extends(s2, CheckUser(0));
    s := s3;
  }

  lemma DisablingBegins() returns (s: State)
    ensures Reachable(s) && s.rows == [Row(1, "f", true)] && s.inactive == {}
    ensures s.txns == map[0 := Rotating(0, true), 1 := Sweeping(Sessions(1), 1, {0}, {}, None, true)]
  {
    var s0 := AboutToRotate();
    s := Step(s0, Sweep(1, Sessions(1), true));
    assert PhaseOf(s, 1).todo == {0};
    Extends(s0, Sweep(1, Sessions(1), true));
  }

  lemma DisablingWaits() returns (s: State)
    ensures Reachable(s) && s.rows == [Row(1, "f", false), Row(1, "f", true)] && s.inactive == {}
    ensures s.txns == map[0 := Idle, 1 := Sweeping(Sessions(1), 1, {}, {}, None, true)]
  {
    var s0 := DisablingBegins();
    var s1 := Step(s0, CommitRotation(0));
    assert s1.rows == [Row(1, "f", false), Row(1, "f", true)];
    s := Step(s1, Visit(1, 0));
    assert PhaseOf(s, 1).todo == {};
    Extends(s0, CommitRotation(0));
    Extends(s1, Visit(1, 0));
  }

  /** A refresh that commits while a disabling waits for its row leaves the disabled user a live token. */
  lemma DisablingOvertaken()
    ensures exists s :: Reachable(s) && !Clean(s)
  {
    var s := DisablingWaits();
    var s' := Step(s, CommitSweep(1));
    Extends(s, CommitSweep(1));
    assert s'.rows[1].live && s'.rows[1].user in s'.inactive;
  }

  lemma SecondRotation() returns (s: State)
    ensures Reachable(s) && s.rows == [Row(1, "f", false), Row(1, "f", true)] && s.inactive == {}
    ensures s.txns == map[0 := Rotating(1, true)]
  {
    var s0 := AboutToRotate();
    var s1 := Step(s0, CommitRotation(0));
    assert s1.rows == [Row(1, "f", false), Row(1, "f", true)];
    var s2 := Step(s1, Present(0, 1, false));
    s := Step(s2, CheckUser(0));
    Extends(s0, CommitRotation(0));
    Extends(s1, Present(0, 1, false));
    Extends(s2, CheckUser(0));
  }

  lemma ReplayBegins() returns (s: State)
    ensures Reachable(s) && s.rows == [Row(1, "f", false), Row(1, "f", true)] && s.inactive == {}
    ensures s.txns == map[0 := Rotating(1, true), 1 := Sweeping(Family("f"), 2, {1}, {}, Some(0), false)]
  {
    var s0 := SecondRotation();
    var s1 := Step(s0, Present(1, 0, false));
    assert PhaseOf(s1, 1) == Presented(0);
    s := Step(s1, SweepFamily(1));
    assert PhaseOf(s, 1).todo == {1};
    Extends(s0, Present(1, 0, false));
    Extends(s1, SweepFamily(1));
  }

  lemma ReplayWaits() returns (s: State)
    ensures Reachable(s) && s.rows == [Row(1, "f", false), Row(1, "f", false), Row(1, "f", true)]
    ensures s.txns == map[0 := Idle, 1 := Sweeping(Family("f"), 2, {}, {}, Some(0), false)]
  {
    var s0 := ReplayBegins();
    var s1 := Step(s0, CommitRotation(0));
    assert s1.rows == [Row(1, "f", false), Row(1, "f", false), Row(1, "f", true)];
    s := Step(s1, Visit(1, 1));
    assert PhaseOf(s, 1).todo == {};
    Extends(s0, CommitRotation(0));
    Extends(s1, Visit(1, 1));
  }

  /** A presented token whose sweep, when it commits, leaves its family alive. */
  predicate ReplayMisses(s: State, p: Txn) {
    && Enabled(s, CommitSweep(p)) && PhaseOf(s, p).scope.Family? && PhaseOf(s, p).key.Some?
    && !Dead(Apply(s, CommitSweep(p)).rows, PhaseOf(s, p).scope)
  }

  /** A replay answered while the newest token of its family is being rotated leaves the family alive. */
  lemma ReplayOvertaken()
    ensures exists s, p :: Reachable(s) && ReplayMisses(s, p)
  {
    var s := ReplayWaits();
    assert Missed(s.rows, PhaseOf(s, 1)) by { assert s.rows[2].live; }
    SweepExact(s, 1);
    assert ReplayMisses(s, 1);
  }
}
