/**
 Deadlock freedom, progress and termination of the step machine, for every pool size of at
 least one.
 */
module Progress {
  import opened Errors
  import opened Schema
  import opened Transactions
  import opened Machine
  import opened Invariant

  predicate Unfinished(sessions: seq<Session>, i: nat) { i < |sessions| && !sessions[i].pc.Done? }

  // ----- who waits for whom -----

  /** Call i waits for call j: for a pool connection, a row lock, an idempotency key or an account id. */
  ghost predicate WaitsFor(s: State, i: nat, j: nat) {
    && i < |s.sessions| && j < |s.sessions| && i != j
    && var x, y := s.sessions[i], s.sessions[j];
    || ((x.pc.Begin? || x.pc.AwaitRefetch?) && ConnectionsInUse(s.sessions) >= s.pool && HoldsConnection(y.pc))
    || Awaits(x, y)
  }

  /** The order in which resources are taken: connections first, then rows by ascending id, then
      account ids, then idempotency keys. A call's rank is the next resource it may wait for. */
  datatype Rank = Rank(level: nat, row: int)

  function RankOf(x: Session): Rank {
    match x.pc
    case Begin => Rank(0, 0)
    case AwaitRefetch => Rank(0, 0)
    case Locking(todo) => if todo == [] then Rank(4, 0) else Rank(1, todo[0])
    case WriteAccount => Rank(2, 0)
    case WriteTransfer(_) => Rank(3, 0)
    case _ => Rank(4, 0)
  }

  predicate Below(a: Rank, b: Rank) { a.level < b.level || (a.level == b.level && a.row < b.row) }

  lemma AwaitingRaisesRank(w: World, i: nat, x: Session, j: nat, y: Session)
    requires SessionOk(w, i, x) && SessionOk(w, j, y) && Awaits(x, y)
    ensures Below(RankOf(x), RankOf(y)) && !y.pc.Done?
  {
    if x.pc.Locking? && x.pc.todo != [] && x.pc.todo[0] in y.held {
      if y.pc.Locking? && y.pc.todo != [] {
        assert y.pc.todo[0] in y.pc.todo;
      }
    } else if t :| t in y.work.transfers && t.key.Some? && WantsKey(x, t.key.value) {
      assert y.work.transfers != [];
    }
  }

  lemma WaitingRaisesRank(s: State, i: nat, j: nat)
    requires Inv(s) && WaitsFor(s, i, j)
    ensures Below(RankOf(s.sessions[i]), RankOf(s.sessions[j])) && Unfinished(s.sessions, j)
  {
    var x, y := s.sessions[i], s.sessions[j];
    assert SessionOk(s.world, i, x) && SessionOk(s.world, j, y);
    hide SessionOk, Inv;
    if Awaits(x, y) { AwaitingRaisesRank(s.world, i, x, j, y); }
  }

  /** Each call of the path waits for the next one. */
  ghost predicate WaitPath(s: State, path: seq<nat>) {
    |path| >= 2 && forall k :: 0 <= k < |path| - 1 ==> WaitsFor(s, path[k], path[k + 1])
  }

  lemma {:induction false} WaitPathRaisesRank(s: State, path: seq<nat>)
    requires Inv(s) && WaitPath(s, path)
    ensures path[0] < |s.sessions| && path[|path| - 1] < |s.sessions|
    ensures Below(RankOf(s.sessions[path[0]]), RankOf(s.sessions[path[|path| - 1]]))
  {
    hide Inv;
    var last := |path| - 1;
    assert WaitsFor(s, path[last - 1], path[last]);
    WaitingRaisesRank(s, path[last - 1], path[last]);
    if last >= 2 {
      WaitPathRaisesRank(s, path[..last]);
    }
  }

  /** No deadlock: in no reachable state do calls wait for each other in a circle. */
  lemma NoCircularWait(states: seq<State>, actions: seq<Action>, k: nat, path: seq<nat>)
    requires IsRun(states, actions) && k < |states| && WaitPath(states[k], path)
    ensures path[0] != path[|path| - 1]
  {
    RunHasInv(states, actions, k);
    WaitPathRaisesRank(states[k], path);
  }

  // ----- connections -----

  /** The calls that are past taking a connection and have not given it back. */
  function Connected(sessions: seq<Session>): set<nat> {
    set i: nat | i < |sessions| && !(sessions[i].pc.Begin? || sessions[i].pc.AwaitRefetch? || sessions[i].pc.Done?)
  }

  lemma {:induction false} ConnectionsAreCounted(sessions: seq<Session>)
    ensures |Connected(sessions)| == ConnectionsInUse(sessions)
  {
    if |sessions| > 0 {
      var n := |sessions| - 1;
      ConnectionsAreCounted(sessions[..n]);
      assert Connected(sessions[..n]) == Connected(sessions) - {n};
    }
  }

  /** In every run, at no time do more calls hold a connection than the pool has: one from the
      statement that begins a transaction to its commit or rollback, and one for the re-fetch. */
  lemma PoolIsNeverExceeded(states: seq<State>, actions: seq<Action>, k: nat)
    requires IsRun(states, actions) && k < |states|
    ensures |Connected(states[k].sessions)| <= states[k].pool
  {
    ConnectionsAreCounted(states[k].sessions);
    RunHasInv(states, actions, k);
  }

  // ----- progress -----

  /** An unfinished call of highest rank. */
  lemma {:induction false} HighestUnfinished(sessions: seq<Session>, i: nat) returns (top: nat)
    requires Unfinished(sessions, i)
    ensures Unfinished(sessions, top)
    ensures forall j: nat :: Unfinished(sessions, j) ==> !Below(RankOf(sessions[top]), RankOf(sessions[j]))
  {
    var n := |sessions| - 1;
    var front := sessions[..n];
    top := n;
    assert i < n ==> Unfinished(front, i);
    if j: nat :| Unfinished(front, j) {
      top := HighestUnfinished(front, j);
      if Unfinished(sessions, n) && Below(RankOf(sessions[top]), RankOf(sessions[n])) { top := n; }
    }
    forall j: nat | Unfinished(sessions, j) ensures !Below(RankOf(sessions[top]), RankOf(sessions[j])) {
      if j < n { assert Unfinished(front, j) && front[j] == sessions[j]; }
    }
  }

  lemma {:induction false} SomeoneHoldsConnection(sessions: seq<Session>) returns (j: nat)
    requires ConnectionsInUse(sessions) >= 1
    ensures j < |sessions| && HoldsConnection(sessions[j].pc)
  {
    j := |sessions| - 1;
    if !HoldsConnection(sessions[j].pc) { j := SomeoneHoldsConnection(sessions[..j]); }
  }

  lemma BlockedWaits(s: State, i: nat) returns (j: nat)
    requires s.pool >= 1 && i < |s.sessions| && Blocked(s, i)
    ensures WaitsFor(s, i, j)
  {
    var x := s.sessions[i];
    if (x.pc.Begin? || x.pc.AwaitRefetch?) && ConnectionsInUse(s.sessions) >= s.pool {
      j := SomeoneHoldsConnection(s.sessions);
    } else {
      j :| 0 <= j < |s.sessions| && j != i && Awaits(x, s.sessions[j]);
    }
  }

  /** Whenever a call is unfinished, some call can run its next statement. */
  lemma SomeCallCanStep(s: State, i: nat) returns (top: nat)
    requires Inv(s) && s.pool >= 1 && Unfinished(s.sessions, i)
    ensures Enabled(s, Run(top))
  {
    hide Inv;
    top := HighestUnfinished(s.sessions, i);
    if Blocked(s, top) {
      var j := BlockedWaits(s, top);
      WaitingRaisesRank(s, top, j);
    }
  }

  // ----- termination -----

  /** How many statements an attempt may still run at most. */
  function StatementsLeft(pc: Pc): nat {
    match pc
    case Done(_) => 0
    case Refetching => 1
    case AwaitRefetch => 2
    case RollingBack(_) => 3
    case Committing => 4
    case WriteCredit(_) => 5
    case WriteDebit(_) => 6
    case WriteTransfer(_) => 7
    case DrawTransferId => 8
    case UpdateDest => 9
    case UpdateSource => 10
    case Locking(todo) => 11 + |todo|
    case Snapshot => 14
    case Lookup => 15
    case Begin => 16
    case WriteDeposit => 5
    case WriteAccount => 6
  }

  function Weight(x: Session): nat {
    if x.pc.Done? then 0
    else (if x.attempt < MAX_TX_RETRIES then 20 * (MAX_TX_RETRIES - x.attempt) else 0) + StatementsLeft(x.pc)
  }

  const MAX_WEIGHT: nat := 76

  function TotalWeight(sessions: seq<Session>): nat {
    if |sessions| == 0 then 0 else TotalWeight(sessions[..|sessions| - 1]) + Weight(sessions[|sessions| - 1])
  }

  lemma {:induction false} TotalAfterUpdate(sessions: seq<Session>, i: nat, x: Session)
    requires i < |sessions|
    ensures TotalWeight(sessions[i := x]) == TotalWeight(sessions) - Weight(sessions[i]) + Weight(x)
  {
    var n := |sessions| - 1;
    if i < n {
      TotalAfterUpdate(sessions[..n], i, x);
      assert sessions[i := x][..n] == sessions[..n][i := x];
    } else {
      assert sessions[i := x][..n] == sessions[..n];
    }
  }

  lemma StepLosesWeight(w: World, i: nat, x: Session)
    requires SessionOk(w, i, x) && !x.pc.Done? && !x.pc.Committing?
    ensures Weight(StepSession(w, x).0) < Weight(x)
  {
    hide PendingOk, History, RowsInOrder, UpdatedBalance, InsertedTransfer, InsertedAccount, FindKey;
    if cmd :| x.call == Move(cmd) { LockOrderFacts(w.db, cmd); }
  }

  lemma FailLosesWeight(w: World, i: nat, x: Session, fault: Fault)
    requires SessionOk(w, i, x) && CanFail(x.pc)
    ensures Weight(FailSession(x, fault)) < Weight(x)
  {
  }

  predicate IsStatement(a: Action) { a.Run? || a.Fail? }

  /** Every statement, successful or failed, uses up some of a bounded budget. */
  lemma ActionWeight(s: State, a: Action)
    requires Inv(s) && Enabled(s, a)
    ensures IsStatement(a) ==> TotalWeight(Next(s, a).sessions) < TotalWeight(s.sessions)
    ensures a.Invoke? ==> TotalWeight(Next(s, a).sessions) == TotalWeight(s.sessions) + MAX_WEIGHT
    ensures a.SkipIds? ==> TotalWeight(Next(s, a).sessions) == TotalWeight(s.sessions)
  {
    match a
    case Invoke(call) =>
      assert Next(s, a).sessions[..|s.sessions|] == s.sessions;
    case Run(i) =>
      var x := s.sessions[i];
      assert SessionOk(s.world, i, x);
      hide Inv, SessionOk;
      if x.pc.Committing? {
        TotalAfterUpdate(s.sessions, i, CommitSession(s.world, x));
      } else {
        StepLosesWeight(s.world, i, x);
        TotalAfterUpdate(s.sessions, i, StepSession(s.world, x).0);
      }
    case Fail(i, fault) =>
      assert SessionOk(s.world, i, s.sessions[i]);
      hide Inv, SessionOk;
      FailLosesWeight(s.world, i, s.sessions[i], fault);
      TotalAfterUpdate(s.sessions, i, FailSession(s.sessions[i], fault));
    case SkipIds(_) =>
  }

  function Statements(actions: seq<Action>): nat {
    if |actions| == 0 then 0
    else Statements(actions[..|actions| - 1]) + if IsStatement(actions[|actions| - 1]) then 1 else 0
  }

  function Invocations(actions: seq<Action>): nat {
    if |actions| == 0 then 0
    else Invocations(actions[..|actions| - 1]) + if actions[|actions| - 1].Invoke? then 1 else 0
  }

  /** Termination: n calls run at most 76 * n statements between them, whatever the database
      fails and however they interleave. */
  lemma {:induction false} WorkIsBounded(states: seq<State>, actions: seq<Action>, k: nat)
    requires IsRun(states, actions) && k <= |actions|
    ensures Statements(actions[..k]) + TotalWeight(states[k].sessions) <= MAX_WEIGHT * Invocations(actions[..k])
  {
    if k > 0 {
      RunHasInv(states, actions, k - 1);
      hide Inv;
      WorkIsBounded(states, actions, k - 1);
      assert StepsAt(states, actions, k - 1);
      ActionWeight(states[k - 1], actions[k - 1]);
      assert actions[..k][..k - 1] == actions[..k - 1];
    }
  }

  lemma PrependStep(s: State, a: Action, states: seq<State>, actions: seq<Action>)
    requires Enabled(s, a) && Executes(states, actions) && states[0] == Next(s, a)
    ensures Executes([s] + states, [a] + actions)
    ensures ([s] + states)[0] == s && ([s] + states)[|[a] + actions|] == states[|actions|]
  {
    hide Next, Enabled;
    var states', actions' := [s] + states, [a] + actions;
    forall k | 0 <= k < |actions'| ensures StepsAt(states', actions', k) {
      if k > 0 { assert StepsAt(states, actions, k - 1); }
    }
  }

  ghost predicate AllDone(s: State) { forall i :: 0 <= i < |s.sessions| ==> s.sessions[i].pc.Done? }

  lemma OneMoreStep(s: State) returns (a: Action)
    requires Inv(s) && s.pool >= 1 && !AllDone(s)
    ensures a.Run? && Enabled(s, a) && Inv(Next(s, a)) && Next(s, a).pool == s.pool
    ensures TotalWeight(Next(s, a).sessions) < TotalWeight(s.sessions)
  {
    hide Inv, Blocked;
    var i :| 0 <= i < |s.sessions| && !s.sessions[i].pc.Done?;
    var top := SomeCallCanStep(s, i);
    a := Run(top);
    NextKeepsInv(s, a);
    ActionWeight(s, a);
  }

  /** From every reachable state the calls in flight can all finish, by running statements only. */
  lemma {:induction false} CallsCanFinish(s: State) returns (states: seq<State>, actions: seq<Action>)
    requires Inv(s) && s.pool >= 1
    ensures Executes(states, actions) && states[0] == s
    ensures forall k :: 0 <= k < |actions| ==> actions[k].Run?
    ensures AllDone(states[|actions|])
    decreases TotalWeight(s.sessions)
  {
    hide Inv, Next, Enabled, TotalWeight, AllDone;
    states, actions := [s], [];
    if !AllDone(s) {
      var a := OneMoreStep(s);
      states, actions := CallsCanFinish(Next(s, a));
      PrependStep(s, a, states, actions);
      states, actions := [s] + states, [a] + actions;
    }
  }
}
