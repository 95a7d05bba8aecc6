/**
 The idempotent retry of test/integration/idempotency_test.go: any number of calls with one key
 and equal parameters, in every interleaving, and the exact condition under which all of them
 get the same transfer.
 */
module Retry {
  import opened Options
  import opened Errors
  import opened Money
  import opened Schema
  import opened Transactions
  import opened Machine
  import opened Invariant
  import opened Guarantees
  import opened Idempotency
  import opened Progress
  import opened Solo

  /** A retry on its way to the winner's transfer: once its lookup has missed, accounts and funds
      would not refuse it, and what it returns is the transfer with the key. */
  ghost predicate Retrier(db: Tables, x: Session, cmd: Cmd) {
    && x.call == Move(cmd)
    && match x.pc
       case Begin => true
       case Lookup => true
       case AwaitRefetch => true
       case Refetching => true
       case Locking(todo) =>
         && DecideFunds(db, cmd) == Execute
         && (cmd.source in x.held || cmd.source in todo) && (cmd.dest in x.held || cmd.dest in todo)
       case Committing => x.work == EMPTY ==> x.result.Some? && x.result == Holder(db, cmd.key)
       case RollingBack(e) => e == Sentinel(DuplicateIdempotencyKey)
       case Done(Returned(t)) => Holder(db, cmd.key) == Some(t)
       case Done(_) => false
       case _ => DecideFunds(db, cmd) == Execute
  }

  /** The two balances before the winner's commit, or after it. */
  predicate Standing(db: Tables, cmd: Cmd, funds: int, base: int) {
    && cmd.source in db.accounts && cmd.dest in db.accounts
    && var moved := if Holder(db, cmd.key).Some? then cmd.amount else 0;
    && db.accounts[cmd.source].balance == funds - moved
    && db.accounts[cmd.dest].balance == base + moved
    && (Holder(db, cmd.key).Some? ==>
          Holder(db, cmd.key).value.key == cmd.key && Matches(Holder(db, cmd.key).value, cmd))
  }

  predicate Admits(cmd: Cmd, funds: int, base: int, times: nat) {
    funds >= times * cmd.amount && base + times * cmd.amount < MAX_UNITS
  }

  /** The first m calls are over, all others are retries of one command that could be executed
      once; it could be executed twice unless the calls take turns. */
  ghost predicate Retrying(s: State, m: nat, cmd: Cmd, funds: int, base: int) {
    && ValidCmd(cmd) && cmd.key.Some?
    && Admits(cmd, funds, base, 1) && (s.pool <= 1 || Admits(cmd, funds, base, 2))
    && Standing(s.world.db, cmd, funds, base)
    && m <= |s.sessions|
    && (forall i :: 0 <= i < m ==> s.sessions[i].pc.Done?)
    && (forall i :: m <= i < |s.sessions| ==> Retrier(s.world.db, s.sessions[i], cmd))
  }

  lemma RetrierWrites(w: World, i: nat, x: Session, cmd: Cmd, funds: int, base: int)
    requires WorldOk(w) && SessionOk(w, i, x) && ValidCmd(cmd) && cmd.key.Some?
    requires || x.pc.UpdateSource? || x.pc.UpdateDest? || x.pc.DrawTransferId?
             || x.pc.WriteTransfer? || x.pc.WriteDebit? || x.pc.WriteCredit?
    requires Standing(w.db, cmd, funds, base) && Retrier(w.db, x, cmd)
    ensures Retrier(w.db, StepSession(w, x).0, cmd)
  {
    if x.pc.WriteCredit? { assert StepSession(w, x).0.work.ledger != []; }
  }

  lemma RetrierReads(w: World, i: nat, x: Session, cmd: Cmd, funds: int, base: int)
    requires WorldOk(w) && SessionOk(w, i, x) && ValidCmd(cmd) && cmd.key.Some?
    requires x.pc.Begin? || x.pc.Lookup? || x.pc.Snapshot? || x.pc.Locking?
    requires Standing(w.db, cmd, funds, base) && Admits(cmd, funds, base, 1) && Retrier(w.db, x, cmd)
    ensures Retrier(w.db, StepSession(w, x).0, cmd)
  {
    if x.pc.Snapshot? {
      LockOrderFacts(w.db, cmd);
    } else if x.pc.Locking? && x.pc.todo != [] {
      var todo := x.pc.todo;
      assert forall a :: a in todo <==> a == todo[0] || a in todo[1..];
    }
  }

  /** After a lost race the re-fetch finds the winner. */
  lemma RetrierResolves(w: World, i: nat, x: Session, cmd: Cmd, funds: int, base: int)
    requires SessionOk(w, i, x) && cmd.key.Some?
    requires x.pc.RollingBack? || x.pc.AwaitRefetch? || x.pc.Refetching?
    requires Standing(w.db, cmd, funds, base) && Retrier(w.db, x, cmd)
    ensures Retrier(w.db, StepSession(w, x).0, cmd)
  {
    hide PendingOk, Shape;
  }

  lemma RetrierSteps(w: World, i: nat, x: Session, cmd: Cmd, funds: int, base: int)
    requires WorldOk(w) && SessionOk(w, i, x) && !x.pc.Committing? && !x.pc.Done? && ValidCmd(cmd) && cmd.key.Some?
    requires Standing(w.db, cmd, funds, base) && Admits(cmd, funds, base, 1) && Retrier(w.db, x, cmd)
    ensures Retrier(w.db, StepSession(w, x).0, cmd)
  {
    assert x.call == Move(cmd) && ShapeOfMove(x, cmd);
    hide WorldOk, SessionOk, Standing, Admits, Retrier, StepSession, ShapeOfMove;
    MoveStaysInMove(x, cmd);
    if x.pc.Begin? || x.pc.Lookup? || x.pc.Snapshot? || x.pc.Locking? {
      RetrierReads(w, i, x, cmd, funds, base);
    } else if x.pc.RollingBack? || x.pc.AwaitRefetch? || x.pc.Refetching? {
      RetrierResolves(w, i, x, cmd, funds, base);
    } else {
      RetrierWrites(w, i, x, cmd, funds, base);
    }
  }

  /** The commit of a retry that found nothing under the key makes it the winner. */
  lemma RetrierCommits(w: World, i: nat, x: Session, cmd: Cmd, funds: int, base: int)
    requires WorldOk(w) && SessionOk(w, i, x) && x.pc.Committing? && ValidCmd(cmd) && cmd.key.Some?
    requires Standing(w.db, cmd, funds, base) && Retrier(w.db, x, cmd)
    ensures var w', x' := CommitWorld(w, i, x), CommitSession(w, x);
            && Standing(w'.db, cmd, funds, base) && Retrier(w'.db, x', cmd)
            && (x.work == EMPTY ==> w' == w)
            && (x.work != EMPTY ==> Holder(w.db, cmd.key).None?)
  {
    CommitPublishes(w, i, x);
    if x.work != EMPTY {
      var e := EventOf(i, x).value;
      FindKeyAppend(w.db.transfers, [RowOf(cmd, e.id)], cmd.key.value);
    }
  }

  lemma {:induction false} TwoConnections(sessions: seq<Session>, i: nat, j: nat)
    requires i < j < |sessions| && HoldsConnection(sessions[i].pc) && HoldsConnection(sessions[j].pc)
    ensures ConnectionsInUse(sessions) >= 2
  {
    var n := |sessions| - 1;
    if j < n {
      TwoConnections(sessions[..n], i, j);
    } else {
      OneConnection(sessions[..n], i);
    }
  }

  lemma {:induction false} OneConnection(sessions: seq<Session>, i: nat)
    requires i < |sessions| && HoldsConnection(sessions[i].pc)
    ensures ConnectionsInUse(sessions) >= 1
  {
    var n := |sessions| - 1;
    if i < n { OneConnection(sessions[..n], i); }
  }

  /** The winner's commit does not put another retry off its way. */
  lemma RetrierGoesOn(db: Tables, db': Tables, x: Session, cmd: Cmd, funds: int, base: int)
    requires Retrier(db, x, cmd) && Holder(db, cmd.key).None?
    requires Standing(db', cmd, funds, base) && ValidCmd(cmd)
    requires Admits(cmd, funds, base, 2) || !HoldsConnection(x.pc)
    ensures Retrier(db', x, cmd)
  {
  }

  lemma RetryingInvoke(s: State, m: nat, cmd: Cmd, funds: int, base: int)
    requires Retrying(s, m, cmd, funds, base)
    ensures Retrying(Next(s, Invoke(Move(cmd))), m, cmd, funds, base)
  {
    hide Retrier;
    var s' := Next(s, Invoke(Move(cmd)));
    NewRetrier(s.world.db, cmd, |s.world.log|);
    assert s'.sessions[..|s.sessions|] == s.sessions;
  }

  lemma NewRetrier(db: Tables, cmd: Cmd, start: nat)
    ensures Retrier(db, NewSession(Move(cmd), start), cmd)
  {
  }

  lemma RetryingStep(s: State, i: nat, m: nat, cmd: Cmd, funds: int, base: int)
    requires Inv(s) && Enabled(s, Run(i)) && Retrying(s, m, cmd, funds, base) && !s.sessions[i].pc.Committing?
    ensures Retrying(Next(s, Run(i)), m, cmd, funds, base)
  {
    var x := s.sessions[i];
    hide Inv, SessionOk, WorldOk, Standing, Retrier, StepSession, Blocked;
    SessionOfInv(s, i);
    RetrierSteps(s.world, i, x, cmd, funds, base);
  }

  lemma OnlyConnection(s: State, i: nat, j: nat)
    requires Inv(s) && s.pool <= 1 && i < |s.sessions| && j < |s.sessions| && i != j
    requires HoldsConnection(s.sessions[i].pc)
    ensures !HoldsConnection(s.sessions[j].pc)
  {
    if HoldsConnection(s.sessions[j].pc) {
      TwoConnections(s.sessions, if i < j then i else j, if i < j then j else i);
    }
  }

  lemma OtherGoesOn(s: State, i: nat, j: nat, m: nat, cmd: Cmd, funds: int, base: int)
    requires Inv(s) && Retrying(s, m, cmd, funds, base) && i < |s.sessions| && s.sessions[i].pc.Committing?
    requires m <= j < |s.sessions| && j != i
    requires var w' := CommitWorld(s.world, i, s.sessions[i]);
             && Standing(w'.db, cmd, funds, base)
             && (w' == s.world || Holder(s.world.db, cmd.key).None?)
    ensures Retrier(CommitWorld(s.world, i, s.sessions[i]).db, s.sessions[j], cmd)
  {
    hide Inv, Retrier, Standing, Admits, CommitWorld;
    var w' := CommitWorld(s.world, i, s.sessions[i]);
    if w' != s.world {
      if s.pool <= 1 { OnlyConnection(s, i, j); }
      RetrierGoesOn(s.world.db, w'.db, s.sessions[j], cmd, funds, base);
    }
  }

  lemma RetryingCommit(s: State, i: nat, m: nat, cmd: Cmd, funds: int, base: int)
    requires Inv(s) && Enabled(s, Run(i)) && Retrying(s, m, cmd, funds, base) && s.sessions[i].pc.Committing?
    ensures Retrying(Next(s, Run(i)), m, cmd, funds, base)
  {
    hide Inv, SessionOk, WorldOk, Standing, Retrier, Blocked, CommitWorld, CommitSession, Admits;
    SessionOfInv(s, i);
    RetrierCommits(s.world, i, s.sessions[i], cmd, funds, base);
    forall j | m <= j < |s.sessions| && j != i
      ensures Retrier(CommitWorld(s.world, i, s.sessions[i]).db, s.sessions[j], cmd)
    {
      OtherGoesOn(s, i, j, m, cmd, funds, base);
    }
  }

  lemma RetryingAction(s: State, a: Action, m: nat, cmd: Cmd, funds: int, base: int)
    requires Inv(s) && Enabled(s, a) && Retrying(s, m, cmd, funds, base) && RaceAction(a, cmd)
    ensures Retrying(Next(s, a), m, cmd, funds, base)
  {
    hide Retrier, Standing, Inv;
    match a
    case Invoke(_) => RetryingInvoke(s, m, cmd, funds, base);
    case Run(i) =>
      if s.sessions[i].pc.Committing? {
        RetryingCommit(s, i, m, cmd, funds, base);
      } else {
        RetryingStep(s, i, m, cmd, funds, base);
      }
    case SkipIds(_) =>
  }

  lemma {:induction false} RetryingRun(
    states: seq<State>, actions: seq<Action>, k: nat, m: nat, cmd: Cmd, funds: int, base: int)
    requires Executes(states, actions) && k < |states| && Inv(states[0]) && Retrying(states[0], m, cmd, funds, base)
    requires forall a :: a in actions ==> RaceAction(a, cmd)
    ensures Retrying(states[k], m, cmd, funds, base)
  {
    hide Retrying, Inv, AllDone, Next, Enabled, RaceAction;
    if k > 0 {
      ExecutionKeepsInv(states, actions, k - 1);
      assert StepsAt(states, actions, k - 1) && actions[k - 1] in actions;
      RetryingRun(states, actions, k - 1, m, cmd, funds, base);
      RetryingAction(states[k - 1], actions[k - 1], m, cmd, funds, base);
    }
  }

  // ----- the law and its exact condition -----

  /** All calls from index m on returned one and the same transfer, their own. */
  ghost predicate OneAnswer(s: State, m: nat, cmd: Cmd) {
    exists t: Transfer :: t.key == cmd.key && Matches(t, cmd) && AllReturned(s, m, t)
  }

  ghost predicate AllReturned(s: State, m: nat, t: Transfer) {
    forall i :: m <= i < |s.sessions| ==> s.sessions[i].pc == Done(Returned(t))
  }

  /** Any number of calls with the command follow on s, interleaved in any way, without other
      activity and without database failures. */
  ghost predicate IsRace(s: State, cmd: Cmd, states: seq<State>, actions: seq<Action>) {
    Executes(states, actions) && states[0] == s && forall a :: a in actions ==> RaceAction(a, cmd)
  }

  /** In every race of the command on s, all calls agree once they are done. */
  ghost predicate RetriesAgree(s: State, cmd: Cmd) {
    forall states: seq<State>, actions: seq<Action> ::
      IsRace(s, cmd, states, actions) && AllDone(states[|actions|]) ==> OneAnswer(states[|actions|], |s.sessions|, cmd)
  }

  lemma RetryingAgrees(s: State, m: nat, cmd: Cmd, funds: int, base: int)
    requires Retrying(s, m, cmd, funds, base) && AllDone(s)
    ensures OneAnswer(s, m, cmd)
  {
    var t := if Holder(s.world.db, cmd.key).Some? then Holder(s.world.db, cmd.key).value else RowOf(cmd, 0);
    forall i | m <= i < |s.sessions| ensures s.sessions[i].pc == Done(Returned(t)) {
      assert Retrier(s.world.db, s.sessions[i], cmd);
    }
    assert AllReturned(s, m, t);
  }

  /** Retrying the same request returns the original transfer, also when the retries overlap,
      exactly when the accounts admit the command twice or the pool makes the calls take turns.
      Otherwise some interleaving refuses a retry. */
  lemma RetriesAgreeIff(s: State, cmd: Cmd)
    requires Inv(s) && AllDone(s) && ValidCmd(cmd) && cmd.key.Some? && Decide(s.world.db, cmd) == Execute
    ensures RetriesAgree(s, cmd) <==> s.pool <= 1 || CoversTwice(s.world.db, cmd)
  {
    var db := s.world.db;
    if s.pool <= 1 || CoversTwice(db, cmd) {
      var funds, base := db.accounts[cmd.source].balance, db.accounts[cmd.dest].balance;
      assert Retrying(s, |s.sessions|, cmd, funds, base);
      hide Inv, Retrying, AllDone, StepsAt, RaceAction, OneAnswer;
      forall states: seq<State>, actions: seq<Action>
        | IsRace(s, cmd, states, actions) && AllDone(states[|actions|])
        ensures OneAnswer(states[|actions|], |s.sessions|, cmd)
      {
        RetryingRun(states, actions, |actions|, |s.sessions|, cmd, funds, base);
        RetryingAgrees(states[|actions|], |s.sessions|, cmd, funds, base);
      }
    } else {
      var states, actions := RetryCanBeRefused(s, cmd);
      assert IsRace(s, cmd, states, actions);
      RefusalDisagrees(s, states[|actions|], cmd);
    }
  }

  lemma RefusalDisagrees(s: State, t: State, cmd: Cmd)
    requires RetryRefused(s, t, cmd)
    ensures AllDone(t) && !OneAnswer(t, |s.sessions|, cmd)
  {
    assert t.sessions[|s.sessions|].pc.outcome.Failed?;
  }

  // ----- when refusals are atomic -----

  /** t is s after calls with the command have been made and have run without database failures.
      Where the atomic decision was not to execute the command, nothing has been committed. */
  ghost predicate Raced(s: State, t: State, cmd: Cmd) {
    && |s.sessions| <= |t.sessions|
    && (forall i :: 0 <= i < |s.sessions| ==> t.sessions[i] == s.sessions[i])
    && (forall i :: |s.sessions| <= i < |t.sessions| ==> t.sessions[i].call == Move(cmd) && Unfailed(t.sessions[i]))
    && (Decide(s.world.db, cmd) != Execute ==>
          && SameTables(t.world, s.world)
          && forall i :: |s.sessions| <= i < |t.sessions| ==> t.sessions[i].start == |s.world.log|)
  }

  lemma OnlyExecutableCommits(w: World, i: nat, x: Session, cmd: Cmd)
    requires WorldOk(w) && SessionOk(w, i, x) && x.pc.Committing? && x.call == Move(cmd)
    ensures CommitWorld(w, i, x) == w || Decide(w.db, cmd) == Execute
    ensures Unfailed(CommitSession(w, x))
    ensures CommitSession(w, x).call == x.call && CommitSession(w, x).start == x.start
  {
    CommitPublishes(w, i, x);
  }

  lemma RacedCommit(s: State, t: State, i: nat, cmd: Cmd)
    requires Inv(t) && Enabled(t, Run(i)) && AllDone(s) && Raced(s, t, cmd) && t.sessions[i].pc.Committing?
    ensures Raced(s, Next(t, Run(i)), cmd)
  {
    var x := t.sessions[i];
    assert i >= |s.sessions|;
    hide Inv, SessionOk, WorldOk, Blocked, CommitWorld, CommitSession, StepSession, Unfailed, Decide;
    SessionOfInv(t, i);
    OnlyExecutableCommits(t.world, i, x, cmd);
  }

  lemma RacedStep(s: State, t: State, i: nat, cmd: Cmd)
    requires Enabled(t, Run(i)) && AllDone(s) && Raced(s, t, cmd) && !t.sessions[i].pc.Committing?
    ensures Raced(s, Next(t, Run(i)), cmd)
  {
    hide StepSession, Unfailed, Blocked, Decide;
    assert i >= |s.sessions|;
    StepIsUnfailed(t.world, t.sessions[i]);
  }

  lemma RacedNothing(s: State, cmd: Cmd)
    ensures Raced(s, s, cmd)
  {
  }

  lemma {:induction false} RacedRun(states: seq<State>, actions: seq<Action>, k: nat, cmd: Cmd)
    requires Executes(states, actions) && k < |states| && Inv(states[0]) && AllDone(states[0])
    requires forall a :: a in actions ==> RaceAction(a, cmd)
    ensures Raced(states[0], states[k], cmd)
  {
    hide Raced, Inv, AllDone, Next, Enabled, RaceAction;
    RacedNothing(states[0], cmd);
    if k > 0 {
      assert StepsAt(states, actions, k - 1) && actions[k - 1] in actions;
      ExecutionKeepsInv(states, actions, k - 1);
      RacedRun(states, actions, k - 1, cmd);
      RacedAction(states[0], states[k - 1], actions[k - 1], cmd);
    }
  }

  lemma RacedAction(s: State, t: State, a: Action, cmd: Cmd)
    requires Inv(t) && Enabled(t, a) && AllDone(s) && Raced(s, t, cmd) && RaceAction(a, cmd)
    ensures Raced(s, Next(t, a), cmd)
  {
    hide Inv, Decide;
    match a
    case Run(i) => if t.sessions[i].pc.Committing? { RacedCommit(s, t, i, cmd); } else { RacedStep(s, t, i, cmd); }
    case _ =>
  }

  /** Every refusal of a call from index m on is the atomic decision of one moment of that call. */
  ghost predicate AtomicRefusals(t: State, m: nat, cmd: Cmd) {
    forall i :: m <= i < |t.sessions| && t.sessions[i].pc.Done? && t.sessions[i].pc.outcome.Failed? ==>
      RefusedAtomically(t.world, t.sessions[i].start, cmd, t.sessions[i].pc.outcome.error)
  }

  /** In every race of the command on s, every refusal is an atomic decision. */
  ghost predicate RefusalsAreAtomic(s: State, cmd: Cmd) {
    forall states: seq<State>, actions: seq<Action> ::
      IsRace(s, cmd, states, actions) ==> AtomicRefusals(states[|actions|], |s.sessions|, cmd)
  }

  lemma RacedRefusal(s: State, t: State, i: nat, cmd: Cmd, e: Error)
    requires Inv(t) && Raced(s, t, cmd) && |s.sessions| <= i < |t.sessions| && t.sessions[i].pc == Done(Failed(e))
    requires cmd.key.None? || Decide(s.world.db, cmd) != Execute
    ensures RefusedAtomically(t.world, t.sessions[i].start, cmd, e)
  {
    var w, x := t.world, t.sessions[i];
    hide Inv, SessionOk, WorldOk;
    SessionOfInv(t, i);
    SessionAnswers(w, i, x, cmd);
    if cmd.key.None? {
      RefusalIsAtomic(w, x.start, i, cmd, e, false);
    } else if m: nat, n: nat :| RefusedAt(w, x.start, cmd, e, m, n) {
      assert m == n;
    }
  }

  lemma RetryingRefusesNone(t: State, m: nat, cmd: Cmd, funds: int, base: int)
    requires Retrying(t, m, cmd, funds, base)
    ensures AtomicRefusals(t, m, cmd)
  {
    forall i | m <= i < |t.sessions| && t.sessions[i].pc.Done? ensures t.sessions[i].pc.outcome.Returned? {
      assert Retrier(t.world.db, t.sessions[i], cmd);
    }
  }

  lemma RefusalIsNotAtomic(s: State, t: State, cmd: Cmd)
    requires RetryRefused(s, t, cmd)
    ensures !AtomicRefusals(t, |s.sessions|, cmd)
  {
    var i := |s.sessions|;
    assert t.sessions[i].pc.Done? && t.sessions[i].pc.outcome.Failed?;
    assert !RefusedAtomically(t.world, |s.world.log|, cmd, t.sessions[i].pc.outcome.error);
  }

  /** A refusal is the atomic decision of some moment of its call, in every interleaving of calls
      with one command from a quiet state, exactly if the command has no key, or could not be
      executed anyway, or could be executed twice, or the pool makes the calls take turns. */
  lemma RefusalsAreAtomicIff(s: State, cmd: Cmd)
    requires Inv(s) && AllDone(s) && ValidCmd(cmd)
    ensures RefusalsAreAtomic(s, cmd) <==>
            || cmd.key.None? || Decide(s.world.db, cmd) != Execute
            || s.pool <= 1 || CoversTwice(s.world.db, cmd)
  {
    var db, m := s.world.db, |s.sessions|;
    if cmd.key.None? || Decide(db, cmd) != Execute {
      RefusalsAtomicWithoutWinner(s, cmd);
    } else if s.pool <= 1 || CoversTwice(db, cmd) {
      var funds, base := db.accounts[cmd.source].balance, db.accounts[cmd.dest].balance;
      assert Retrying(s, m, cmd, funds, base);
      hide Inv, Retrying, AllDone, StepsAt, RaceAction, AtomicRefusals;
      forall states: seq<State>, actions: seq<Action>
        | IsRace(s, cmd, states, actions)
        ensures AtomicRefusals(states[|actions|], m, cmd)
      {
        RetryingRun(states, actions, |actions|, m, cmd, funds, base);
        RetryingRefusesNone(states[|actions|], m, cmd, funds, base);
      }
    } else {
      var states, actions := RetryCanBeRefused(s, cmd);
      assert IsRace(s, cmd, states, actions);
      RefusalIsNotAtomic(s, states[|actions|], cmd);
    }
  }

  lemma RefusalsAtomicWithoutWinner(s: State, cmd: Cmd)
    requires Inv(s) && AllDone(s) && (cmd.key.None? || Decide(s.world.db, cmd) != Execute)
    ensures RefusalsAreAtomic(s, cmd)
  {
    hide Inv, Raced, AllDone, StepsAt, RaceAction, Decide, RefusedAtomically;
    forall states: seq<State>, actions: seq<Action>
      | IsRace(s, cmd, states, actions)
      ensures AtomicRefusals(states[|actions|], |s.sessions|, cmd)
    {
      var t := states[|actions|];
      RacedRun(states, actions, |actions|, cmd);
      ExecutionKeepsInv(states, actions, |actions|);
      forall i | |s.sessions| <= i < |t.sessions| && t.sessions[i].pc.Done? && t.sessions[i].pc.outcome.Failed?
        ensures RefusedAtomically(t.world, t.sessions[i].start, cmd, t.sessions[i].pc.outcome.error)
      {
        RacedRefusal(s, t, i, cmd, t.sessions[i].pc.outcome.error);
      }
    }
  }
}
