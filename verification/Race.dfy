/**
 The overdraft race of test/integration/concurrency_test.go: any number of equal transfers
 without a key from one account, in every interleaving.
 */
module Race {
  import opened Errors
  import opened Money
  import opened Schema
  import opened Transactions
  import opened Machine
  import opened Invariant
  import opened Progress

  /** How many of the calls from index m on have returned a transfer. */
  function Successes(sessions: seq<Session>, m: nat): nat {
    if |sessions| <= m then 0
    else
      var pc := sessions[|sessions| - 1].pc;
      Successes(sessions[..|sessions| - 1], m) + if pc.Done? && pc.outcome.Returned? then 1 else 0
  }

  /** The accounts do not admit the command once more, and e says why: the source does not cover
      it, or the destination has no room for it, nor for all that the two hold. */
  predicate Spent(db: Tables, cmd: Cmd, e: Error) {
    var source, dest := BalanceIn(db.accounts, cmd.source), BalanceIn(db.accounts, cmd.dest);
    || (e == VerdictError(Insufficient) && source < cmd.amount)
    || (e == VerdictError(TooLarge) && dest + cmd.amount >= MAX_UNITS && source + dest >= MAX_UNITS)
  }

  /** A transfer of the race: it has met no failure but spent accounts, and if it has met that,
      they are still spent. */
  predicate Racer(db: Tables, x: Session, cmd: Cmd) {
    && x.call == Move(cmd)
    && cmd.source in db.accounts && cmd.dest in db.accounts
    && match x.pc
       case Lookup => false
       case AwaitRefetch => false
       case Refetching => false
       case Locking(todo) => (cmd.source in x.held || cmd.source in todo) && (cmd.dest in x.held || cmd.dest in todo)
       case Committing => x.work != EMPTY
       case RollingBack(e) => Spent(db, cmd, e)
       case Done(Created) => false
       case Done(Failed(e)) => Spent(db, cmd, e)
       case _ => true
  }

  /** The two balances after won of the transfers. */
  predicate Score(db: Tables, won: nat, cmd: Cmd, funds: int, base: int) {
    && cmd.source in db.accounts && db.accounts[cmd.source].balance == funds - won * cmd.amount
    && cmd.dest in db.accounts && db.accounts[cmd.dest].balance == base + won * cmd.amount
  }

  /** The first m calls are over; all others race, and the two balances tell how many have won. */
  ghost predicate Racing(s: State, m: nat, cmd: Cmd, funds: int, base: int) {
    && ValidCmd(cmd) && cmd.key.None?
    && m <= |s.sessions|
    && Score(s.world.db, Successes(s.sessions, m), cmd, funds, base)
    && (forall i :: 0 <= i < m ==> s.sessions[i].pc.Done?)
    && (forall i :: m <= i < |s.sessions| ==> Racer(s.world.db, s.sessions[i], cmd))
  }

  lemma {:induction false} SuccessesAfterUpdate(sessions: seq<Session>, m: nat, i: nat, x: Session)
    requires m <= i < |sessions| && !sessions[i].pc.Done?
    ensures Successes(sessions[i := x], m) ==
            Successes(sessions, m) + if x.pc.Done? && x.pc.outcome.Returned? then 1 else 0
  {
    var n := |sessions| - 1;
    if i < n {
      SuccessesAfterUpdate(sessions[..n], m, i, x);
      assert sessions[i := x][..n] == sessions[..n][i := x];
    } else {
      assert sessions[i := x][..n] == sessions[..n];
    }
  }

  lemma RacerReads(w: World, i: nat, x: Session, cmd: Cmd)
    requires WorldOk(w) && SessionOk(w, i, x) && ValidCmd(cmd) && cmd.key.None? && Racer(w.db, x, cmd)
    requires x.pc.Begin? || x.pc.Snapshot? || x.pc.Locking? || x.pc.RollingBack?
    ensures Racer(w.db, StepSession(w, x).0, cmd)
    ensures StepSession(w, x).0.pc.Done? ==> StepSession(w, x).0.pc.outcome.Failed?
  {
    hide PendingOk, History;
    HeldIsCommitted(w, i, x);
    if x.pc.Snapshot? {
      LockOrderFacts(w.db, cmd);
    } else if x.pc.Locking? && x.pc.todo != [] {
      var todo := x.pc.todo;
      assert forall a :: a in todo <==> a == todo[0] || a in todo[1..];
    }
  }

  lemma HeldIsCommitted(w: World, i: nat, x: Session)
    requires SessionOk(w, i, x)
    ensures forall a :: a in x.held ==> a in w.db.accounts && x.held[a] == w.db.accounts[a]
  {
  }

  lemma RacerWrites(w: World, i: nat, x: Session, cmd: Cmd)
    requires WorldOk(w) && SessionOk(w, i, x) && ValidCmd(cmd) && cmd.key.None? && Racer(w.db, x, cmd)
    requires || x.pc.UpdateSource? || x.pc.UpdateDest? || x.pc.DrawTransferId?
             || x.pc.WriteTransfer? || x.pc.WriteDebit? || x.pc.WriteCredit?
    ensures Racer(w.db, StepSession(w, x).0, cmd) && !StepSession(w, x).0.pc.Done?
  {
    if x.pc.WriteCredit? { assert StepSession(w, x).0.work.ledger != []; }
  }

  lemma RacerSteps(w: World, i: nat, x: Session, cmd: Cmd)
    requires WorldOk(w) && SessionOk(w, i, x) && !x.pc.Committing? && !x.pc.Done? && ValidCmd(cmd) && cmd.key.None?
    requires Racer(w.db, x, cmd)
    ensures var x' := StepSession(w, x).0;
            Racer(w.db, x', cmd) && (x'.pc.Done? ==> x'.pc.outcome.Failed?)
  {
    assert x.call == Move(cmd) && ShapeOfMove(x, cmd) && !x.pc.Lookup? && !x.pc.AwaitRefetch? && !x.pc.Refetching?;
    hide WorldOk, SessionOk, Racer, StepSession, ShapeOfMove;
    MoveStaysInMove(x, cmd);
    if x.pc.Begin? || x.pc.Snapshot? || x.pc.Locking? || x.pc.RollingBack? {
      RacerReads(w, i, x, cmd);
    } else {
      RacerWrites(w, i, x, cmd);
    }
  }

  lemma RacerCommits(w: World, i: nat, x: Session, cmd: Cmd, won: nat, funds: int, base: int)
    requires WorldOk(w) && SessionOk(w, i, x) && x.pc.Committing? && ValidCmd(cmd)
    requires Score(w.db, won, cmd, funds, base) && Racer(w.db, x, cmd)
    ensures var db', x' := CommitWorld(w, i, x).db, CommitSession(w, x);
            && Score(db', won + 1, cmd, funds, base) && Racer(db', x', cmd)
            && x'.pc.Done? && x'.pc.outcome.Returned?
            && BalanceIn(db'.accounts, cmd.source) == BalanceIn(w.db.accounts, cmd.source) - cmd.amount
            && BalanceIn(db'.accounts, cmd.dest) == BalanceIn(w.db.accounts, cmd.dest) + cmd.amount
  {
    CommitPublishes(w, i, x);
    assert (won + 1) * cmd.amount == won * cmd.amount + cmd.amount;
  }

  lemma RacerStays(db: Tables, db': Tables, x: Session, cmd: Cmd)
    requires Racer(db, x, cmd) && cmd.source in db'.accounts && cmd.dest in db'.accounts
    requires BalanceIn(db'.accounts, cmd.source) == BalanceIn(db.accounts, cmd.source) - cmd.amount
    requires BalanceIn(db'.accounts, cmd.dest) == BalanceIn(db.accounts, cmd.dest) + cmd.amount
    requires cmd.amount > 0
    ensures Racer(db', x, cmd)
  {
  }

  lemma RacingInvoke(s: State, m: nat, cmd: Cmd, funds: int, base: int)
    requires Racing(s, m, cmd, funds, base)
    ensures Racing(Next(s, Invoke(Move(cmd))), m, cmd, funds, base)
  {
  }

  lemma RacingStep(s: State, i: nat, m: nat, cmd: Cmd, funds: int, base: int)
    requires Inv(s) && Enabled(s, Run(i)) && Racing(s, m, cmd, funds, base) && !s.sessions[i].pc.Committing?
    ensures Racing(Next(s, Run(i)), m, cmd, funds, base)
  {
    hide Inv, SessionOk, WorldOk, Racer, Score, StepSession, Blocked, Successes;
    SessionOfInv(s, i);
    RacerSteps(s.world, i, s.sessions[i], cmd);
    SuccessesAfterUpdate(s.sessions, m, i, StepSession(s.world, s.sessions[i]).0);
  }

  lemma RacingCommit(s: State, i: nat, m: nat, cmd: Cmd, funds: int, base: int)
    requires Inv(s) && Enabled(s, Run(i)) && Racing(s, m, cmd, funds, base) && s.sessions[i].pc.Committing?
    ensures Racing(Next(s, Run(i)), m, cmd, funds, base)
  {
    hide Inv, SessionOk, WorldOk, Racer, Score, CommitWorld, CommitSession, Blocked, Successes;
    SessionOfInv(s, i);
    var x, s' := s.sessions[i], Next(s, Run(i));
    RacerCommits(s.world, i, x, cmd, Successes(s.sessions, m), funds, base);
    SuccessesAfterUpdate(s.sessions, m, i, CommitSession(s.world, x));
    forall j | m <= j < |s'.sessions| && j != i ensures Racer(s'.world.db, s'.sessions[j], cmd) {
      RacerStays(s.world.db, s'.world.db, s.sessions[j], cmd);
    }
  }

  lemma {:induction false} RacingRun(
    states: seq<State>, actions: seq<Action>, j: nat, k: nat, cmd: Cmd, funds: int, base: int)
    requires IsRun(states, actions) && j <= k < |states| && Racing(states[j], |states[j].sessions|, cmd, funds, base)
    requires forall n :: j <= n < k ==> RaceAction(actions[n], cmd)
    ensures Racing(states[k], |states[j].sessions|, cmd, funds, base)
    decreases k
  {
    if j < k {
      RunHasInv(states, actions, k - 1);
      assert StepsAt(states, actions, k - 1);
      hide Inv, Racing, Next, Enabled, RaceAction, IsRun, Executes;
      RacingRun(states, actions, j, k - 1, cmd, funds, base);
      RacingAction(states[k - 1], actions[k - 1], |states[j].sessions|, cmd, funds, base);
    }
  }

  lemma RacingAction(s: State, a: Action, m: nat, cmd: Cmd, funds: int, base: int)
    requires Inv(s) && Enabled(s, a) && Racing(s, m, cmd, funds, base) && RaceAction(a, cmd)
    ensures Racing(Next(s, a), m, cmd, funds, base)
  {
    match a
    case Invoke(_) => RacingInvoke(s, m, cmd, funds, base);
    case Run(i) =>
      if s.sessions[i].pc.Committing? {
        RacingCommit(s, i, m, cmd, funds, base);
      } else {
        RacingStep(s, i, m, cmd, funds, base);
      }
    case SkipIds(_) =>
  }

  // ----- the count -----

  /** won transfers of one amount fit into the total, and if one more does not, they are all. */
  lemma QuotaIsExact(won: nat, total: int, amount: int)
    requires amount > 0 && won * amount <= total
    ensures won <= total / amount
    ensures total - won * amount < amount ==> won == total / amount
  {
    var q := total / amount;
    assert total == q * amount + total % amount;
    ProductsAreMonotone(q + 1, won, amount);
    ProductsAreMonotone(won + 1, q, amount);
  }

  lemma ProductsAreMonotone(a: int, b: int, d: int)
    requires d > 0
    ensures a <= b ==> a * d <= b * d
  {
  }

  lemma QuotaIsMonotone(small: nat, large: nat, amount: int)
    requires amount > 0 && small <= large
    ensures small / amount <= large / amount
  {
    QuotaIsExact(small / amount, large, amount) by {
      assert small == small / amount * amount + small % amount;
    }
  }

  lemma {:induction false} SuccessesBound(db: Tables, sessions: seq<Session>, m: nat, cmd: Cmd)
    requires m <= |sessions|
    requires forall i :: m <= i < |sessions| ==> sessions[i].pc.Done? && Racer(db, sessions[i], cmd)
    ensures Successes(sessions, m) <= |sessions| - m
    ensures Successes(sessions, m) < |sessions| - m ==> exists e :: Spent(db, cmd, e)
  {
    if m < |sessions| { SuccessesBound(db, sessions[..|sessions| - 1], m, cmd); }
  }

  /** How many transfers of the amount the source covers and the destination has room for. */
  function Quota(funds: int, base: int, amount: int): int
    requires amount > 0
  {
    Min(funds / amount, (MAX_UNITS - 1 - base) / amount)
  }

  /** The race is over, with exactly as many winners as the two accounts admit. */
  ghost predicate RaceDecided(s: State, m: nat, cmd: Cmd, funds: int, base: int)
    requires cmd.amount > 0
  {
    && m <= |s.sessions|
    && Successes(s.sessions, m) == Min(|s.sessions| - m, Quota(funds, base, cmd.amount))
    && Score(s.world.db, Successes(s.sessions, m), cmd, funds, base)
    && forall i :: m <= i < |s.sessions| ==>
         && s.sessions[i].pc.Done?
         && match s.sessions[i].pc.outcome
            case Created => false
            case Returned(_) => true
            case Failed(e) => Spent(s.world.db, cmd, e)
  }

  lemma RacingDecides(s: State, m: nat, cmd: Cmd, funds: int, base: int)
    requires Racing(s, m, cmd, funds, base) && AllDone(s) && Bounded(s.world.db)
    ensures RaceDecided(s, m, cmd, funds, base)
  {
    var won, a := Successes(s.sessions, m), cmd.amount;
    SuccessesBound(s.world.db, s.sessions, m, cmd);
    QuotaIsExact(won, funds, a);
    QuotaIsExact(won, MAX_UNITS - 1 - base, a);
  }

  /** Exact success count: n calls transfer the same amount without a key from a source that
      holds funds to a destination that holds base, nothing else happens, and the database fails
      nothing. Then every complete interleaving ends with exactly as many successes as there are
      calls, or as the source covers, or as the destination has room for, whichever is least; and
      every other call reports insufficient funds or the overflow, whichever is the case. */
  lemma ExactSuccessCount(states: seq<State>, actions: seq<Action>, j: nat, k: nat, cmd: Cmd)
    requires IsRun(states, actions) && j <= k < |states| && AllDone(states[j]) && AllDone(states[k])
    requires ValidCmd(cmd) && cmd.key.None?
    requires cmd.source in states[j].world.db.accounts && cmd.dest in states[j].world.db.accounts
    requires forall n :: j <= n < k ==> RaceAction(actions[n], cmd)
    ensures RaceDecided(states[k], |states[j].sessions|, cmd, states[j].world.db.accounts[cmd.source].balance,
                        states[j].world.db.accounts[cmd.dest].balance)
  {
    var m, accounts := |states[j].sessions|, states[j].world.db.accounts;
    var funds, base := accounts[cmd.source].balance, accounts[cmd.dest].balance;
    NoneYet(states[j].sessions);
    RacingRun(states, actions, j, k, cmd, funds, base);
    RunHasInv(states, actions, k);
    assert Bounded(states[k].world.db);
    hide Inv, IsRun, RaceAction, Racing;
    RacingDecides(states[k], m, cmd, funds, base);
  }

  /** With room for all that the two accounts hold, such as in an empty destination, the count is
      min(n, funds div amount), and every other call reports insufficient funds. */
  lemma RoomForAll(s: State, m: nat, cmd: Cmd, funds: nat, base: nat)
    requires cmd.amount > 0 && funds + base < MAX_UNITS && RaceDecided(s, m, cmd, funds, base)
    ensures Successes(s.sessions, m) == Min(|s.sessions| - m, funds / cmd.amount)
    ensures forall i :: m <= i < |s.sessions| && s.sessions[i].pc.outcome.Failed? ==>
              s.sessions[i].pc.outcome.error == Sentinel(InsufficientFunds)
  {
    QuotaIsMonotone(funds, MAX_UNITS - 1 - base, cmd.amount);
  }

  lemma NoneYet(sessions: seq<Session>)
    ensures Successes(sessions, |sessions|) == 0
  {
  }
}
