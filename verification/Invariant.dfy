/**
 The inductive invariant of the step machine, kept by every step of every session, by every
 database failure and by every new call.
 */
module Invariant {
  import opened Options
  import opened Errors
  import opened Money
  import opened Schema
  import opened Transactions
  import opened Machine

  // ----- one session -----

  /** A transfer id that is drawn but not inserted yet. */
  function Drawn(x: Session): set<nat> {
    if x.pc.WriteTransfer? then {x.pc.id} else {}
  }

  function FootprintAt(x: Session): Footprint { FootprintOf(x.held, x.work, Drawn(x)) }

  predicate Idle(x: Session) { x.held == map[] && x.work == EMPTY }

  /** Both rows are held, the funds were checked, and the uncommitted rows are those of the stage. */
  predicate AtStage(x: Session, cmd: Cmd, stage: Stage) {
    BothHeld(x.held, cmd) && x.work == Written(x.held, cmd, stage)
  }

  predicate DestFits(x: Session, cmd: Cmd) {
    cmd.dest in x.held && x.held[cmd.dest].balance + cmd.amount < MAX_UNITS
  }

  /** The transaction is ready to publish a whole transfer. */
  predicate ReadyToPublish(x: Session, cmd: Cmd) {
    && |x.work.transfers| == 1 && |x.work.ledger| == 2
    && var id, debit, credit := x.work.transfers[0].id, x.work.ledger[0].id, x.work.ledger[1].id;
    && AtStage(x, cmd, CreditWritten(id, debit, credit))
    && DestFits(x, cmd)
    && debit < credit
    && x.result == Some(RowOf(cmd, id))
  }

  ghost predicate ShapeOfMove(x: Session, cmd: Cmd) {
    match x.pc
    case Locking(todo) =>
      && x.work == EMPTY
      && x.held.Keys <= {cmd.source, cmd.dest}
      && (forall a :: a in todo ==> a == cmd.source || a == cmd.dest)
      && (forall m, n :: 0 <= m < n < |todo| ==> todo[m] < todo[n])
      && (forall a, b :: a in x.held && b in todo ==> a < b)
    case RollingBack(_) => x.work == EMPTY && x.held.Keys <= {cmd.source, cmd.dest}
    case Lookup => Idle(x) && cmd.key.Some?
    case UpdateSource => AtStage(x, cmd, Untouched)
    case UpdateDest => AtStage(x, cmd, SourceWritten)
    case DrawTransferId => AtStage(x, cmd, DestWritten) && DestFits(x, cmd)
    case WriteTransfer(_) => AtStage(x, cmd, DestWritten) && DestFits(x, cmd)
    case WriteDebit(id) => AtStage(x, cmd, RowWritten(id)) && DestFits(x, cmd)
    case WriteCredit(id) =>
      |x.work.ledger| == 1 && AtStage(x, cmd, DebitWritten(id, x.work.ledger[0].id)) && DestFits(x, cmd)
    case Committing => (Idle(x) && x.result.Some?) || ReadyToPublish(x, cmd)
    case WriteAccount => false
    case WriteDeposit => false
    case _ => Idle(x)
  }

  ghost predicate ShapeOfOpen(x: Session, account: int, balance: int) {
    && x.held == map[]
    && match x.pc
       case WriteDeposit => balance > 0 && x.work == OpeningRows(account, balance, None)
       case Committing =>
         && (|x.work.deposits| == 1 <==> balance > 0)
         && x.work ==
            OpeningRows(account, balance, if |x.work.deposits| == 1 then Some(x.work.deposits[0].id) else None)
       case Begin => Idle(x)
       case WriteAccount => Idle(x)
       case RollingBack(_) => Idle(x)
       case Done(_) => Idle(x)
       case _ => false
  }

  /** The lookup found the key unused at some moment since the invocation. */
  ghost predicate Missed(w: World, x: Session, cmd: Cmd) {
    x.start <= x.seen < |w.past| && KeyFree(w.past[x.seen], cmd.key)
  }

  /** At some moment since the invocation the tables said v about the command. */
  ghost predicate Decided(w: World, x: Session, cmd: Cmd, v: Verdict) {
    x.start <= x.at < |w.past| && Decide(w.past[x.at], cmd) == v
  }

  /** The key was unused at one moment since the invocation, and accounts and funds gave the
      refusing verdict v at a moment not before it. */
  ghost predicate Refused(w: World, x: Session, cmd: Cmd, v: Verdict) {
    && Missed(w, x, cmd)
    && x.seen <= x.at < |w.past|
    && DecideFunds(w.past[x.at], cmd) == v
    && Refuses(v)
  }

  /** Why a transfer call may report an error. */
  ghost predicate MoveErrorExplained(w: World, x: Session, cmd: Cmd, error: Error) {
    || IsDbFailure(error)
    || (error == VerdictError(Conflict) && Decided(w, x, cmd, Conflict))
    || (exists v :: Refused(w, x, cmd, v) && error == VerdictError(v))
  }

  ghost predicate LostRace(w: World, cmd: Cmd) {
    Holder(w.db, cmd.key).Some?
  }

  ghost predicate OpenErrorExplained(w: World, x: Session, account: int, error: Error) {
    || IsDbFailure(error)
    || (error == Sentinel(AccountAlreadyExists) && x.start <= x.at < |w.past| && account in w.past[x.at].accounts)
  }

  /** The entry of the commit log that session i put there at its commit. */
  ghost predicate OwnEvent(w: World, i: nat, x: Session, e: Event) {
    x.start <= x.at < |w.log| && w.log[x.at] == e && e.session == i
  }

  ghost predicate ExecutedItself(w: World, i: nat, x: Session, cmd: Cmd, t: Transfer) {
    && Missed(w, x, cmd)
    && x.at < |w.log|
    && w.log[x.at].Moved?
    && OwnEvent(w, i, x, Moved(i, cmd, t.id, w.log[x.at].debit, w.log[x.at].credit))
    && t == RowOf(cmd, t.id)
  }

  ghost predicate HistoryOfMove(w: World, i: nat, x: Session, cmd: Cmd) {
    match x.pc
    case Begin => true
    case Lookup => true
    case Snapshot => Missed(w, x, cmd)
    case Locking(todo) =>
      && Missed(w, x, cmd)
      && x.seen <= x.at < |w.past|
      && (forall a :: a in {cmd.source, cmd.dest} ==> (a in x.held || a in todo <==> a in w.past[x.at].accounts))
      && (forall a :: a in todo ==> a in w.db.accounts)
    case RollingBack(error) =>
      MoveErrorExplained(w, x, cmd, error) || (error == Sentinel(DuplicateIdempotencyKey) && LostRace(w, cmd))
    case AwaitRefetch => LostRace(w, cmd)
    case Refetching => LostRace(w, cmd)
    case Committing =>
      if x.work == EMPTY then x.result.Some? && Decided(w, x, cmd, Replayed(x.result.value)) else Missed(w, x, cmd)
    case Done(Created) => false
    case Done(Returned(t)) => ExecutedItself(w, i, x, cmd, t) || Decided(w, x, cmd, Replayed(t))
    case Done(Failed(error)) => MoveErrorExplained(w, x, cmd, error)
    case _ => Missed(w, x, cmd)
  }

  ghost predicate HistoryOfOpen(w: World, i: nat, x: Session, account: int, balance: int) {
    match x.pc
    case RollingBack(error) => OpenErrorExplained(w, x, account, error)
    case Done(Created) =>
      x.at < |w.log| && w.log[x.at].Opened? && OwnEvent(w, i, x, Opened(i, account, balance, w.log[x.at].deposit))
    case Done(Returned(t)) => false
    case Done(Failed(error)) => OpenErrorExplained(w, x, account, error)
    case _ => true
  }

  ghost predicate Shape(x: Session) {
    match x.call
    case Move(cmd) => ShapeOfMove(x, cmd)
    case Open(account, balance) => ShapeOfOpen(x, account, balance)
  }

  ghost predicate History(w: World, i: nat, x: Session) {
    && x.start <= |w.log|
    && match x.call
       case Move(cmd) => HistoryOfMove(w, i, x, cmd)
       case Open(account, balance) => HistoryOfOpen(w, i, x, account, balance)
  }

  ghost predicate SessionOk(w: World, i: nat, x: Session)
  {
    && ValidCall(x.call)
    && x.attempt < MAX_TX_RETRIES
    && |w.past| == |w.log| + 1
    && PendingOk(w, x.held, x.work, Drawn(x))
    && Shape(x)
    && History(w, i, x)
  }

  // ----- all sessions -----

  /** No two sessions own the same row, key, account id or sequence value. */
  ghost predicate AllApart(sessions: seq<Session>) {
    forall i, j :: 0 <= i < |sessions| && 0 <= j < |sessions| && i != j ==>
      Apart(FootprintAt(sessions[i]), FootprintAt(sessions[j]))
  }

  ghost predicate EventAnswered(e: Event, x: Session) {
    match e
    case Moved(_, cmd, id, _, _) => x.call == Move(cmd) && x.pc == Done(Returned(RowOf(cmd, id)))
    case Opened(_, account, balance, _) => x.call == Open(account, balance) && x.pc == Done(Created)
  }

  /** Every committed effect belongs to a call that reported it as its success. */
  ghost predicate EventsOwned(log: seq<Event>, sessions: seq<Session>) {
    forall n {:trigger log[n]} :: 0 <= n < |log| ==>
      && log[n].session < |sessions|
      && EventAnswered(log[n], sessions[log[n].session])
      && sessions[log[n].session].at == n
  }

  ghost predicate SessionsOk(w: World, sessions: seq<Session>) {
    forall i :: 0 <= i < |sessions| ==> SessionOk(w, i, sessions[i])
  }

  ghost predicate Inv(s: State) {
    && WorldOk(s.world)
    && SessionsOk(s.world, s.sessions)
    && AllApart(s.sessions)
    && EventsOwned(s.world.log, s.sessions)
    && ConnectionsInUse(s.sessions) <= s.pool
  }

  lemma SessionOfInv(s: State, i: nat)
    requires Inv(s) && i < |s.sessions|
    ensures WorldOk(s.world) && SessionOk(s.world, i, s.sessions[i])
  {
    hide SessionOk, WorldOk;
  }

  // ----- growth of the world -----

  lemma HistoryGrows(w: World, w': World, i: nat, x: Session)
    requires WorldOk(w) && WorldOk(w') && Grows(w, w')
    requires History(w, i, x)
    ensures History(w', i, x)
  {
    assert forall n {:trigger w'.past[n]} :: 0 <= n <= |w.log| ==> w'.past[n] == w.past[n];
    assert forall n {:trigger w'.log[n]} :: 0 <= n < |w.log| ==> w'.log[n] == w.log[n];
    WorldExtends(w, w');
    if x.call.Move? {
      var cmd := x.call.cmd;
      if LostRace(w, cmd) { FoundStaysFound(w.db, w'.db, cmd.key); }
      if Missed(w, x, cmd) { assert Missed(w', x, cmd); }
      if error :| MoveErrorExplained(w, x, cmd, error) && (x.pc == RollingBack(error) || x.pc == Done(Failed(error))) {
        if v :| Refused(w, x, cmd, v) && error == VerdictError(v) {
          assert Refused(w', x, cmd, v);
        }
        assert MoveErrorExplained(w', x, cmd, error);
      }
    }
  }

  /** Sequence values that others draw or lose do not matter to a session. */
  lemma IdsDoNotDisturb(w: World, ids: Ids, i: nat, x: Session)
    requires WorldOk(w) && IdsAtMost(w.ids, ids) && SessionOk(w, i, x)
    ensures SessionOk(w.(ids := ids), i, x)
  {
    MoreIds(w, ids);
    HistoryGrows(w, w.(ids := ids), i, x);
  }

  /** A commit of another transaction does not matter to a session either. */
  lemma CommitDoesNotDisturb(w: World, e: Event, i: nat, x: Session)
    requires WorldOk(w) && SessionOk(w, i, x)
    requires Legal(w.db, e) && EventIdsBelow(e, w.ids) && Apart(EventFootprint(e), FootprintAt(x))
    ensures SessionOk(Committed(w, e), i, x)
  {
    CommittedOk(w, e);
    Undisturbed(w, x.held, x.work, Drawn(x), e);
    HistoryGrows(w, Committed(w, e), i, x);
  }

  // ----- one statement of one session -----

  lemma AfterAttemptOk(w: World, i: nat, x: Session, error: Error)
    requires WorldOk(w) && ValidCall(x.call) && x.attempt < MAX_TX_RETRIES && x.start <= |w.log|
    requires x.call.Move? ==>
               || MoveErrorExplained(w, x, x.call.cmd, error)
               || (error == Sentinel(DuplicateIdempotencyKey) && LostRace(w, x.call.cmd))
    requires x.call.Open? ==> OpenErrorExplained(w, x, x.call.account, error)
    ensures SessionOk(w, i, AfterAttempt(x, error))
  {
    EmptyPending(w);
    if IsRetryable(error) { RetryableIsNoSentinel(error, DuplicateIdempotencyKey); }
    var x' := AfterAttempt(x, error);
    if x'.pc.Done? && x.call.Move? {
      var cmd, error' := x.call.cmd, x'.pc.outcome.error;
      if v :| Refused(w, x, cmd, v) && error == VerdictError(v) {
        assert Refused(w, x', cmd, v);
      }
      assert MoveErrorExplained(w, x', cmd, error');
    } else if x'.pc.AwaitRefetch? {
      DbFailureIsNoSentinel(error, DuplicateIdempotencyKey);
    }
  }

  lemma {:induction false} DbFailureIsNoSentinel(e: Error, tag: Tag)
    ensures IsDbFailure(e) ==> !Is(e, tag)
  {
    match e
    case Wrap(_, inner) => DbFailureIsNoSentinel(inner, tag);
    case _ =>
  }

  lemma LockOrderFacts(db: Tables, cmd: Cmd)
    ensures var todo := RowsInOrder(db, [cmd.source, cmd.dest]);
            && (forall a :: a in todo <==> (a == cmd.source || a == cmd.dest) && a in db.accounts)
            && |todo| <= 2
  {
    var todo := RowsInOrder(db, [cmd.source, cmd.dest]);
    if |todo| > 2 {
      assert todo[0] in todo && todo[1] in todo && todo[2] in todo;
    }
  }

  /** The key lookup and the lock snapshot. */
  lemma LookupStepOk(w: World, i: nat, x: Session, cmd: Cmd)
    requires WorldOk(w) && SessionOk(w, i, x) && x.call == Move(cmd)
    requires x.pc.Begin? || x.pc.Lookup? || x.pc.Snapshot?
    ensures StepMove(w, x, cmd).1 == w.ids
    ensures SessionOk(w, i, StepMove(w, x, cmd).0)
  {
    assert w.past[|w.log|] == w.db;
    if x.pc.Snapshot? { LockOrderFacts(w.db, cmd); }
  }

  lemma LockNextStepOk(w: World, i: nat, x: Session, cmd: Cmd)
    requires WorldOk(w) && SessionOk(w, i, x) && x.call == Move(cmd) && x.pc.Locking? && x.pc.todo != []
    ensures StepMove(w, x, cmd).1 == w.ids
    ensures SessionOk(w, i, StepMove(w, x, cmd).0)
  {
    var todo := x.pc.todo;
    assert todo[0] in todo;
    assert forall a :: a in todo <==> a == todo[0] || a in todo[1..];
  }

  lemma FundsCheckOk(w: World, i: nat, x: Session, cmd: Cmd)
    requires WorldOk(w) && SessionOk(w, i, x) && x.call == Move(cmd) && x.pc == Locking([])
    ensures StepMove(w, x, cmd).1 == w.ids
    ensures SessionOk(w, i, StepMove(w, x, cmd).0)
  {
    var x' := StepMove(w, x, cmd).0;
    assert w.past[|w.log|] == w.db;
    if x'.pc.RollingBack? {
      var v :=
        if cmd.source !in x.held then Missing(cmd.source)
        else if cmd.dest !in x.held then Missing(cmd.dest)
        else Insufficient;
      assert Refused(w, x', cmd, v);
      assert MoveErrorExplained(w, x', cmd, x'.pc.error);
    }
  }

  /** The two balance updates. Only an overflowing destination can stop them. */
  lemma UpdateStepOk(w: World, i: nat, x: Session, cmd: Cmd)
    requires WorldOk(w) && SessionOk(w, i, x) && x.call == Move(cmd)
    requires x.pc.UpdateSource? || x.pc.UpdateDest?
    ensures StepMove(w, x, cmd).1 == w.ids
    ensures SessionOk(w, i, StepMove(w, x, cmd).0)
  {
    var x' := StepMove(w, x, cmd).0;
    assert cmd.source in x.held && cmd.dest in x.held;
    assert w.past[|w.log|] == w.db;
    if x'.pc.RollingBack? {
      EmptyPending(w);
      assert Refused(w, x', cmd, TooLarge);
      assert MoveErrorExplained(w, x', cmd, x'.pc.error);
    }
  }

  /** The transfer row: its id is drawn first, its key is written when nobody holds it. */
  lemma DrawStepOk(w: World, i: nat, x: Session, cmd: Cmd)
    requires WorldOk(w) && SessionOk(w, i, x) && x.call == Move(cmd) && x.pc.DrawTransferId?
    ensures var (x', ids) := StepMove(w, x, cmd);
            IdsAtMost(w.ids, ids) && SessionOk(w.(ids := ids), i, x')
  {
    IdsDoNotDisturb(w, StepMove(w, x, cmd).1, i, x);
  }

  lemma TransferRowStepOk(w: World, i: nat, x: Session, cmd: Cmd)
    requires WorldOk(w) && SessionOk(w, i, x) && x.call == Move(cmd) && x.pc.WriteTransfer?
    ensures StepMove(w, x, cmd).1 == w.ids
    ensures SessionOk(w, i, StepMove(w, x, cmd).0)
  {
    EmptyPending(w);
    assert [] + [RowOf(cmd, x.pc.id)] == [RowOf(cmd, x.pc.id)];
  }

  lemma DebitStepOk(w: World, i: nat, x: Session, cmd: Cmd)
    requires WorldOk(w) && SessionOk(w, i, x) && x.call == Move(cmd) && x.pc.WriteDebit?
    ensures var (x', ids) := StepMove(w, x, cmd);
            IdsAtMost(w.ids, ids) && SessionOk(w.(ids := ids), i, x')
  {
  }

  lemma CreditStepOk(w: World, i: nat, x: Session, cmd: Cmd)
    requires WorldOk(w) && SessionOk(w, i, x) && x.call == Move(cmd) && x.pc.WriteCredit?
    ensures var (x', ids) := StepMove(w, x, cmd);
            IdsAtMost(w.ids, ids) && SessionOk(w.(ids := ids), i, x')
  {
  }

  /** Rollback, and the re-fetch after a lost race. */
  lemma AftermathStepOk(w: World, i: nat, x: Session, cmd: Cmd)
    requires WorldOk(w) && SessionOk(w, i, x) && x.call == Move(cmd)
    requires x.pc.RollingBack? || x.pc.AwaitRefetch? || x.pc.Refetching?
    ensures StepMove(w, x, cmd).1 == w.ids
    ensures SessionOk(w, i, StepMove(w, x, cmd).0)
  {
    assert w.past[|w.log|] == w.db;
    if x.pc.RollingBack? {
      AfterAttemptOk(w, i, x, x.pc.error);
    }
  }

  lemma OpenStepOk(w: World, i: nat, x: Session, account: int, balance: int)
    requires WorldOk(w) && SessionOk(w, i, x) && x.call == Open(account, balance)
    requires !x.pc.Committing? && !x.pc.Done?
    ensures var (x', ids) := StepOpen(w, x, account, balance);
            IdsAtMost(w.ids, ids) && SessionOk(w.(ids := ids), i, x')
  {
    var (x', ids) := StepOpen(w, x, account, balance);
    assert w.past[|w.log|] == w.db;
    EmptyPending(w);
    match x.pc
    case WriteAccount =>
      if x'.pc.RollingBack? {
      } else {
        assert x'.work == OpeningRows(account, balance, None);
      }
    case WriteDeposit => assert x'.work == OpeningRows(account, balance, Some(w.ids.deposit));
    case RollingBack(error) => AfterAttemptOk(w, i, x, error);
    case _ =>
  }

  lemma MoveStaysInMove(x: Session, cmd: Cmd)
    requires ShapeOfMove(x, cmd)
    ensures !x.pc.WriteAccount? && !x.pc.WriteDeposit?
  {
  }

  lemma StepSessionOk(w: World, i: nat, x: Session)
    requires WorldOk(w) && SessionOk(w, i, x) && !x.pc.Committing? && !x.pc.Done?
    ensures var (x', ids) := StepSession(w, x);
            IdsAtMost(w.ids, ids) && SessionOk(w.(ids := ids), i, x')
  {
    assert x.call.Move? ==> ShapeOfMove(x, x.call.cmd);
    hide SessionOk, WorldOk, StepMove, StepOpen, ShapeOfMove;
    match x.call
    case Open(account, balance) => OpenStepOk(w, i, x, account, balance);
    case Move(cmd) =>
      MoveStaysInMove(x, cmd);
      match x.pc {
        case Begin => LookupStepOk(w, i, x, cmd);
        case Lookup => LookupStepOk(w, i, x, cmd);
        case Snapshot => LookupStepOk(w, i, x, cmd);
        case Locking(todo) =>
          if todo != [] { LockNextStepOk(w, i, x, cmd); } else { FundsCheckOk(w, i, x, cmd); }
        case UpdateSource => UpdateStepOk(w, i, x, cmd);
        case UpdateDest => UpdateStepOk(w, i, x, cmd);
        case RollingBack(_) => AftermathStepOk(w, i, x, cmd);
        case AwaitRefetch => AftermathStepOk(w, i, x, cmd);
        case Refetching => AftermathStepOk(w, i, x, cmd);
        case WriteDebit(_) => DebitStepOk(w, i, x, cmd);
        case WriteCredit(_) => CreditStepOk(w, i, x, cmd);
        case DrawTransferId => DrawStepOk(w, i, x, cmd);
        case _ => TransferRowStepOk(w, i, x, cmd);
      }
      assert w.(ids := w.ids) == w;
  }

  lemma FailSessionOk(w: World, i: nat, x: Session, fault: Fault)
    requires WorldOk(w) && SessionOk(w, i, x) && CanFail(x.pc) && IsFault(fault)
    ensures SessionOk(w, i, FailSession(x, fault))
  {
    EmptyPending(w);
    var error := Wrap(FailingOperation(x.pc), FaultError(fault));
    assert IsDbFailure(error.inner) && IsDbFailure(error);
    if x.pc.Begin? {
      AfterAttemptOk(w, i, x, error);
    }
  }

  // ----- two sessions -----

  /** A session that takes nothing keeps apart. */
  lemma TakesNothing(x: Session, x': Session, y: Session)
    requires Apart(FootprintAt(x), FootprintAt(y))
    requires !x.pc.WriteTransfer? && !x'.pc.WriteTransfer?
    requires (x'.held == x.held && x'.work == x.work) || Idle(x')
    ensures Apart(FootprintAt(x'), FootprintAt(y))
  {
  }

  lemma LockStaysApart(w: World, i: nat, x: Session, cmd: Cmd, j: nat, y: Session)
    requires SessionOk(w, i, x) && x.call == Move(cmd) && x.pc.Locking? && SessionOk(w, j, y)
    requires Apart(FootprintAt(x), FootprintAt(y)) && !Awaits(x, y)
    ensures Apart(FootprintAt(StepMove(w, x, cmd).0), FootprintAt(y))
  {
    if x.pc.todo != [] {
      var a, x' := x.pc.todo[0], StepMove(w, x, cmd).0;
      assert a in x.pc.todo && a in w.db.accounts;
      assert FootprintAt(x').rows <= FootprintAt(x).rows + {a} && a !in FootprintAt(y).rows;
    } else {
      TakesNothing(x, StepMove(w, x, cmd).0, y);
    }
  }

  lemma UpdateStaysApart(w: World, i: nat, x: Session, cmd: Cmd, y: Session)
    requires SessionOk(w, i, x) && x.call == Move(cmd) && (x.pc.UpdateSource? || x.pc.UpdateDest?)
    requires Apart(FootprintAt(x), FootprintAt(y))
    ensures Apart(FootprintAt(StepMove(w, x, cmd).0), FootprintAt(y))
  {
  }

  lemma DrawStaysApart(w: World, i: nat, x: Session, cmd: Cmd, j: nat, y: Session)
    requires SessionOk(w, i, x) && x.call == Move(cmd) && SessionOk(w, j, y)
    requires x.pc.DrawTransferId? || x.pc.WriteDebit? || x.pc.WriteCredit?
    requires Apart(FootprintAt(x), FootprintAt(y))
    ensures Apart(FootprintAt(StepMove(w, x, cmd).0), FootprintAt(y))
  {
    var f, f', g := FootprintAt(x), FootprintAt(StepMove(w, x, cmd).0), FootprintAt(y);
    assert f'.transferIds <= f.transferIds + {w.ids.transfer} && w.ids.transfer !in g.transferIds;
    assert f'.entryIds <= f.entryIds + {w.ids.ledger} && w.ids.ledger !in g.entryIds;
    assert f'.rows == f.rows && f'.keys == f.keys && f'.depositIds == f.depositIds;
  }

  lemma OpenStaysApart(w: World, i: nat, x: Session, account: int, balance: int, j: nat, y: Session)
    requires SessionOk(w, i, x) && x.call == Open(account, balance) && SessionOk(w, j, y)
    requires !x.pc.Committing? && !x.pc.Done?
    requires Apart(FootprintAt(x), FootprintAt(y)) && !Awaits(x, y)
    ensures Apart(FootprintAt(StepOpen(w, x, account, balance).0), FootprintAt(y))
  {
    var x' := StepOpen(w, x, account, balance).0;
    var f, f', g := FootprintAt(x), FootprintAt(x'), FootprintAt(y);
    if x.pc.WriteAccount? && !x'.pc.RollingBack? {
      assert f'.rows <= f.rows + {account} && account !in g.rows;
    } else if x.pc.WriteDeposit? {
      assert f'.depositIds <= f.depositIds + {w.ids.deposit} && w.ids.deposit !in g.depositIds;
    } else {
      TakesNothing(x, x', y);
    }
  }

  lemma WriteStaysApart(w: World, i: nat, x: Session, cmd: Cmd, y: Session)
    requires SessionOk(w, i, x) && x.call == Move(cmd) && x.pc.WriteTransfer?
    requires Apart(FootprintAt(x), FootprintAt(y)) && !Awaits(x, y)
    ensures Apart(FootprintAt(StepMove(w, x, cmd).0), FootprintAt(y))
  {
    var x' := StepMove(w, x, cmd).0;
    if x'.pc.WriteDebit? {
      WrittenKey(x, x', y, cmd, x.pc.id);
    }
  }

  lemma ReadStaysApart(w: World, i: nat, x: Session, cmd: Cmd, y: Session)
    requires SessionOk(w, i, x) && x.call == Move(cmd)
    requires || x.pc.Begin? || x.pc.Lookup? || x.pc.Snapshot?
             || x.pc.RollingBack? || x.pc.AwaitRefetch? || x.pc.Refetching?
    requires Apart(FootprintAt(x), FootprintAt(y))
    ensures Apart(FootprintAt(StepMove(w, x, cmd).0), FootprintAt(y))
  {
    hide PendingOk, History;
    TakesNothing(x, StepMove(w, x, cmd).0, y);
  }

  /** What a session owns after its step is what it owned before, or not more than it was
      free to take: the next locked row, a written key or account, or a new sequence value. */
  lemma StaysApart(w: World, i: nat, x: Session, j: nat, y: Session)
    requires SessionOk(w, i, x) && SessionOk(w, j, y) && !x.pc.Committing? && !x.pc.Done?
    requires Apart(FootprintAt(x), FootprintAt(y)) && !Awaits(x, y)
    ensures Apart(FootprintAt(StepSession(w, x).0), FootprintAt(y))
  {
    assert x.call.Move? ==> ShapeOfMove(x, x.call.cmd);
    hide SessionOk, Apart, FootprintAt, Awaits, StepMove, StepOpen, ShapeOfMove;
    match x.call
    case Open(account, balance) => OpenStaysApart(w, i, x, account, balance, j, y);
    case Move(cmd) =>
      MoveStaysInMove(x, cmd);
      match x.pc {
        case Locking(_) => LockStaysApart(w, i, x, cmd, j, y);
        case UpdateSource => UpdateStaysApart(w, i, x, cmd, y);
        case UpdateDest => UpdateStaysApart(w, i, x, cmd, y);
        case DrawTransferId => DrawStaysApart(w, i, x, cmd, j, y);
        case WriteDebit(_) => DrawStaysApart(w, i, x, cmd, j, y);
        case WriteCredit(_) => DrawStaysApart(w, i, x, cmd, j, y);
        case WriteTransfer(_) => WriteStaysApart(w, i, x, cmd, y);
        case _ => ReadStaysApart(w, i, x, cmd, y);
      }
  }

  lemma WrittenKey(x: Session, x': Session, y: Session, cmd: Cmd, id: nat)
    requires x.call == Move(cmd) && x.pc == WriteTransfer(id) && !Awaits(x, y) && x.work.transfers == []
    requires x'.held == x.held && x'.work == x.work.(transfers := [RowOf(cmd, id)]) && x'.pc == WriteDebit(id)
    requires Apart(FootprintAt(x), FootprintAt(y))
    ensures Apart(FootprintAt(x'), FootprintAt(y))
  {
  }

  lemma FailStaysApart(x: Session, fault: Fault, y: Session)
    requires CanFail(x.pc) && Apart(FootprintAt(x), FootprintAt(y))
    requires x.pc.AwaitRefetch? || x.pc.Refetching? ==> Idle(x)
    ensures Apart(FootprintAt(FailSession(x, fault)), FootprintAt(y))
  {
  }

  // ----- commit -----

  /** COMMIT either publishes nothing, after a lookup that found the key, or publishes exactly
      one legal atomic event, whose footprint is the transaction's. */
  lemma CommitPublishes(w: World, i: nat, x: Session)
    requires WorldOk(w) && SessionOk(w, i, x) && x.pc.Committing?
    ensures x.work == EMPTY ==> EventOf(i, x).None? && CommitWorld(w, i, x) == w
    ensures x.work != EMPTY ==>
              && EventOf(i, x).Some?
              && var e := EventOf(i, x).value;
              && Legal(w.db, e) && EventIdsBelow(e, w.ids)
              && CommitWorld(w, i, x) == Committed(w, e)
              && EventFootprint(e) == FootprintAt(x)
  {
    match x.call
    case Move(cmd) =>
      if x.work == EMPTY {
        assert Merge(w.db, EMPTY) == w.db;
      } else {
        MoveCommits(w, x.held, cmd, i, x.work.transfers[0].id, x.work.ledger[0].id, x.work.ledger[1].id);
      }
    case Open(account, balance) =>
      OpeningCommits(w, account, balance, i, if |x.work.deposits| == 1 then Some(x.work.deposits[0].id) else None);
      assert account in x.work.accounts;
  }

  lemma OpeningIsNotEmpty(x: Session, account: int, balance: int)
    requires ShapeOfOpen(x, account, balance) && x.pc.Committing?
    ensures x.work != EMPTY
  {
    assert account in x.work.accounts;
  }

  lemma ReplayCommitOk(w: World, i: nat, x: Session)
    requires WorldOk(w) && SessionOk(w, i, x) && x.pc.Committing? && x.work == EMPTY
    ensures SessionOk(w, i, CommitSession(w, x))
  {
    EmptyPending(w);
    if account, balance :| x.call == Open(account, balance) {
      OpeningIsNotEmpty(x, account, balance);
    }
  }

  lemma PublishMoveOk(w: World, i: nat, x: Session, cmd: Cmd, e: Event)
    requires WorldOk(w) && SessionOk(w, i, x) && x.call == Move(cmd) && x.pc.Committing? && x.work != EMPTY
    requires EventOf(i, x) == Some(e) && Legal(w.db, e)
    ensures EventAnswered(e, CommitSession(w, x))
    ensures SessionOk(Committed(w, e), i, CommitSession(w, x))
  {
    assert Committed(w, e).past[x.seen] == w.past[x.seen];
  }

  lemma PublishOpenOk(w: World, i: nat, x: Session, e: Event)
    requires WorldOk(w) && SessionOk(w, i, x) && x.call.Open? && x.pc.Committing?
    requires EventOf(i, x) == Some(e) && Legal(w.db, e)
    ensures EventAnswered(e, CommitSession(w, x))
    ensures SessionOk(Committed(w, e), i, CommitSession(w, x))
  {
  }

  lemma PublishCommitOk(w: World, i: nat, x: Session, e: Event)
    requires WorldOk(w) && SessionOk(w, i, x) && x.pc.Committing? && x.work != EMPTY
    requires EventOf(i, x) == Some(e) && Legal(w.db, e)
    ensures EventAnswered(e, CommitSession(w, x))
    ensures SessionOk(Committed(w, e), i, CommitSession(w, x))
  {
    hide *;
    match x.call
    case Move(cmd) => PublishMoveOk(w, i, x, cmd, e);
    case Open(_, _) => PublishOpenOk(w, i, x, e);
  }

  // ----- the connection count -----

  lemma {:induction false} ConnectionsAfterUpdate(sessions: seq<Session>, i: nat, x: Session)
    requires i < |sessions|
    ensures ConnectionsInUse(sessions[i := x]) ==
            ConnectionsInUse(sessions)
            - (if HoldsConnection(sessions[i].pc) then 1 else 0) + (if HoldsConnection(x.pc) then 1 else 0)
  {
    var n := |sessions| - 1;
    if i < n {
      ConnectionsAfterUpdate(sessions[..n], i, x);
      assert sessions[i := x][..n] == sessions[..n][i := x];
    } else {
      assert sessions[i := x][..n] == sessions[..n];
    }
  }

  // ----- every action keeps the invariant -----

  lemma ReplaceKeepsApart(sessions: seq<Session>, i: nat, x: Session)
    requires AllApart(sessions) && i < |sessions|
    requires forall j :: 0 <= j < |sessions| && j != i ==> Apart(FootprintAt(x), FootprintAt(sessions[j]))
    ensures AllApart(sessions[i := x])
  {
  }

  lemma AppendKeepsApart(sessions: seq<Session>, x: Session)
    requires AllApart(sessions) && FootprintAt(x) == Footprint({}, {}, {}, {}, {})
    ensures AllApart(sessions + [x])
  {
  }

  lemma IdleFootprint(x: Session)
    requires Idle(x) && !x.pc.WriteTransfer?
    ensures FootprintAt(x) == Footprint({}, {}, {}, {}, {})
  {
  }

  lemma NewSessionOk(w: World, call: Call, i: nat)
    requires WorldOk(w) && ValidCall(call)
    ensures SessionOk(w, i, NewSession(call, |w.log|))
  {
  }

  lemma InvokeKeepsInv(s: State, call: Call)
    requires Inv(s) && ValidCall(call)
    ensures Inv(Next(s, Invoke(call)))
  {
    var x := NewSession(call, |s.world.log|);
    var s' := Next(s, Invoke(call));
    assert s'.sessions[..|s.sessions|] == s.sessions;
    IdleFootprint(x);
    AppendKeepsApart(s.sessions, x);
    NewSessionOk(s.world, call, |s.sessions|);
  }

  lemma IdsKeepSessionsOk(w: World, ids: Ids, sessions: seq<Session>)
    requires WorldOk(w) && SessionsOk(w, sessions) && IdsAtMost(w.ids, ids)
    ensures WorldOk(w.(ids := ids)) && SessionsOk(w.(ids := ids), sessions)
  {
    MoreIds(w, ids);
    forall j | 0 <= j < |sessions| ensures SessionOk(w.(ids := ids), j, sessions[j]) {
      IdsDoNotDisturb(w, ids, j, sessions[j]);
    }
  }

  /** A session is replaced and the world is the same up to sequence values. */
  lemma ReplaceKeepsInv(s: State, i: nat, x: Session, ids: Ids)
    requires Inv(s) && i < |s.sessions| && IdsAtMost(s.world.ids, ids)
    requires SessionOk(s.world.(ids := ids), i, x)
    requires !s.sessions[i].pc.Done?
    requires HoldsConnection(x.pc) ==> HoldsConnection(s.sessions[i].pc) || ConnectionsInUse(s.sessions) < s.pool
    requires forall j :: 0 <= j < |s.sessions| && j != i ==> Apart(FootprintAt(x), FootprintAt(s.sessions[j]))
    ensures Inv(s.(world := s.world.(ids := ids), sessions := s.sessions[i := x]))
  {
    hide SessionOk, FootprintAt, Apart;
    IdsKeepSessionsOk(s.world, ids, s.sessions);
    ReplaceKeepsApart(s.sessions, i, x);
    ConnectionsAfterUpdate(s.sessions, i, x);
  }

  lemma RunKeepsInv(s: State, i: nat)
    requires Inv(s) && Enabled(s, Run(i)) && !s.sessions[i].pc.Committing?
    ensures Inv(Next(s, Run(i)))
  {
    var x := s.sessions[i];
    var (x', ids) := StepSession(s.world, x);
    assert SessionOk(s.world, i, x);
    StepSessionOk(s.world, i, x);
    forall j | 0 <= j < |s.sessions| && j != i ensures Apart(FootprintAt(x'), FootprintAt(s.sessions[j])) {
      assert SessionOk(s.world, j, s.sessions[j]);
      StaysApart(s.world, i, x, j, s.sessions[j]);
    }
    ReplaceKeepsInv(s, i, x', ids);
  }

  lemma FailKeepsInv(s: State, i: nat, fault: Fault)
    requires Inv(s) && Enabled(s, Fail(i, fault))
    ensures Inv(Next(s, Fail(i, fault)))
  {
    var x := s.sessions[i];
    var x' := FailSession(x, fault);
    assert HoldsConnection(x'.pc) ==> HoldsConnection(x.pc);
    hide SessionOk, WorldOk, Apart, FootprintAt, FailSession;
    SessionOfInv(s, i);
    FailSessionOk(s.world, i, x, fault);
    RefetchIsIdle(s.world, i, x);
    assert s.world.(ids := s.world.ids) == s.world;
    forall j | 0 <= j < |s.sessions| && j != i ensures Apart(FootprintAt(x'), FootprintAt(s.sessions[j])) {
      FailStaysApart(x, fault, s.sessions[j]);
    }
    hide Inv;
    ReplaceKeepsInv(s, i, x', s.world.ids);
  }

  lemma RefetchIsIdle(w: World, i: nat, x: Session)
    requires SessionOk(w, i, x)
    ensures x.pc.AwaitRefetch? || x.pc.Refetching? ==> Idle(x)
  {
  }

  lemma ReplayKeepsInv(s: State, i: nat)
    requires Inv(s) && i < |s.sessions| && s.sessions[i].pc.Committing? && s.sessions[i].work == EMPTY
    ensures Inv(s.(sessions := s.sessions[i := CommitSession(s.world, s.sessions[i])]))
  {
    var x := s.sessions[i];
    assert SessionOk(s.world, i, x);
    ReplayCommitOk(s.world, i, x);
    IdleFootprint(CommitSession(s.world, x));
    assert s.world.(ids := s.world.ids) == s.world;
    ReplaceKeepsInv(s, i, CommitSession(s.world, x), s.world.ids);
  }

  lemma PublishKeepsOthers(s: State, i: nat, e: Event)
    requires Inv(s) && i < |s.sessions| && Legal(s.world.db, e) && EventIdsBelow(e, s.world.ids)
    requires EventFootprint(e) == FootprintAt(s.sessions[i])
    ensures forall j :: 0 <= j < |s.sessions| && j != i ==> SessionOk(Committed(s.world, e), j, s.sessions[j])
  {
    forall j | 0 <= j < |s.sessions| && j != i ensures SessionOk(Committed(s.world, e), j, s.sessions[j]) {
      assert Apart(FootprintAt(s.sessions[i]), FootprintAt(s.sessions[j]));
      CommitDoesNotDisturb(s.world, e, j, s.sessions[j]);
    }
  }

  lemma PublishKeepsOwners(log: seq<Event>, sessions: seq<Session>, i: nat, x: Session, e: Event)
    requires EventsOwned(log, sessions) && i < |sessions| && !sessions[i].pc.Done?
    requires e.session == i && EventAnswered(e, x) && x.at == |log|
    ensures EventsOwned(log + [e], sessions[i := x])
  {
  }

  lemma PublishKeepsSessionsOk(s: State, i: nat, e: Event)
    requires Inv(s) && i < |s.sessions| && s.sessions[i].pc.Committing? && s.sessions[i].work != EMPTY
    requires EventOf(i, s.sessions[i]) == Some(e) && Legal(s.world.db, e) && EventIdsBelow(e, s.world.ids)
    requires EventFootprint(e) == FootprintAt(s.sessions[i])
    ensures EventAnswered(e, CommitSession(s.world, s.sessions[i]))
    ensures SessionsOk(Committed(s.world, e), s.sessions[i := CommitSession(s.world, s.sessions[i])])
  {
    assert SessionOk(s.world, i, s.sessions[i]);
    PublishCommitOk(s.world, i, s.sessions[i], e);
    PublishKeepsOthers(s, i, e);
  }

  lemma PublishKeepsInv(s: State, i: nat, e: Event)
    requires Inv(s) && i < |s.sessions| && s.sessions[i].pc.Committing? && s.sessions[i].work != EMPTY
    requires EventOf(i, s.sessions[i]) == Some(e) && Legal(s.world.db, e) && EventIdsBelow(e, s.world.ids)
    requires EventFootprint(e) == FootprintAt(s.sessions[i])
    ensures Inv(s.(world := Committed(s.world, e), sessions := s.sessions[i := CommitSession(s.world, s.sessions[i])]))
  {
    hide SessionOk;
    var x' := CommitSession(s.world, s.sessions[i]);
    CommittedOk(s.world, e);
    PublishKeepsSessionsOk(s, i, e);
    PublishKeepsOwners(s.world.log, s.sessions, i, x', e);
    IdleFootprint(x');
    ReplaceKeepsApart(s.sessions, i, x');
    ConnectionsAfterUpdate(s.sessions, i, x');
  }

  lemma CommitKeepsInv(s: State, i: nat)
    requires Inv(s) && Enabled(s, Run(i)) && s.sessions[i].pc.Committing?
    ensures Inv(Next(s, Run(i)))
  {
    assert SessionOk(s.world, i, s.sessions[i]);
    CommitPublishes(s.world, i, s.sessions[i]);
    if s.sessions[i].work == EMPTY {
      ReplayKeepsInv(s, i);
    } else {
      PublishKeepsInv(s, i, EventOf(i, s.sessions[i]).value);
    }
  }

  lemma SkipKeepsInv(s: State, ids: Ids)
    requires Inv(s) && IdsAtMost(s.world.ids, ids)
    ensures Inv(Next(s, SkipIds(ids)))
  {
    IdsKeepSessionsOk(s.world, ids, s.sessions);
  }

  lemma NextKeepsInv(s: State, a: Action)
    requires Inv(s) && Enabled(s, a)
    ensures Inv(Next(s, a))
  {
    match a
    case Invoke(call) => InvokeKeepsInv(s, call);
    case Run(i) => if s.sessions[i].pc.Committing? { CommitKeepsInv(s, i); } else { RunKeepsInv(s, i); }
    case Fail(i, fault) => FailKeepsInv(s, i, fault);
    case SkipIds(ids) => SkipKeepsInv(s, ids);
  }

  /** Every state of every run satisfies the invariant. */
  lemma {:induction false} ExecutionKeepsInv(states: seq<State>, actions: seq<Action>, k: nat)
    requires Executes(states, actions) && k < |states|
    requires Inv(states[0])
    ensures Inv(states[k])
  {
    hide Inv, Next, Enabled;
    if k > 0 {
      ExecutionKeepsInv(states, actions, k - 1);
      assert StepsAt(states, actions, k - 1);
      NextKeepsInv(states[k - 1], actions[k - 1]);
    }
  }

  lemma RunHasInv(states: seq<State>, actions: seq<Action>, k: nat)
    requires IsRun(states, actions) && k < |states|
    ensures Inv(states[k])
  {
    assert states[0].sessions == [];
    ExecutionKeepsInv(states, actions, k);
  }
}
