/**
 The step machine: any number of concurrent Transfer and AccountService.Create calls over one
 database and one connection pool, interleaved statement by statement.
 (internal/service/transfer_service.go, internal/service/account_service.go,
 internal/repository/tx.go, internal/repository/account_repo.go,
 internal/repository/transfer_repo.go)
 */
module Machine {
  import opened Options
  import opened Errors
  import opened Schema
  import opened Transactions

  const MAX_TX_RETRIES: nat := 3

  /** A validated call. */
  datatype Call =
    | Move(cmd: Cmd)
    | Open(account: int, balance: int)

  predicate ValidCall(call: Call) {
    match call
    case Move(cmd) => ValidCmd(cmd)
    case Open(account, balance) => ValidOpening(account, balance)
  }

  datatype Outcome =
    | Returned(transfer: Transfer)
    | Created
    | Failed(error: Error)

  /** The statement a call is about to run. */
  datatype Pc =
    | Begin                       // waits for a pool connection
    | Lookup                      // FindByIdempotencyKey inside the transaction
    | Snapshot                    // LockForUpdate starts: which of the rows exist
    | Locking(todo: seq<int>)     // lock and read the next row; none left: check the funds
    | UpdateSource
    | UpdateDest
    | DrawTransferId              // nextval of transfers.id
    | WriteTransfer(id: nat)      // waits for the idempotency key
    | WriteDebit(id: nat)
    | WriteCredit(id: nat)
    | WriteAccount                // waits for the account id
    | WriteDeposit
    | Committing
    | RollingBack(error: Error)
    | AwaitRefetch                // lost race: waits for a pool connection
    | Refetching
    | Done(outcome: Outcome)

  /** One call in flight. held is what LockForUpdate returned so far, work the uncommitted rows,
      result the variable that the transaction body captures, attempt the failed attempts so
      far. The last three fields are history: the length of the commit log at the invocation,
      at the latest key lookup that missed, and at the moment that decided the outcome. */
  datatype Session = Session(
    call: Call,
    pc: Pc,
    attempt: nat,
    held: map<int, Account>,
    work: Tables,
    result: Option<Transfer>,
    start: nat,
    seen: nat,
    at: nat)

  datatype State = State(pool: nat, world: World, sessions: seq<Session>)

  datatype Action =
    | Invoke(call: Call)
    | Run(i: nat)                 // session i runs its next statement
    | Fail(i: nat, fault: Fault)  // the database fails session i's next statement
    | SkipIds(ids: Ids)           // sequence values get lost

  // ----- connections and waiting -----

  predicate HoldsConnection(pc: Pc) { !pc.Begin? && !pc.AwaitRefetch? && !pc.Done? }

  function ConnectionsInUse(sessions: seq<Session>): nat {
    if |sessions| == 0 then 0
    else ConnectionsInUse(sessions[..|sessions| - 1]) + if HoldsConnection(sessions[|sessions| - 1].pc) then 1 else 0
  }

  predicate WantsKey(x: Session, key: Key) {
    x.pc.WriteTransfer? && x.call.Move? && x.call.cmd.key == Some(key)
  }

  /** Session x has to wait for session y: for a row lock, an idempotency key or an account id. */
  ghost predicate Awaits(x: Session, y: Session) {
    || (x.pc.Locking? && x.pc.todo != [] && x.pc.todo[0] in y.held)
    || (exists t :: t in y.work.transfers && t.key.Some? && WantsKey(x, t.key.value))
    || (x.pc.WriteAccount? && x.call.Open? && x.call.account in y.work.accounts)
  }

  ghost predicate Blocked(s: State, i: nat)
    requires i < |s.sessions|
  {
    var x := s.sessions[i];
    || ((x.pc.Begin? || x.pc.AwaitRefetch?) && ConnectionsInUse(s.sessions) >= s.pool)
    || exists j :: 0 <= j < |s.sessions| && j != i && Awaits(x, s.sessions[j])
  }

  // ----- steps -----

  function NewSession(call: Call, start: nat): Session {
    Session(call, Begin, 0, map[], EMPTY, None, start, start, start)
  }

  function Cleared(x: Session): Session { x.(held := map[], work := EMPTY) }

  function BalanceIn(held: map<int, Account>, id: int): int {
    if id in held then held[id].balance else 0
  }

  /** A database error: the transaction is gone on the server, the connection is not yet back. */
  function Poisoned(x: Session, error: Error): Session {
    Cleared(x).(pc := RollingBack(error))
  }

  /** The attempt failed and is rolled back: WithTx retries it, gives up, or Transfer goes on to
      resolve the lost race. */
  function AfterAttempt(x: Session, error: Error): Session {
    if IsRetryable(error) && x.attempt + 1 < MAX_TX_RETRIES then
      Cleared(x).(pc := Begin, attempt := x.attempt + 1)
    else
      var error' := if IsRetryable(error) then Wrap(RetriesExhausted, error) else error;
      if x.call.Move? && Is(error', DuplicateIdempotencyKey) then Cleared(x).(pc := AwaitRefetch)
      else Cleared(x).(pc := Done(Failed(error')))
  }

  /** The session and the sequences after one statement of a transfer, commit excepted. */
  function StepMove(w: World, x: Session, cmd: Cmd): (Session, Ids) {
    var now := |w.log|;
    var source, dest := BalanceIn(x.held, cmd.source), BalanceIn(x.held, cmd.dest);
    match x.pc
    case Begin => (x.(pc := if cmd.key.Some? then Lookup else Snapshot, seen := now), w.ids)
    case Lookup =>
      var found := Holder(w.db, cmd.key);
      if found.None? then (x.(pc := Snapshot, seen := now), w.ids)
      else if Matches(found.value, cmd) then (x.(pc := Committing, result := found, at := now), w.ids)
      else (x.(pc := RollingBack(Sentinel(IdempotencyConflict)), at := now), w.ids)
    case Snapshot => (x.(pc := Locking(RowsInOrder(w.db, [cmd.source, cmd.dest])), at := now), w.ids)
    case Locking(todo) =>
      if todo != [] then
        var row := if todo[0] in w.db.accounts then map[todo[0] := w.db.accounts[todo[0]]] else map[];
        (x.(pc := Locking(todo[1..]), held := x.held + row), w.ids)
      else if cmd.source !in x.held then (x.(pc := RollingBack(MissingAccount(cmd.source))), w.ids)
      else if cmd.dest !in x.held then (x.(pc := RollingBack(MissingAccount(cmd.dest))), w.ids)
      else if source < cmd.amount then (x.(pc := RollingBack(Sentinel(InsufficientFunds)), at := now), w.ids)
      else (x.(pc := UpdateSource), w.ids)
    case UpdateSource =>
      (match UpdatedBalance(w.db, x.work, cmd.source, source - cmd.amount)
       case Failure(e) => (Poisoned(x, e), w.ids)
       case Success(work) => (x.(pc := UpdateDest, work := work), w.ids))
    case UpdateDest =>
      (match UpdatedBalance(w.db, x.work, cmd.dest, dest + cmd.amount)
       case Failure(e) => (Poisoned(x, e).(at := now), w.ids)
       case Success(work) => (x.(pc := DrawTransferId, work := work), w.ids))
    case DrawTransferId => (x.(pc := WriteTransfer(w.ids.transfer)), w.ids.(transfer := w.ids.transfer + 1))
    case WriteTransfer(id) =>
      (match InsertedTransfer(w.db, x.work, RowOf(cmd, id))
       case Failure(e) => (Poisoned(x, e), w.ids)
       case Success(work) => (x.(pc := WriteDebit(id), work := work), w.ids))
    case WriteDebit(id) =>
      (x.(pc := WriteCredit(id), work := InsertedEntry(x.work, DebitOf(cmd, id, w.ids.ledger, source))),
       w.ids.(ledger := w.ids.ledger + 1))
    case WriteCredit(id) =>
      (x.(pc := Committing,
          work := InsertedEntry(x.work, CreditOf(cmd, id, w.ids.ledger, dest)),
          result := Some(RowOf(cmd, id))),
       w.ids.(ledger := w.ids.ledger + 1))
    case RollingBack(error) => (AfterAttempt(x, error), w.ids)
    case AwaitRefetch => (x.(pc := Refetching), w.ids)
    case Refetching =>
      var found := Holder(w.db, cmd.key);
      if found.None? then (x.(pc := Done(Failed(Sentinel(DuplicateIdempotencyKey)))), w.ids)
      else if Matches(found.value, cmd) then (x.(pc := Done(Returned(found.value)), at := now), w.ids)
      else (x.(pc := Done(Failed(Sentinel(IdempotencyConflict))), at := now), w.ids)
    case _ => (x, w.ids)
  }

  /** The same for an account opening. */
  function StepOpen(w: World, x: Session, account: int, balance: int): (Session, Ids) {
    match x.pc
    case Begin => (x.(pc := WriteAccount), w.ids)
    case WriteAccount =>
      (match InsertedAccount(w.db, x.work, account, balance)
       case Failure(e) => (Poisoned(x, e).(at := |w.log|), w.ids)
       case Success(work) => (x.(pc := if balance > 0 then WriteDeposit else Committing, work := work), w.ids))
    case WriteDeposit =>
      (x.(pc := Committing, work := InsertedDeposit(x.work, Deposit(w.ids.deposit, account, balance))),
       w.ids.(deposit := w.ids.deposit + 1))
    case RollingBack(error) => (AfterAttempt(x, error), w.ids)
    case _ => (x, w.ids)
  }

  function StepSession(w: World, x: Session): (Session, Ids) {
    match x.call
    case Move(cmd) => StepMove(w, x, cmd)
    case Open(account, balance) => StepOpen(w, x, account, balance)
  }

  /** What the call returns once its transaction is committed. */
  function CommitOutcome(x: Session): Outcome {
    if x.call.Open? then Created
    else if x.result.Some? then Returned(x.result.value)
    else Failed(Driver)
  }

  /** The log entry for a transaction that publishes rows. */
  function EventOf(i: nat, x: Session): Option<Event> {
    match x.call
    case Move(cmd) =>
      if |x.work.transfers| == 1 && |x.work.ledger| == 2 then
        Some(Moved(i, cmd, x.work.transfers[0].id, x.work.ledger[0].id, x.work.ledger[1].id))
      else None
    case Open(account, balance) =>
      Some(Opened(i, account, balance, if |x.work.deposits| == 1 then x.work.deposits[0].id else 0))
  }

  /** COMMIT: the uncommitted rows become the committed ones and the locks go. The history
      records the event, if there is one, beside the new tables. */
  function CommitWorld(w: World, i: nat, x: Session): World {
    var db := Merge(w.db, x.work);
    match EventOf(i, x)
    case Some(e) => World(db, w.ids, w.past + [db], w.log + [e])
    case None => w.(db := db)
  }

  function CommitSession(w: World, x: Session): Session {
    Cleared(x).(pc := Done(CommitOutcome(x)), at := if x.work == EMPTY then x.at else |w.log|)
  }

  /** Rolling back cannot fail in a way the service notices, and a finished call has no statement. */
  predicate CanFail(pc: Pc) { !pc.RollingBack? && !pc.Done? }

  function FailingOperation(pc: Pc): Operation {
    match pc
    case Begin => BeginTx
    case Lookup => FindTransfer
    case Snapshot => LockAccounts
    case Locking(_) => LockAccounts
    case UpdateSource => UpdateBalance
    case UpdateDest => UpdateBalance
    case DrawTransferId => InsertTransfer
    case WriteTransfer(_) => InsertTransfer
    case WriteDebit(_) => InsertLedgerEntry
    case WriteCredit(_) => InsertLedgerEntry
    case WriteAccount => InsertAccount
    case WriteDeposit => InsertDeposit
    case Committing => CommitTx
    case _ => FindTransfer
  }

  function FailSession(x: Session, fault: Fault): Session {
    var error := Wrap(FailingOperation(x.pc), FaultError(fault));
    match x.pc
    case Begin => AfterAttempt(x, error)
    case AwaitRefetch => x.(pc := Done(Failed(error)))
    case Refetching => x.(pc := Done(Failed(error)))
    case _ => Poisoned(x, error)
  }

  /** Nothing but new calls with the one command, and statements that the database does not fail. */
  predicate RaceAction(a: Action, cmd: Cmd) {
    match a
    case Invoke(call) => call == Move(cmd)
    case Run(_) => true
    case Fail(_, _) => false
    case SkipIds(_) => true
  }

  ghost predicate Enabled(s: State, a: Action) {
    match a
    case Invoke(call) => ValidCall(call)
    case Run(i) => i < |s.sessions| && !s.sessions[i].pc.Done? && !Blocked(s, i)
    case Fail(i, fault) => i < |s.sessions| && CanFail(s.sessions[i].pc) && IsFault(fault)
    case SkipIds(ids) => IdsAtMost(s.world.ids, ids)
  }

  ghost function Next(s: State, a: Action): State
    requires Enabled(s, a)
  {
    match a
    case Invoke(call) => s.(sessions := s.sessions + [NewSession(call, |s.world.log|)])
    case Run(i) =>
      var x := s.sessions[i];
      if x.pc.Committing? then
        s.(world := CommitWorld(s.world, i, x), sessions := s.sessions[i := CommitSession(s.world, x)])
      else
        var (x', ids) := StepSession(s.world, x);
        s.(world := s.world.(ids := ids), sessions := s.sessions[i := x'])
    case Fail(i, fault) => s.(sessions := s.sessions[i := FailSession(s.sessions[i], fault)])
    case SkipIds(ids) => s.(world := s.world.(ids := ids))
  }

  // ----- runs -----

  predicate Initial(s: State) { s.world == NEW_WORLD && s.sessions == [] }

  ghost predicate StepsAt(states: seq<State>, actions: seq<Action>, k: nat)
    requires k < |actions| && |states| == |actions| + 1
  {
    Enabled(states[k], actions[k]) && states[k + 1] == Next(states[k], actions[k])
  }

  /** states is an execution of actions, from any first state. */
  ghost predicate Executes(states: seq<State>, actions: seq<Action>) {
    && |states| == |actions| + 1
    && forall k :: 0 <= k < |actions| ==> StepsAt(states, actions, k)
  }

  /** An execution from the empty database. */
  ghost predicate IsRun(states: seq<State>, actions: seq<Action>) {
    Executes(states, actions) && Initial(states[0])
  }

  lemma StepOfRun(states: seq<State>, actions: seq<Action>, k: nat)
    requires IsRun(states, actions) && k < |actions|
    ensures |states| == |actions| + 1
    ensures Enabled(states[k], actions[k]) && states[k + 1] == Next(states[k], actions[k])
  {
    hide Enabled, Next;
    assert StepsAt(states, actions, k);
  }
}
