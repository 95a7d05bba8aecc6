/**
 The error values of the service and the classification functions over a chain
 of wrapped errors (internal/repository/errors.go, internal/repository/tx.go,
 internal/domain/errors.go).
 */
module Errors {
  import opened Options

  /** The SQLSTATE classes that matter here: 23505, 23514, 23503, 22003, 40001 and 40P01. */
  datatype SqlState =
    | UniqueViolation
    | CheckViolation
    | ForeignKeyViolation
    | NumericOverflow
    | SerializationFailure
    | DeadlockDetected
    | OtherState(code: nat)

  datatype Constraint = NoConstraint | AccountsPrimaryKey | IdempotencyKeyIndex

  /** The sentinel errors of internal/domain/errors.go, and the repository's lost-race signal. */
  datatype Tag =
    | AccountNotFound
    | AccountAlreadyExists
    | InsufficientFunds
    | InvalidAmount
    | InvalidAccountId
    | SameAccount
    | InvalidIdempotency
    | IdempotencyConflict
    | DuplicateIdempotencyKey

  /** The operation named by a wrapping message. */
  datatype Operation =
    | BeginTx
    | CommitTx
    | FindTransfer
    | LockAccounts
    | UpdateBalance
    | InsertTransfer
    | InsertLedgerEntry
    | InsertAccount
    | InsertDeposit
    | RetriesExhausted

  datatype Error =
    | Sentinel(tag: Tag)
    | MissingAccount(id: int)
    | Pg(state: SqlState, constraint: Constraint)
    | Driver
    | Wrap(operation: Operation, inner: Error)

  /** errors.Is against a sentinel; a missing-account error unwraps to AccountNotFound. */
  predicate Is(e: Error, tag: Tag) {
    match e
    case Sentinel(t) => t == tag
    case MissingAccount(_) => tag == AccountNotFound
    case Pg(_, _) => false
    case Driver => false
    case Wrap(_, inner) => Is(inner, tag)
  }

  /** errors.As against *pgconn.PgError: the first Postgres error of the chain. */
  function AsPg(e: Error): Option<Error> {
    match e
    case Pg(_, _) => Some(e)
    case Wrap(_, inner) => AsPg(inner)
    case _ => None
  }

  predicate HasState(e: Error, state: SqlState) {
    var pg := AsPg(e);
    pg.Some? && pg.value.Pg? && pg.value.state == state
  }

  predicate IsUniqueViolation(e: Error, constraint: Constraint) {
    var pg := AsPg(e);
    HasState(e, UniqueViolation) && pg.value.Pg? && pg.value.constraint == constraint
  }

  predicate IsRetryable(e: Error) {
    HasState(e, SerializationFailure) || HasState(e, DeadlockDetected)
  }

  /** The states that the database raises exactly when the row at hand breaks a constraint or
      the range of its column. */
  predicate IsViolation(state: SqlState) {
    state.UniqueViolation? || state.CheckViolation? || state.ForeignKeyViolation? || state.NumericOverflow?
  }

  /** What the database can report at any statement for reasons of its own. */
  datatype Fault = ConnectionLost | Aborted(state: SqlState)

  predicate IsFault(f: Fault) { f.Aborted? ==> !IsViolation(f.state) }

  function FaultError(f: Fault): Error {
    match f
    case ConnectionLost => Driver
    case Aborted(state) => Pg(state, NoConstraint)
  }

  /** The error is a database failure, under any number of wrapping messages. */
  predicate IsDbFailure(e: Error) {
    match e
    case Driver => true
    case Pg(state, _) => !IsViolation(state)
    case Wrap(_, inner) => IsDbFailure(inner)
    case _ => false
  }

  predicate DbFailed(err: Option<Error>) { err.Some? && IsDbFailure(err.value) }

  function ErrorOf<T>(r: Result<T, Error>): Option<Error> {
    match r
    case Success(_) => None
    case Failure(e) => Some(e)
  }

  // ----- what is reported of faults -----

  /** The error is about the fault: it carries its SQLSTATE, if the fault has one, and no other. */
  predicate Reports(e: Error, f: Fault) {
    IsDbFailure(e) && AsPg(e) == if f.Aborted? then Some(Pg(f.state, NoConstraint)) else None
  }

  lemma ReportedState(e: Error, f: Fault)
    requires Reports(e, f)
    ensures forall st :: HasState(e, st) <==> f == Aborted(st)
  {
  }

  /** Deadlocks and serialization failures. */
  predicate IsTransient(f: Fault) { f == Aborted(SerializationFailure) || f == Aborted(DeadlockDetected) }

  /** What one attempt reports when it meets the faults: it meets none or is ended by the first. */
  ghost predicate FailedOnce(err: Option<Error>, faults: seq<Fault>) {
    if DbFailed(err) then |faults| == 1 && Reports(err.value, faults[0]) else faults == []
  }

  /** The same for one statement, which names its operation. */
  ghost predicate FailedIn(operation: Operation, err: Option<Error>, faults: seq<Fault>) {
    FailedOnce(err, faults) && (DbFailed(err) ==> err == Some(Wrap(operation, FaultError(faults[0]))))
  }

  ghost predicate AllTransient(faults: seq<Fault>) {
    forall k :: 0 <= k < |faults| ==> IsTransient(faults[k])
  }

  /** What a call reports when its attempts meet the faults: each ends one attempt, a transient one
      is followed by another attempt, and the third ends the call; so does the first other one. */
  ghost predicate FailedRetrying(err: Option<Error>, faults: seq<Fault>) {
    if DbFailed(err) then
      && 1 <= |faults| <= 3
      && var last := faults[|faults| - 1];
      && AllTransient(faults[..|faults| - 1])
      && (IsTransient(last) ==> |faults| == 3 && err.value.Wrap? && err.value.operation == RetriesExhausted)
      && Reports(err.value, last)
    else |faults| <= 2 && AllTransient(faults)
  }

  lemma TransientIsRetryable(e: Error, f: Fault)
    requires Reports(e, f)
    ensures IsRetryable(e) <==> IsTransient(f)
  {
  }

  lemma FaultIsReported(operation: Operation, f: Fault)
    requires IsFault(f)
    ensures Reports(Wrap(operation, FaultError(f)), f)
  {
    assert IsDbFailure(FaultError(f));
  }

  // ----- classification -----

  /** The chain that results from wrapping an error once per operation, outermost last. */
  function Wrapped(operations: seq<Operation>, e: Error): Error {
    if |operations| == 0 then e
    else Wrap(operations[|operations| - 1], Wrapped(operations[..|operations| - 1], e))
  }

  /** However often an error is wrapped on its way up, every classification sees through it:
      the retry decision depends on the SQLSTATE alone. */
  lemma {:induction false} WrappingKeepsClassification(operations: seq<Operation>, e: Error)
    ensures IsRetryable(Wrapped(operations, e)) <==>
            HasState(e, SerializationFailure) || HasState(e, DeadlockDetected)
    ensures forall tag :: Is(Wrapped(operations, e), tag) <==> Is(e, tag)
    ensures forall c :: IsUniqueViolation(Wrapped(operations, e), c) <==> IsUniqueViolation(e, c)
    ensures IsDbFailure(Wrapped(operations, e)) <==> IsDbFailure(e)
  {
    if |operations| > 0 {
      WrappingKeepsClassification(operations[..|operations| - 1], e);
    }
  }

  lemma {:induction false} WrappingKeepsCause(operations: seq<Operation>, e: Error)
    ensures AsPg(Wrapped(operations, e)) == AsPg(e)
  {
    if |operations| > 0 { WrappingKeepsCause(operations[..|operations| - 1], e); }
  }

  /** A Postgres error, however it is wrapped, is taken for exactly its SQLSTATE and constraint. */
  lemma PostgresErrors(operations: seq<Operation>, state: SqlState, constraint: Constraint)
    ensures var e := Wrapped(operations, Pg(state, constraint));
            && (forall st :: HasState(e, st) <==> st == state)
            && (forall c :: IsUniqueViolation(e, c) <==> state == UniqueViolation && c == constraint)
            && (IsRetryable(e) <==> state == SerializationFailure || state == DeadlockDetected)
            && (IsDbFailure(e) <==>
                  state !in {UniqueViolation, CheckViolation, ForeignKeyViolation, NumericOverflow})
            && forall tag :: !Is(e, tag)
  {
    WrappingKeepsCause(operations, Pg(state, constraint));
    WrappingKeepsClassification(operations, Pg(state, constraint));
  }

  /** An error without a Postgres error in it, however it is wrapped, is taken for exactly its
      sentinel, if it has one, and is never retried; the driver's own is a database failure. */
  lemma OtherErrors(operations: seq<Operation>, e: Error)
    requires !e.Pg? && !e.Wrap?
    ensures var e' := Wrapped(operations, e);
            && (forall st :: !HasState(e', st)) && (forall c :: !IsUniqueViolation(e', c)) && !IsRetryable(e')
            && (IsDbFailure(e') <==> e == Driver)
            && forall tag :: Is(e', tag) <==> e == Sentinel(tag) || (e.MissingAccount? && tag == AccountNotFound)
  {
    WrappingKeepsCause(operations, e);
    WrappingKeepsClassification(operations, e);
  }

  /** The faults are exactly the failures that are no violation. */
  lemma FaultsAreFailures(f: Fault)
    ensures IsFault(f) <==> IsDbFailure(FaultError(f))
    ensures IsTransient(f) ==> IsFault(f)
    ensures IsFault(ConnectionLost)
  {
  }

  /** A retryable chain holds a Postgres error, so it never hides one of the sentinels. */
  lemma {:induction false} RetryableIsNoSentinel(e: Error, tag: Tag)
    requires IsRetryable(e)
    ensures !Is(e, tag)
    ensures IsDbFailure(e)
  {
    match e
    case Wrap(_, inner) => RetryableIsNoSentinel(inner, tag);
    case _ =>
  }
}
