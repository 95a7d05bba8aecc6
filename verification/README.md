# A model of the transfer engine

This project models the money-moving core of the repository — `TransferService`,
`AccountService`, the two repositories, `TxManager`, the SQL schema that constrains them, and the
audit script — and proves what that core is for: money is conserved, no account is overdrawn, a
key moves money at most once, every account's history replays, calls never deadlock, and a failed
call leaves no trace. `dafny verify dfyconfig.toml` checks the whole project.

## How the model is built

**The atomic specification** (`Schema.dfy`). Committed tables change by whole events: one transfer
(two balances, one transfer row, two ledger entries) or one account opening. `Legal` says when an
event may happen, `Apply` what it does, and `Decide` what one atomic look at the tables says about
a command. Amounts are integers in units of 10^-18; `Money.dfy` proves that this loses nothing.

**What one transaction sees and owns** (`Transactions.dfy`). Committed tables with their history,
the statements as functions, and `PendingOk`, the relation between a transaction's locked and
uncommitted rows and the committed ones. The assumptions about Postgres stand at the head of that
file: isolation is READ COMMITTED, row locks last to the end of the transaction, a unique key in
flight makes others wait, sequences never go back, a failed statement ends its transaction, and an
error from COMMIT means that nothing was committed.

**The step machine** (`Machine.dfy`). Any number of calls are program counters over one shared
database and one pool, interleaved statement by statement: take a connection, look the key up,
take the lock snapshot, lock row by row, update twice, draw an id, insert, commit or roll back,
re-fetch after a lost race. The database may fail any statement with any SQLSTATE that is not a
constraint, and sequence values may get lost. `Invariant.dfy` holds the inductive invariant. The
theorems about all runs are in `Guarantees.dfy`, `Attempts.dfy` (retries by `TxManager`),
`Idempotency.dfy`, `Progress.dfy`, `Race.dfy` and `Retry.dfy` (retries by the caller); `Solo.dfy` and
`Reach.dfy` build runs that exist.

**The imperative layer** (`Store.dfy`, `Service.dfy`). One call at work on a `Database` whose
uncommitted rows are changed in place, discarded by rollback and published by commit. Between any
two statements a script lets others commit (whatever does not touch what this transaction has
locked or written; `Service.RunCommitsArePermitted` shows that this covers what others do in the
step machine) and lets the database fail the statement. `WithTx` keeps its loop. Both layers
share the statements and the atomic specification.

Sessions carry history fields (`start`, `seen`, `at`) and the world carries its log of events;
both are there to state properties and no step depends on them.

## What is worth knowing

- The README of the repository says that retrying the same request returns the original transfer
  (README.md:76-78). For a retry that begins after the original has committed this holds
  (`Idempotency.SequentialReplayIsStable`). For retries that overlap it does not: the balance check
  comes before the insert that notices the duplicate, so a retry whose lookup missed can answer
  `ErrInsufficientFunds` after the winner drained the source. `Solo.RefusedRetryRun` is such a run,
  and `Retry.RetriesAgreeIff` gives the exact condition: when the command can be executed and nothing
  else goes on, all overlapping retries agree if and only if the accounts admit the command twice
  over, or the pool has a single connection. Money moves
  once in any case (`Idempotency.OverlappingRetry`, `Idempotency.ExactlyOncePerKey`).
- A refusal of a keyed call looks at the key at one moment and at the funds at a later one
  (`Idempotency.AnswersAreDecisions`), so it need not be the atomic decision of any moment;
  `Solo.RefusedRetryRun` is the witness. It is one whenever no call with the key has returned a
  transfer, and always without a key (`Idempotency.UncontestedRefusalIsAtomic`). For calls with
  one command from a quiet state, `Retry.RefusalsAreAtomicIff` says exactly when all refusals are
  atomic: when the command has no key, could not be executed anyway, could be executed twice, or
  the calls take turns at a single connection.
- The destination's range is checked by the column only. `Guarantees.OverflowUndoesTheDebit` shows
  that an overflow there takes the debit back with it.
- The scale check looks at the exponent and not at the value, so 10 * 10^-19 is refused where
  1 * 10^-18 is accepted (`Money.ScaleCheckIsSyntactic`).
- `ErrDuplicateIdempotencyKey`, which `resolveDuplicate` returns when it finds nothing, never
  reaches a caller (`Idempotency.LostRacesResolve`).
- The re-fetch after a lost race runs outside `WithTx` (transfer_service.go:160-164), so a single
  deadlock or serialization failure there reaches the caller, where anywhere else it takes three in
  a row (`Attempts.RetriesAreSpent`, `Service.Transfer`).

## Model
| member | source | states |
|---|---|---|
| Guarantees.Refinement | internal/service/transfer_service.go:43-156 | After any interleaving of any calls and failures, the committed tables are those of the atomic machine after the committed events one by one in commit order; each event is the success of the one call that caused it, no call causes two, and failed or unfinished calls cause none. |
| Reach.EveryHistoryIsReached | internal/service/transfer_service.go:43-156 | The converse: every history of the atomic specification is the committed history of some run without failures, on any pool of at least one connection: the same transfers and openings in the same order, with the same tables after each of them, up to sessions and generated ids. |
| Invariant.RunHasInv | internal/service/transfer_service.go:49-72 | Every state of every run satisfies the invariant: rows, keys and ids of open transactions are disjoint, locked rows are current, uncommitted rows are exactly those of the statement reached, and every outcome is explained by the history. |
| Invariant.StaysApart | internal/repository/account_repo.go:76-84 | A statement that is not made to wait never takes a row, key, account id or sequence value that another open transaction owns. |
| Invariant.CommitPublishes | internal/repository/tx.go:69-74 | COMMIT publishes nothing after a replay, and otherwise exactly one legal atomic event on the tables as they are at that moment, touching only what the transaction had locked or written. |
| Transactions.Undisturbed | migrations/0001_init.up.sql:39-41 | A commit that avoids a transaction's locked rows, written keys and drawn ids leaves all that the transaction relies on intact. |
| Transactions.MoveCommits | internal/service/transfer_service.go:109-155 | Publishing two updated balances, the transfer row and the two entries computed from the locked rows is the atomic transfer on the committed tables of the commit. |
| Transactions.OpeningCommits | internal/repository/account_repo.go:27-50 | Publishing a new account with its deposit (if any) is the atomic opening on the committed tables of the commit. |
| Transactions.RowsInOrder | internal/repository/account_repo.go:77-84 | The rows to lock are exactly the requested ones that exist, in strictly ascending id order. |
| Guarantees.CommittedBooksAreClean | audit_script.py:18-57 | In every reachable committed state, also while others are half done: the schema's constraints hold, balances are in [0, 10^20), every account reconciles and replays, versions count entries, transfers are double entries, and both loops of the audit accept. |
| Guarantees.HeldRowsAreCurrent | internal/service/transfer_service.go:90-116 | No lost update: while a call holds a row, what it read is the committed version, and nobody else holds the row. |
| Guarantees.OverflowUndoesTheDebit | internal/service/transfer_service.go:109-116 | The second update fails exactly when the destination's sum is out of range, and then the debit already written is gone and nothing was committed. |
| Guarantees.CommitsOfOthers | internal/repository/tx.go:60-76 | A commit of another call is no change, or one legal event that avoids everything this call has locked, written or drawn. |
| Guarantees.TablesExtend | migrations/0001_init.up.sql:16-58 | Committed transfers, entries and deposits are never changed or removed, and accounts never disappear. |
| Guarantees.OnlyTheDatabaseFails | internal/repository/tx.go:43-76 | In every run a call reports a database failure, or is about to, only if the database has failed one of its own statements; `Attempts.RetriesAreSpent` says how many and which. |
| Attempts.RetriesAreSpent | internal/repository/tx.go:43-56 | In every run, a finished call that reports a database failure has met three faults of which the first two were 40001 or 40P01, or fewer of which exactly the last was neither, and reports the SQLSTATE of the last, as exhausted retries if that was transient too; every other finished call has met at most two faults, all transient. The one exception, stated too, is the re-fetch after a lost race, which is not retried. |
| Attempts.AnswerDespiteFailures | internal/repository/tx.go:45-56 | However one or two transient failures strike a call that runs alone, at whatever statements, it can go on as long as it is unfinished, and its answer and effect are those of the atomic decision on the tables it was invoked on, executed once. |
| Attempts.CallAloneDespiteFailures | internal/repository/tx.go:45-56 | Such executions exist for any call and any one or two transient faults: the call begins again after each and reaches the same answer as without them. |
| Guarantees.AccountsOpenOnce | internal/service/account_service.go:28-38 | At most one call per account id ever reports that it created the account, and the account is then committed. |
| Guarantees.OpeningFailsOnlyIfTaken | internal/repository/account_repo.go:27-37 | A failed opening reports an existing account that was committed at some moment between the invocation and the return, or a failure of the database to run one of its own statements. |
| Audit.AtomicRunKeepsBooks | migrations/0001_init.up.sql:3-58 | All tables of every atomic run are clean books. |
| Audit.MoveKeepsBooks | internal/service/transfer_service.go:109-154 | An atomic transfer keeps the books of all accounts and transfers clean. |
| Audit.StatementReplays | README.md:290-297 | On clean books, whatever way an account's entries are sorted by id: the first follows from the deposit or zero, each further one from its predecessor, the last is the current balance, and there are as many as the version says, whatever gaps the ids have. |
| Audit.MicroImpliesMacro | audit_script.py:48-57 | On any tables with sound references, per-account reconciliation and equal debit and credit totals together imply that all balances sum to all deposits. |
| Audit.BooksPassTheAudit | audit_script.py:18-57 | Clean books pass both parts of the audit. |
| Audit.AuditDatabase | audit_script.py:18-57 | The script passes exactly if all balances sum to all deposits and every single balance is its account's deposits plus credits minus debits. So it passes clean books; and it fails on every manipulation of clean books: any changed balance or balances, another amount or account in a deposit, or another amount, account or direction in an entry. |
| Audit.AuditIsExact | audit_script.py:18-57 | On rows with positive amounts and existing accounts, both parts of the audit accept exactly if debits and credits are the same in total and every balance is what the account's rows add up to. |
| Audit.ManipulationIsDetected | audit_script.py:37-57 | Each such manipulation of clean books leaves some account, by name, that does not reconcile. |
| Audit.SumBalances | audit_script.py:18-19 | The sum over the accounts in id order is the sum over the set of accounts. |
| Audit.AccountsById | audit_script.py:34-35 | All accounts, each once, in ascending id order. |
| Idempotency.ExactlyOncePerKey | internal/service/transfer_service.go:43-83 | However many calls share a key and overlap, one committed transfer carries it, and every success returns that transfer, with parameters equal to the caller's own. |
| Idempotency.ReturnedIsCommitted | internal/service/transfer_service.go:61-62 | A returned transfer is a committed row with the caller's key and parameters. |
| Idempotency.LostRacesResolve | internal/service/transfer_service.go:160-172 | When Insert has reported a duplicate, the winner is committed and stays so, the re-fetch finds it whenever it runs, and the duplicate-key error never reaches a caller. |
| Idempotency.OverlappingRetry | internal/service/transfer_service.go:52-66 | A retry beside a committed twin never moves money, and ends with the twin's transfer, one of its own refusals from before the insert, or, if the database has failed one of its statements, that failure; never with a conflict. |
| Idempotency.SequentialReplayIsStable | internal/service/transfer_service.go:52-64 | A call invoked after its key was committed changes nothing, holds no lock, and answers with the original if the parameters are equal, also when the source could no longer cover it, and with a conflict if not; only a database failure of its own can change that. |
| Idempotency.FailureKeepsTheKeyFree | internal/repository/tx.go:63-71 | In every state of every run a key is unused exactly as long as no call with it has returned a transfer, however many have failed or are in flight; and while it is unused a new call meets accounts and funds alone. |
| Idempotency.AnswersAreDecisions | internal/service/transfer_service.go:43-83 | Every finished transfer answers with atomic decisions taken between its invocation and its return, unless the database has failed one of its statements; a refusal that is no conflict is made of two moments, key unused at the first and accounts or funds refusing at the second. |
| Idempotency.UncontestedRefusalIsAtomic | internal/service/transfer_service.go:90-107 | If no call with the key has returned a transfer, and always without a key, an error that is no database failure is the atomic decision of one moment between the invocation and the return. |
| Idempotency.RefusalIsAtomic | internal/service/transfer_service.go:52-66 | On any history at whose end the key is unused, the two moments of a refusal are one. |
| Retry.RetriesAgreeIff | README.md:76-78 | From any quiet state in which the command can be executed, with no other activity and no failures: any number of overlapping calls with one key and equal parameters all return the same transfer, in every interleaving, if and only if the accounts admit the command twice or the pool has at most one connection. |
| Retry.RefusalsAreAtomicIff | internal/service/transfer_service.go:52-66 | From any quiet state, with no other activity and no failures, in every interleaving of calls with one command, every refusal is the atomic decision of one moment of its call, if and only if the command has no key, or is not executable, or is executable twice, or the pool has at most one connection. |
| Retry.RetryingAction | test/integration/idempotency_test.go:24-49 | Every step of such a race keeps every call on its way to the winner's transfer. |
| Solo.RetryCanBeRefused | internal/service/transfer_service.go:105-107 | On a pool of at least two connections, from any quiet state that admits the command once but not twice, some run without failures executes one call and refuses its twin, although the atomic decision never was to refuse. |
| Solo.RefusedRetryRun | internal/service/transfer_service.go:52-66 | From the empty database there is such a run, and the refusal is insufficient funds. |
| Solo.CallAloneIsAtomic | internal/service/transfer_service.go:43-83 | A call on a quiet system can run to its end without database failures, and its answer and effect are those of the atomic decision on the tables it found. |
| Race.ExactSuccessCount | test/integration/concurrency_test.go:19-62 | From a quiet state, any number n of equal transfers without a key, with no other activity or failures, ends in every interleaving with exactly as many successes as the least of n, what the source covers (funds div amount) and what the destination has room for; every other call reports insufficient funds or the overflow, whichever is the case, and both balances have moved by exactly the successes. |
| Race.RoomForAll | test/integration/concurrency_test.go:55-62 | When the destination has room for all that the two accounts hold, as an empty one has, the count is min(n, funds div amount) and every other call reports insufficient funds. |
| Progress.NoCircularWait | internal/repository/account_repo.go:76-84 | No calls ever wait for each other in a circle over connections, rows, account ids and keys. |
| Progress.PoolIsNeverExceeded | internal/repository/tx.go:60-76 | In every run, at no time do more calls hold a connection than the pool has: from the statement that begins a transaction to its commit or rollback, and during the re-fetch. |
| Progress.SomeCallCanStep | internal/repository/tx.go:60-67 | For every pool of at least one connection, whenever a call is unfinished some call can run its next statement. |
| Progress.CallsCanFinish | internal/repository/tx.go:43-56 | For every pool of at least one connection, all calls in flight can finish from every state that satisfies the invariant. |
| Progress.WorkIsBounded | internal/repository/tx.go:43-56 | n calls run at most 76 n statements between them, whatever fails and however they interleave; retries included. |
| Errors.WrappingKeepsClassification | internal/repository/tx.go:80-86 | However often an error is wrapped, retry, constraint and sentinel classification see through it; it stays retryable exactly when its SQLSTATE is 40001 or 40P01. |
| Errors.RetryableIsNoSentinel | internal/repository/errors.go:18-41 | A retryable error is a database failure and none of the domain errors. |
| Errors.PostgresErrors | internal/repository/errors.go:18-41 | A Postgres error under any wrapping is taken for exactly its SQLSTATE and constraint: retryable exactly for 40001 and 40P01, a unique violation exactly of its own constraint, a database failure exactly if it is none of 23505, 23514, 23503 and 22003, and no domain error. |
| Errors.OtherErrors | internal/domain/errors.go:10-42 | Any other error under any wrapping carries no SQLSTATE, is never retried, and matches exactly its own sentinel, a missing account the one for missing accounts. |
| Errors.ReportedState | internal/repository/tx.go:80-86 | An error that reports a fault has exactly the SQLSTATE of that fault, and none if the fault was the driver's. |
| Errors.FaultsAreFailures | internal/repository/tx.go:80-86 | The faults that the database may report at any statement are exactly the driver's error and the SQLSTATEs that are no violation. |
| Transactions.ViolationsAreMapped | internal/repository/account_repo.go:106-122 | The repositories turn a check violation of an update into insufficient funds, a taken key into the lost race and a taken account id into an existing account, each by its SQLSTATE and constraint under any wrapping, and wrap everything else. |
| Money.AcceptedAmounts | internal/service/money.go:33-60 | Exactly the decimals with at most eighteen places and a value in range are accepted, and the column stores each without rounding. |
| Money.ArithmeticIsExact | internal/service/transfer_service.go:105-110 | On decimals of the column's scale, subtraction, addition and comparisons are integer arithmetic on units and never need more than eighteen places. |
| Money.StorageRoundTrip | internal/service/transfer_service.go:201-205 | An accepted amount equals its own stored copy, and two accepted amounts match each other's stored copies exactly when they are equal. |
| Money.RoundsToNearest | migrations/0001_init.up.sql:5 | The NUMERIC column rounds a value of more places to the nearest one it can hold, half away from zero; nothing else is that value. |
| Money.TrailingZeros | internal/service/money.go:52-60 | Padding an accepted decimal with zeros keeps the value, and is accepted exactly as long as the written places stay within eighteen. |
| Money.ScaleCheckIsSyntactic | internal/service/money.go:53-55 | One and the same amount is accepted in one notation and refused in another. |
| Money.MaxUnitsIsPow10 | internal/service/money.go:13-16 | The bound in units is 10^20 at eighteen places. |
| Validation.AcceptedRequests | internal/service/transfer_service.go:176-195 | The accepted requests are exactly those with positive distinct account ids, a positive amount in range of at most eighteen places and no malformed key; the schema's constraints admit each of them. |
| Validation.RequestChecks | internal/service/transfer_service.go:176-195 | Which error each rejected request gets, exactly and in the order of the checks: an account id that is not positive, equal accounts, an amount outside its range or scale, a malformed key. |
| Validation.OpeningChecks | internal/service/account_service.go:28-34 | An opening is accepted exactly with a positive account id and a balance of at most eighteen places in [0, 10^20), zero included; which error each rejected one gets, exactly. |
| Validation.CmdOf | internal/service/transfer_service.go:52-53 | The command carries a key exactly if the request does, and that same key. |
| Validation.SameCommandIff | internal/service/transfer_service.go:201-205 | Two accepted requests stand for one command exactly if accounts, value of the amount, and key or its absence are the same. |
| Validation.MatchingIsExact | internal/service/transfer_service.go:201-205 | The decimal comparison of a stored transfer with a request is equality of the stored values. |
| Schema.FindKey | internal/repository/transfer_repo.go:32-49 | The lookup returns a row with the key if there is one, and nothing only if there is none. |
| Schema.FoundStaysFound | internal/repository/transfer_repo.go:32-49 | A key found once is found ever after, with the same row. |
| Store.Database.constructor | migrations/0001_init.up.sql:1-58 | A new database is empty and idle. |
| Store.Database.CommitOther | internal/repository/tx.go:60-76 | Another transaction commits its event, exactly if it is legal and not in this one's way; this one stays valid. |
| Store.Database.Pass | internal/repository/tx.go:60-76 | Around one statement, exactly the scripted commits of others happen and exactly the scripted fault hits it, if the database can raise it; what this transaction holds and has written stays as it is. |
| Store.FaultsAreMet | internal/repository/tx.go:60-76 | A scripted fault counts, whatever others commit around it, exactly if it is the driver's or has a SQLSTATE that is no violation. |
| Store.AdmittedTransfers | migrations/0001_init.up.sql:25-41 | What the model of the constraints says against a row of transfers is what the schema says: the row is admitted exactly if the tables with it satisfy all column ranges and all CHECK, UNIQUE and REFERENCES constraints. |
| Store.AdmittedEntries | migrations/0001_init.up.sql:50-58 | The same for a row of ledger_entries. |
| Service.RunCommitsArePermitted | internal/repository/tx.go:60-76 | Whatever another call of a run of the step machine commits while a call is in flight, a `Database` that stands for that call lets it through, with the same effect on the tables; so the imperative layer meets all the interference that the step machine has. |
| Store.Database.Begin | internal/repository/tx.go:61-64 | A transaction begins with nothing held or written, or fails as a database failure exactly if the script has failed it, and then reports exactly that fault, with its SQLSTATE, under its own operation. |
| Store.Database.FindByIdempotencyKey | internal/repository/transfer_repo.go:32-49 | Answers from the latest committed transfers and the transaction's own, and changes nothing. It fails as a database failure exactly if the script has failed it, and then reports exactly that fault, with its SQLSTATE, under its own operation. |
| Store.Database.LockForUpdate | internal/repository/account_repo.go:76-102 | In any transaction: adds to the held rows exactly the requested accounts that existed when the statement began, and returns exactly those and the transaction's own, each as visible at the moment of the return, though others commit while it waits. It fails as a database failure exactly if the script has failed it, and then reports exactly that fault, with its SQLSTATE, under its own operation. |
| Store.Database.UpdateBalance | internal/repository/account_repo.go:106-122 | Writes the balance, bumps the version and holds the row from then on, exactly when the balance is in range; an unknown id updates nothing; a negative balance reads as insufficient funds, an overflow as a wrapped database error, and a failure ends the transaction. It fails as a database failure exactly if the script has failed it, and then reports exactly that fault, with its SQLSTATE, under its own operation. |
| Store.Database.Insert | internal/repository/transfer_repo.go:54-69 | Adds the row under a fresh id and holds the accounts it references, exactly if the columns and constraints of the table admit it; otherwise reports the violation, a taken key as the duplicate. It fails as a database failure exactly if the script has failed it, and then reports exactly that fault, with its SQLSTATE, under its own operation. |
| Store.Database.InsertLedgerEntry | internal/repository/transfer_repo.go:73-83 | Adds the entry under an id above all of the transaction's earlier ones and holds its account, exactly if the columns and constraints of the table admit it; otherwise reports the violation. It fails as a database failure exactly if the script has failed it, and then reports exactly that fault, with its SQLSTATE, under its own operation. |
| Store.Database.Create | internal/repository/account_repo.go:27-50 | In any transaction and for any balance: writes the account, and a deposit exactly if it opens with money; reports an existing account only if it is visible, and a balance out of range as the schema does. It fails as a database failure exactly if the script has failed it, and then reports exactly that fault, with its SQLSTATE, under its own operation. |
| Store.Database.Rollback | internal/repository/tx.go:65-67 | Everything uncommitted is gone and the committed world is untouched. |
| Store.Database.Commit | internal/repository/tx.go:72-75 | On success the transaction's effect is the latest atomic event; on error nothing of it was committed. It fails as a database failure exactly if the script has failed it, and then reports exactly that fault, with its SQLSTATE, under its own operation. |
| Service.Execute | internal/service/transfer_service.go:87-156 | On success the uncommitted rows will publish the atomic transfer of the returned row, whatever others commit before; on error, accounts or funds refused at some moment of the execution, or the key was lost; a database failure is reported exactly if the database has failed a statement, once, with that fault's SQLSTATE. |
| Service.Record | internal/service/transfer_service.go:118-155 | The transfer row and the two entries complete the two updates to a whole transfer, unless the key was lost or the database has failed a statement, whose fault is then reported. |
| Service.TransferBody | internal/service/transfer_service.go:49-72 | The body assigns the captured result only when it succeeds: with the replayed transfer, or with its own; it reports a database failure exactly if the database has failed a statement, once, with that fault's SQLSTATE. |
| Service.OpenBody | internal/service/account_service.go:35-37 | The body of an account opening publishes exactly that opening, or explains its error; it reports a database failure exactly if the database has failed a statement, once, with that fault's SQLSTATE. |
| Service.RunOnce | internal/repository/tx.go:60-76 | One attempt commits its effect as the last event, or commits nothing; it meets no fault of the script, or exactly one, and then it reports that one with its SQLSTATE. |
| Service.WithTx | internal/repository/tx.go:43-56 | Measured by the faults of the script that its statements have met: a database failure is reported exactly after three faults of which the first two were 40001 or 40P01, or after fewer of which exactly the last was neither, with the SQLSTATE of the last, wrapped as exhausted retries if all three were transient; otherwise at most two were met, all transient. So each attempt that failed has run and met its own fault, in the order listed in tries. Nil exactly when the last attempt committed; the result is that attempt's; an error means that no attempt committed. |
| Service.ResolveDuplicate | internal/service/transfer_service.go:160-172 | Returns the committed transfer with the key, or a conflict; a database failure exactly if the database has failed the lookup, with that fault's SQLSTATE; the duplicate-key error only if the key was unused when it began. |
| Service.Transfer | internal/service/transfer_service.go:43-83 | A rejected request touches nothing. An error commits nothing; it is a database failure only after three transient faults of this call's statements, or one of another kind, or a failed re-fetch after a lost race, and carries the SQLSTATE of the last; otherwise it is a conflict at one moment of the call, or a refusal made of two moments as in AnswersAreDecisions. A success is a replay, or the call's own transfer committed once and last. If nobody else commits meanwhile it is exactly the atomic call. The duplicate-key error never escapes. |
| Service.CreateAccount | internal/service/account_service.go:28-38 | A rejected opening touches nothing, and `Validation.OpeningChecks` says which ones are; an error commits nothing, and says that the account exists or that the database has failed this call with three transient faults or one of another kind, with the SQLSTATE of the last; a success opened the account once and last; if nobody else commits meanwhile it is exactly the atomic call. |
| Service.QuietAnswer | internal/service/transfer_service.go:43-83 | When nobody commits meanwhile, an answer that is no database failure is the atomic decision on the tables that the call found. |
| Service.TransferPublishes | internal/service/transfer_service.go:109-155 | The rows of a finished execution publish its transfer on whatever tables there are by then. |

## Left out

- HTTP handlers, DTOs, middleware, health probes, metrics, logging, configuration, the migration runner: plumbing around the core.
- `AccountService.Get` and the stored status, `created_at` and `updated_at` columns: reads and constants that no proof depends on; ledger order is by id.
- UUID text: a key is absent, malformed, or an already canonical 128-bit value (section 4 of RFC 9562).
- Decimal text parsing and printing: amounts start as (coefficient, exponent) pairs.
- Widths: ids, versions and sequences are unbounded where the columns are BIGINT; exhaustion of 2^63 values is not modelled.
- Foreign-key share locks in the step machine: there they touch only rows that the transaction already holds or has created, so they add no waiting.
- Deadlock detection and serialization errors by Postgres appear only as failures that any statement may report; statements after a failed one are not run, as the code never runs any.
- Context cancellation and timeouts: failures of the statement at hand.
- Returning the connection to the pool is one step with the commit or rollback, and a failed statement gives up its locks before the client has rolled back.
- The two fields of the pool that the services hold (for re-fetching outside the transaction) are one `Database` here.
- Service.WithTx: takes the two bodies that the services pass to it and not any function, because methods are not values and an arbitrary body would not commit a transfer or an opening.
- Service.RunOnce: takes the same two bodies, for the same reason.
- Store.Database.Insert: a referenced row is held like a locked one, where Postgres would share it.
- Store.Database.InsertLedgerEntry: holds the referenced account, likewise.
- Store.Database.LockForUpdate: the imperative layer does not show who waits for whom; waiting is in the step machine.
