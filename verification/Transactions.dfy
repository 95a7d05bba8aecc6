/**
 What one open transaction sees and owns under READ COMMITTED: the committed world, the rows
 it has locked, and its own uncommitted rows. Both the step machine and the imperative
 service are built on these definitions.

 Assumptions about Postgres, stated once:
 - a FOR UPDATE lock lasts to the end of its transaction, and the locked row is read at its
   latest committed version;
 - uncommitted rows are visible to their own transaction only; commit publishes all of them in
   one step and rollback discards all of them;
 - a failed statement rolls the transaction's rows and locks back at once; an error from
   COMMIT means that nothing was committed;
 - inserting a unique key waits while another open transaction has written a row with that
   key, fails if that transaction commits it, and proceeds if that transaction goes away;
 - sequence values are never handed out twice and never returned.
 */
module Transactions {
  import opened Options
  import opened Errors
  import opened Money
  import opened Schema

  /** Committed tables and sequences, with the history that led there: log lists the committed
      effects in commit order and past the committed tables before and after each of them. */
  datatype World = World(db: Tables, ids: Ids, past: seq<Tables>, log: seq<Event>)

  const NEW_WORLD := World(EMPTY, Ids(1, 1, 1), [EMPTY], [])

  predicate IdsBelow(t: Tables, ids: Ids) {
    && (forall r :: r in t.transfers ==> r.id < ids.transfer)
    && (forall r :: r in t.ledger ==> r.id < ids.ledger)
    && (forall d :: d in t.deposits ==> d.id < ids.deposit)
  }

  predicate Bounded(t: Tables) {
    forall a :: a in t.accounts ==> 0 <= t.accounts[a].balance < MAX_UNITS
  }

  ghost predicate WorldOk(w: World) {
    && AtomicRun(w.past, w.log)
    && w.db == w.past[|w.log|]
    && IdsBelow(w.db, w.ids)
    && Bounded(w.db)
  }

  predicate IdsAtMost(a: Ids, b: Ids) {
    a.transfer <= b.transfer && a.ledger <= b.ledger && a.deposit <= b.deposit
  }

  /** w' is a later world than w. */
  ghost predicate Grows(w: World, w': World) {
    && w.past <= w'.past
    && w.log <= w'.log
    && IdsAtMost(w.ids, w'.ids)
  }

  predicate SameTables(w: World, w0: World) { w.db == w0.db && w.past == w0.past && w.log == w0.log }

  ghost predicate EventIdsBelow(e: Event, ids: Ids) {
    match e
    case Moved(_, _, id, debit, credit) => id < ids.transfer && debit < ids.ledger && credit < ids.ledger
    case Opened(_, _, balance, deposit) => balance > 0 ==> deposit < ids.deposit
  }

  function Committed(w: World, e: Event): World
    requires Legal(w.db, e)
  {
    var db := Apply(w.db, e);
    World(db, w.ids, w.past + [db], w.log + [e])
  }

  lemma CommittedOk(w: World, e: Event)
    requires WorldOk(w) && Legal(w.db, e) && EventIdsBelow(e, w.ids)
    ensures WorldOk(Committed(w, e)) && Grows(w, Committed(w, e)) && Extends(w.db, Committed(w, e).db)
  {
    AtomicRunAppend(w.past, w.log, e);
  }

  lemma WorldExtends(w: World, w': World)
    requires WorldOk(w) && WorldOk(w') && Grows(w, w')
    ensures Extends(w.db, w'.db)
  {
    assert w.db == w'.past[|w.log|];
    PastExtends(w'.past, w'.log, |w.log|, |w'.log|);
  }

  // ----- statements -----

  /** Committing publishes the uncommitted rows over the committed ones. */
  function Merge(base: Tables, work: Tables): Tables {
    Tables(
      base.accounts + work.accounts,
      base.deposits + work.deposits,
      base.transfers + work.transfers,
      base.ledger + work.ledger)
  }

  function UpdateError(e: Error): Error {
    if HasState(e, CheckViolation) then Sentinel(InsufficientFunds) else Wrap(UpdateBalance, e)
  }

  function InsertTransferError(e: Error): Error {
    if IsUniqueViolation(e, IdempotencyKeyIndex) then Sentinel(DuplicateIdempotencyKey) else Wrap(InsertTransfer, e)
  }

  function InsertAccountError(e: Error): Error {
    if IsUniqueViolation(e, AccountsPrimaryKey) then Sentinel(AccountAlreadyExists) else Wrap(InsertAccount, e)
  }

  /** What the repositories make of a violation depends on its SQLSTATE and constraint only. */
  lemma ViolationsAreMapped(operations: seq<Operation>, state: SqlState, constraint: Constraint)
    ensures var e := Wrapped(operations, Pg(state, constraint));
            && UpdateError(e) == (if state == CheckViolation then Sentinel(InsufficientFunds)
                                  else Wrap(UpdateBalance, e))
            && InsertTransferError(e) == (if state == UniqueViolation && constraint == IdempotencyKeyIndex then
                                            Sentinel(DuplicateIdempotencyKey)
                                          else Wrap(InsertTransfer, e))
            && InsertAccountError(e) == (if state == UniqueViolation && constraint == AccountsPrimaryKey then
                                           Sentinel(AccountAlreadyExists)
                                         else Wrap(InsertAccount, e))
  {
    PostgresErrors(operations, state, constraint);
  }

  /** UPDATE accounts SET balance = $2, version = version + 1 WHERE id = $1, with the column's
      range and the balance_non_negative check. An id without a row updates nothing. */
  function UpdatedBalance(db: Tables, work: Tables, id: int, balance: int): Result<Tables, Error> {
    var visible := db.accounts + work.accounts;
    if !(-MAX_UNITS < balance < MAX_UNITS) then Failure(UpdateError(Pg(NumericOverflow, NoConstraint)))
    else if balance < 0 then Failure(UpdateError(Pg(CheckViolation, NoConstraint)))
    else if id in visible then
      Success(work.(accounts := work.accounts[id := Account(balance, visible[id].version + 1)]))
    else Success(work)
  }

  /** INSERT INTO transfers, once no other open transaction holds the key. */
  function InsertedTransfer(db: Tables, work: Tables, row: Transfer): Result<Tables, Error> {
    if KeyFree(db, row.key) && KeyFree(work, row.key) then Success(work.(transfers := work.transfers + [row]))
    else Failure(InsertTransferError(Pg(UniqueViolation, IdempotencyKeyIndex)))
  }

  function InsertedEntry(work: Tables, entry: Entry): Tables {
    work.(ledger := work.ledger + [entry])
  }

  /** INSERT INTO accounts, once no other open transaction has written that account. */
  function InsertedAccount(db: Tables, work: Tables, id: int, balance: int): Result<Tables, Error> {
    if !(-MAX_UNITS < balance < MAX_UNITS) then Failure(InsertAccountError(Pg(NumericOverflow, NoConstraint)))
    else if balance < 0 then Failure(InsertAccountError(Pg(CheckViolation, NoConstraint)))
    else if id in db.accounts || id in work.accounts then
      Failure(InsertAccountError(Pg(UniqueViolation, AccountsPrimaryKey)))
    else Success(work.(accounts := work.accounts[id := Account(balance, 0)]))
  }

  function InsertedDeposit(work: Tables, d: Deposit): Tables {
    work.(deposits := work.deposits + [d])
  }

  function InsertInOrder(ids: seq<int>, a: int): (r: seq<int>)
    requires forall m, n :: 0 <= m < n < |ids| ==> ids[m] < ids[n]
    ensures forall m, n :: 0 <= m < n < |r| ==> r[m] < r[n]
    ensures forall b :: b in r <==> b in ids || b == a
  {
    if |ids| == 0 then [a]
    else
      var last := ids[|ids| - 1];
      if a == last then ids
      else if a < last then
        var front := InsertInOrder(ids[..|ids| - 1], a);
        assert forall m :: 0 <= m < |front| ==> front[m] in front;
        front + [last]
      else ids + [a]
  }

  /** WHERE id = ANY(ids) ORDER BY id: the existing rows, in ascending order. */
  function RowsInOrder(t: Tables, ids: seq<int>): (rows: seq<int>)
    ensures forall m, n :: 0 <= m < n < |rows| ==> rows[m] < rows[n]
    ensures forall a :: a in rows <==> a in ids && a in t.accounts
  {
    if |ids| == 0 then []
    else
      var rows := RowsInOrder(t, ids[1..]);
      if ids[0] in t.accounts then InsertInOrder(rows, ids[0]) else rows
  }

  // ----- what a transaction owns -----

  datatype Footprint = Footprint(
    rows: set<int>,
    keys: set<Key>,
    transferIds: set<nat>,
    entryIds: set<nat>,
    depositIds: set<nat>)

  /** Locked and written accounts, written keys, and the ids drawn so far; drawn holds a
      transfer id whose row is not inserted yet. */
  function FootprintOf(held: map<int, Account>, work: Tables, drawn: set<nat>): Footprint {
    Footprint(
      held.Keys + work.accounts.Keys,
      set t | t in work.transfers && t.key.Some? :: t.key.value,
      drawn + (set t | t in work.transfers :: t.id),
      set r | r in work.ledger :: r.id,
      set d | d in work.deposits :: d.id)
  }

  function EventFootprint(e: Event): Footprint {
    match e
    case Moved(_, cmd, id, debit, credit) =>
      Footprint(Touched(e), if cmd.key.Some? then {cmd.key.value} else {}, {id}, {debit, credit}, {})
    case Opened(_, account, balance, deposit) =>
      Footprint(Touched(e), {}, {}, {}, if balance > 0 then {deposit} else {})
  }

  predicate Apart(f: Footprint, g: Footprint) {
    && f.rows !! g.rows
    && f.keys !! g.keys
    && f.transferIds !! g.transferIds
    && f.entryIds !! g.entryIds
    && f.depositIds !! g.depositIds
  }

  /** The locked rows are the committed ones, and nothing the transaction has written clashes
      with a committed row; its ledger ids are above all committed ids of their account. */
  ghost predicate PendingOk(w: World, held: map<int, Account>, work: Tables, drawn: set<nat>) {
    && (forall a :: a in held ==> a in w.db.accounts && held[a] == w.db.accounts[a])
    && (forall a :: a in work.accounts && a !in held ==> a !in w.db.accounts)
    && (forall n :: n in drawn ==> n < w.ids.transfer && forall r :: r in w.db.transfers ==> r.id != n)
    && (forall t :: t in work.transfers ==>
          && t.id < w.ids.transfer
          && KeyFree(w.db, t.key)
          && forall r :: r in w.db.transfers ==> r.id != t.id)
    && (forall e :: e in work.ledger ==>
          && e.id < w.ids.ledger
          && (e.account in held || e.account in work.accounts)
          && forall r :: r in w.db.ledger ==> r.id != e.id && (r.account == e.account ==> r.id < e.id))
    && (forall d :: d in work.deposits ==>
          && d.id < w.ids.deposit
          && forall r :: r in w.db.deposits ==> r.id != d.id)
  }

  /** A transaction whose footprint a committed effect avoids is not disturbed by it. This is
      where row locks, key waits and sequences earn their keep. */
  lemma Undisturbed(w: World, held: map<int, Account>, work: Tables, drawn: set<nat>, e: Event)
    requires PendingOk(w, held, work, drawn) && Legal(w.db, e)
    requires Apart(EventFootprint(e), FootprintOf(held, work, drawn))
    ensures PendingOk(Committed(w, e), held, work, drawn)
  {
  }

  // ----- what a statement adds -----

  lemma EmptyPending(w: World)
    ensures PendingOk(w, map[], EMPTY, {})
  {
  }

  /** A row that a statement locks, for an update or for a reference to it. */
  function WithRow(held: map<int, Account>, db: Tables, id: int): map<int, Account> {
    if id in db.accounts && id !in held then held[id := db.accounts[id]] else held
  }

  lemma PendingAfterLock(w: World, held: map<int, Account>, work: Tables, drawn: set<nat>, id: int)
    requires PendingOk(w, held, work, drawn)
    ensures PendingOk(w, WithRow(held, w.db, id), work, drawn)
  {
  }

  lemma PendingAfterUpdate(w: World, held: map<int, Account>, work: Tables, drawn: set<nat>, id: int, balance: int)
    requires PendingOk(w, held, work, drawn) && UpdatedBalance(w.db, work, id, balance).Success?
    ensures PendingOk(w, WithRow(held, w.db, id), UpdatedBalance(w.db, work, id, balance).value, drawn)
  {
  }

  lemma PendingAfterInsert(w: World, held: map<int, Account>, work: Tables, row: Transfer)
    requires PendingOk(w, held, work, {row.id}) && KeyFree(w.db, row.key)
    ensures PendingOk(w, held, work.(transfers := work.transfers + [row]), {})
  {
  }

  lemma PendingAfterEntry(w: World, held: map<int, Account>, work: Tables, drawn: set<nat>, e: Entry)
    requires WorldOk(w) && PendingOk(w, held, work, drawn) && e.id == w.ids.ledger
    requires e.account in held || e.account in work.accounts
    ensures PendingOk(w.(ids := w.ids.(ledger := w.ids.ledger + 1)), held, InsertedEntry(work, e), drawn)
  {
  }

  lemma PendingAfterDraw(w: World, held: map<int, Account>, work: Tables)
    requires WorldOk(w) && PendingOk(w, held, work, {})
    ensures PendingOk(w.(ids := w.ids.(transfer := w.ids.transfer + 1)), held, work, {w.ids.transfer})
  {
  }

  lemma PendingAfterAccount(w: World, held: map<int, Account>, work: Tables, drawn: set<nat>, id: int, balance: int)
    requires PendingOk(w, held, work, drawn) && InsertedAccount(w.db, work, id, balance).Success?
    ensures PendingOk(w, held, InsertedAccount(w.db, work, id, balance).value, drawn)
  {
  }

  lemma PendingAfterDeposit(w: World, held: map<int, Account>, work: Tables, drawn: set<nat>, d: Deposit)
    requires WorldOk(w) && PendingOk(w, held, work, drawn) && d.id == w.ids.deposit
    ensures PendingOk(w.(ids := w.ids.(deposit := w.ids.deposit + 1)), held, InsertedDeposit(work, d), drawn)
  {
  }

  lemma MoreIds(w: World, ids: Ids)
    requires WorldOk(w) && IdsAtMost(w.ids, ids)
    ensures WorldOk(w.(ids := ids)) && Grows(w, w.(ids := ids))
  {
  }

  // ----- the uncommitted rows of a transfer, stage by stage -----

  datatype Stage =
    | Untouched
    | SourceWritten
    | DestWritten
    | RowWritten(id: nat)
    | DebitWritten(id: nat, debit: nat)
    | CreditWritten(id: nat, debit: nat, credit: nat)

  predicate BothHeld(held: map<int, Account>, cmd: Cmd) {
    && held.Keys == {cmd.source, cmd.dest}
    && held[cmd.source].balance >= cmd.amount
  }

  function Written(held: map<int, Account>, cmd: Cmd, stage: Stage): Tables
    requires BothHeld(held, cmd)
  {
    var source, dest := held[cmd.source], held[cmd.dest];
    var source' := Account(source.balance - cmd.amount, source.version + 1);
    var dest' := Account(dest.balance + cmd.amount, dest.version + 1);
    match stage
    case Untouched => EMPTY
    case SourceWritten => Tables(map[cmd.source := source'], [], [], [])
    case DestWritten => Tables(map[cmd.source := source', cmd.dest := dest'], [], [], [])
    case RowWritten(id) => Tables(map[cmd.source := source', cmd.dest := dest'], [], [RowOf(cmd, id)], [])
    case DebitWritten(id, debit) =>
      Tables(map[cmd.source := source', cmd.dest := dest'], [], [RowOf(cmd, id)],
             [DebitOf(cmd, id, debit, source.balance)])
    case CreditWritten(id, debit, credit) =>
      Tables(map[cmd.source := source', cmd.dest := dest'], [], [RowOf(cmd, id)],
             [DebitOf(cmd, id, debit, source.balance), CreditOf(cmd, id, credit, dest.balance)])
  }

  /** Publishing a finished transfer transaction is the atomic transfer on the tables as they
      are at that moment. */
  lemma MoveCommits(w: World, held: map<int, Account>, cmd: Cmd, session: nat, id: nat, debit: nat, credit: nat)
    requires ValidCmd(cmd) && BothHeld(held, cmd) && held[cmd.dest].balance + cmd.amount < MAX_UNITS
    requires debit != credit
    requires PendingOk(w, held, Written(held, cmd, CreditWritten(id, debit, credit)), {})
    ensures var e := Moved(session, cmd, id, debit, credit);
            && Legal(w.db, e)
            && EventIdsBelow(e, w.ids)
            && Merge(w.db, Written(held, cmd, CreditWritten(id, debit, credit))) == Apply(w.db, e)
            && FootprintOf(held, Written(held, cmd, CreditWritten(id, debit, credit)), {}) == EventFootprint(e)
  {
    var work := Written(held, cmd, CreditWritten(id, debit, credit));
    var e := Moved(session, cmd, id, debit, credit);
    assert work.transfers[0] in work.transfers;
    assert work.ledger[0] in work.ledger && work.ledger[1] in work.ledger;
    assert cmd.source in held && cmd.dest in held;
    assert Legal(w.db, e);
    assert Merge(w.db, work).accounts == Apply(w.db, e).accounts;
    assert w.db.deposits + [] == w.db.deposits;
    var f, g := FootprintOf(held, work, {}), EventFootprint(e);
    assert f.rows == g.rows;
    assert f.keys == g.keys;
    assert f.transferIds == g.transferIds;
    assert f.entryIds == g.entryIds;
    assert f.depositIds == g.depositIds;
  }

  /** The uncommitted rows of an account opening; deposit is None before the deposit row. */
  function OpeningRows(account: int, balance: int, deposit: Option<nat>): Tables {
    Tables(map[account := Account(balance, 0)],
           if deposit.Some? then [Deposit(deposit.value, account, balance)] else [], [], [])
  }

  lemma OpeningCommits(w: World, account: int, balance: int, session: nat, deposit: Option<nat>)
    requires ValidOpening(account, balance) && (deposit.Some? <==> balance > 0)
    requires PendingOk(w, map[], OpeningRows(account, balance, deposit), {})
    ensures var e := Opened(session, account, balance, if deposit.Some? then deposit.value else 0);
            && Legal(w.db, e)
            && EventIdsBelow(e, w.ids)
            && Merge(w.db, OpeningRows(account, balance, deposit)) == Apply(w.db, e)
            && FootprintOf(map[], OpeningRows(account, balance, deposit), {}) == EventFootprint(e)
  {
  }
}
