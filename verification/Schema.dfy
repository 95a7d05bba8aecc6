/**
 The tables of migrations/0001_init.up.sql and the atomic specification: whole transfers and
 whole account openings applied to committed tables one at a time.
 */
module Schema {
  import opened Options
  import opened Errors
  import opened Money

  /** An idempotency key: a canonical 128-bit UUID (section 4 of RFC 9562). */
  type Key = k: nat | k < 0x1_0000_0000_0000_0000_0000_0000_0000_0000

  datatype Account = Account(balance: int, version: nat)

  datatype Direction = Debit | Credit

  datatype Deposit = Deposit(id: nat, account: int, amount: int)

  /** A transfer row. Its status column is always 'completed', so it is left out. */
  datatype Transfer = Transfer(id: nat, key: Option<Key>, source: int, dest: int, amount: int)

  datatype Entry = Entry(id: nat, transfer: nat, account: int, direction: Direction, amount: int, balanceAfter: int)

  /** Amounts and balances are in units of 10^-18. Rows of the append-only tables are listed in
      the order in which they were committed; that order need not be the order of their ids. */
  datatype Tables = Tables(
    accounts: map<int, Account>,
    deposits: seq<Deposit>,
    transfers: seq<Transfer>,
    ledger: seq<Entry>)

  const EMPTY: Tables := Tables(map[], [], [], [])

  /** The next values of the three BIGSERIAL sequences. */
  datatype Ids = Ids(transfer: nat, ledger: nat, deposit: nat)

  /** A validated transfer command. */
  datatype Cmd = Cmd(source: int, dest: int, amount: int, key: Option<Key>)

  predicate ValidCmd(cmd: Cmd) {
    0 < cmd.source && 0 < cmd.dest && cmd.source != cmd.dest && 0 < cmd.amount < MAX_UNITS
  }

  predicate ValidOpening(account: int, balance: int) {
    0 < account && 0 <= balance < MAX_UNITS
  }

  // ----- rows -----

  function RowOf(cmd: Cmd, id: nat): Transfer { Transfer(id, cmd.key, cmd.source, cmd.dest, cmd.amount) }

  function DebitOf(cmd: Cmd, transfer: nat, id: nat, before: int): Entry {
    Entry(id, transfer, cmd.source, Debit, cmd.amount, before - cmd.amount)
  }

  function CreditOf(cmd: Cmd, transfer: nat, id: nat, before: int): Entry {
    Entry(id, transfer, cmd.dest, Credit, cmd.amount, before + cmd.amount)
  }

  predicate Matches(t: Transfer, cmd: Cmd) {
    t.source == cmd.source && t.dest == cmd.dest && t.amount == cmd.amount
  }

  /** The lookup by idempotency key. */
  function FindKey(rows: seq<Transfer>, key: Key): (found: Option<Transfer>)
    ensures found.Some? ==> found.value in rows && found.value.key == Some(key)
    ensures found.None? ==> forall r :: r in rows ==> r.key != Some(key)
  {
    if |rows| == 0 then None
    else if rows[0].key == Some(key) then Some(rows[0])
    else FindKey(rows[1..], key)
  }

  /** The transfer that holds the key; without a key there is none. */
  function Holder(t: Tables, key: Option<Key>): Option<Transfer> {
    if key.Some? then FindKey(t.transfers, key.value) else None
  }

  predicate KeyFree(t: Tables, key: Option<Key>) { Holder(t, key).None? }

  lemma {:induction false} FindKeyAppend(rows: seq<Transfer>, more: seq<Transfer>, key: Key)
    ensures FindKey(rows + more, key) == if FindKey(rows, key).Some? then FindKey(rows, key) else FindKey(more, key)
  {
    if |rows| == 0 {
      assert rows + more == more;
    } else {
      assert (rows + more)[1..] == rows[1..] + more;
      FindKeyAppend(rows[1..], more, key);
    }
  }

  /** NUMERIC(38, 18). */
  predicate Fits(n: int) { -MAX_UNITS < n < MAX_UNITS }

  /** The column ranges and the CHECK, UNIQUE and REFERENCES constraints of the schema. */
  ghost predicate SchemaOk(t: Tables) {
    && (forall a :: a in t.accounts ==> Fits(t.accounts[a].balance) && 0 <= t.accounts[a].balance)
    && (forall d :: d in t.deposits ==> Fits(d.amount) && d.amount > 0 && d.account in t.accounts)
    && (forall r :: r in t.transfers ==>
          && Fits(r.amount) && r.amount > 0
          && r.source != r.dest && r.source in t.accounts && r.dest in t.accounts)
    && (forall e :: e in t.ledger ==>
          && Fits(e.amount) && e.amount > 0 && Fits(e.balanceAfter)
          && e.account in t.accounts && exists r :: r in t.transfers && r.id == e.transfer)
    && (forall m, n :: 0 <= m < n < |t.transfers| ==>
          && t.transfers[m].id != t.transfers[n].id
          && (t.transfers[m].key.Some? ==> t.transfers[m].key != t.transfers[n].key))
    && (forall m, n :: 0 <= m < n < |t.ledger| ==> t.ledger[m].id != t.ledger[n].id)
    && (forall m, n :: 0 <= m < n < |t.deposits| ==> t.deposits[m].id != t.deposits[n].id)
  }

  // ----- the atomic specification -----

  /** What one atomic look at the committed tables says about a command. */
  datatype Verdict =
    | Replayed(original: Transfer)
    | Conflict
    | Missing(account: int)
    | Insufficient
    | TooLarge
    | Execute

  function Decide(t: Tables, cmd: Cmd): Verdict {
    match Holder(t, cmd.key)
    case None => DecideFunds(t, cmd)
    case Some(original) => if Matches(original, cmd) then Replayed(original) else Conflict
  }

  function DecideFunds(t: Tables, cmd: Cmd): Verdict {
    if cmd.source !in t.accounts then Missing(cmd.source)
    else if cmd.dest !in t.accounts then Missing(cmd.dest)
    else if t.accounts[cmd.source].balance < cmd.amount then Insufficient
    else if t.accounts[cmd.dest].balance + cmd.amount >= MAX_UNITS then TooLarge
    else Execute
  }

  /** The funds cover the command twice over, and the destination has room for both. */
  predicate CoversTwice(t: Tables, cmd: Cmd) {
    && cmd.source in t.accounts && t.accounts[cmd.source].balance >= 2 * cmd.amount
    && cmd.dest in t.accounts && t.accounts[cmd.dest].balance + 2 * cmd.amount < MAX_UNITS
  }

  predicate Refuses(v: Verdict) { v.Conflict? || v.Missing? || v.Insufficient? || v.TooLarge? }

  /** The error a refusing verdict is reported as. */
  function VerdictError(v: Verdict): Error
    requires Refuses(v)
  {
    match v
    case Conflict => Sentinel(IdempotencyConflict)
    case Missing(a) => MissingAccount(a)
    case Insufficient => Sentinel(InsufficientFunds)
    case TooLarge => Wrap(UpdateBalance, Pg(NumericOverflow, NoConstraint))
  }

  /** One committed effect: the session that caused it, what it did, and the ids it drew. */
  datatype Event =
    | Moved(session: nat, cmd: Cmd, id: nat, debit: nat, credit: nat)
    | Opened(session: nat, account: int, balance: int, deposit: nat)

  function Touched(e: Event): set<int> {
    match e
    case Moved(_, cmd, _, _, _) => {cmd.source, cmd.dest}
    case Opened(_, account, _, _) => {account}
  }

  /** The atomic step is allowed: the command may execute, and its ids are unused and, within
      each of the two accounts, higher than every earlier entry id. */
  predicate Legal(t: Tables, e: Event) {
    match e
    case Moved(_, cmd, id, debit, credit) =>
      && ValidCmd(cmd)
      && Decide(t, cmd) == Execute
      && (forall r :: r in t.transfers ==> r.id != id)
      && debit != credit
      && (forall r :: r in t.ledger ==> r.id != debit && r.id != credit)
      && (forall r :: r in t.ledger && r.account == cmd.source ==> r.id < debit)
      && (forall r :: r in t.ledger && r.account == cmd.dest ==> r.id < credit)
    case Opened(_, account, balance, deposit) =>
      && ValidOpening(account, balance)
      && account !in t.accounts
      && (balance > 0 ==> forall d :: d in t.deposits ==> d.id != deposit)
  }

  function Apply(t: Tables, e: Event): Tables
    requires Legal(t, e)
  {
    match e
    case Moved(_, cmd, id, debit, credit) =>
      var source, dest := t.accounts[cmd.source], t.accounts[cmd.dest];
      Tables(
        t.accounts[cmd.source := Account(source.balance - cmd.amount, source.version + 1)]
                  [cmd.dest := Account(dest.balance + cmd.amount, dest.version + 1)],
        t.deposits,
        t.transfers + [RowOf(cmd, id)],
        t.ledger + [DebitOf(cmd, id, debit, source.balance), CreditOf(cmd, id, credit, dest.balance)])
    case Opened(_, account, balance, deposit) =>
      Tables(
        t.accounts[account := Account(balance, 0)],
        t.deposits + (if balance > 0 then [Deposit(deposit, account, balance)] else []),
        t.transfers,
        t.ledger)
  }

  /** past is the run of the atomic machine that applies the events of log one by one to
      empty tables. */
  ghost predicate AtomicRun(past: seq<Tables>, log: seq<Event>) {
    && |past| == |log| + 1
    && past[0] == EMPTY
    && forall n {:trigger log[n]} :: 0 <= n < |log| ==> Legal(past[n], log[n]) && past[n + 1] == Apply(past[n], log[n])
  }

  lemma AtomicRunAppend(past: seq<Tables>, log: seq<Event>, e: Event)
    requires AtomicRun(past, log) && Legal(past[|log|], e)
    ensures AtomicRun(past + [Apply(past[|log|], e)], log + [e])
  {
  }

  /** Later tables keep every account, transfer and entry of earlier ones. */
  ghost predicate Extends(t: Tables, u: Tables) {
    && t.accounts.Keys <= u.accounts.Keys
    && t.transfers <= u.transfers
    && t.ledger <= u.ledger
    && t.deposits <= u.deposits
  }

  lemma {:induction false} PastExtends(past: seq<Tables>, log: seq<Event>, m: nat, n: nat)
    requires AtomicRun(past, log) && m <= n <= |log|
    ensures Extends(past[m], past[n])
    decreases n
  {
    if m < n {
      PastExtends(past, log, m, n - 1);
      assert Legal(past[n - 1], log[n - 1]);
    }
  }

  /** A key that was found stays found, with the same row. */
  lemma FoundStaysFound(t: Tables, u: Tables, key: Option<Key>)
    requires Extends(t, u) && Holder(t, key).Some?
    ensures Holder(u, key) == Holder(t, key)
  {
    assert u.transfers == t.transfers + u.transfers[|t.transfers|..];
    FindKeyAppend(t.transfers, u.transfers[|t.transfers|..], key.value);
  }
}
