/**
 The audit: the reconciliation queries of audit_script.py and README.md, and the proof that
 every run of the atomic specification passes them.
 */
module Audit {
  import opened Money
  import opened Schema

  // ----- the queries -----

  /** SELECT SUM(amount) FROM deposits WHERE account_id = a. */
  function DepositsOf(deposits: seq<Deposit>, a: int): int {
    if |deposits| == 0 then 0
    else
      var last := deposits[|deposits| - 1];
      DepositsOf(deposits[..|deposits| - 1], a) + if last.account == a then last.amount else 0
  }

  /** SELECT SUM(amount) FROM ledger_entries WHERE account_id = a AND direction = d. */
  function LedgerSum(ledger: seq<Entry>, a: int, d: Direction): int {
    if |ledger| == 0 then 0
    else
      var last := ledger[|ledger| - 1];
      LedgerSum(ledger[..|ledger| - 1], a, d) + if last.account == a && last.direction == d then last.amount else 0
  }

  function TotalDeposits(deposits: seq<Deposit>): int {
    if |deposits| == 0 then 0
    else TotalDeposits(deposits[..|deposits| - 1]) + deposits[|deposits| - 1].amount
  }

  function LedgerTotal(ledger: seq<Entry>, d: Direction): int {
    if |ledger| == 0 then 0
    else
      var last := ledger[|ledger| - 1];
      LedgerTotal(ledger[..|ledger| - 1], d) + if last.direction == d then last.amount else 0
  }

  /** The entries of one account, in commit order. */
  function StatementOf(ledger: seq<Entry>, a: int): (entries: seq<Entry>)
    ensures forall e :: e in entries <==> e in ledger && e.account == a
  {
    if |ledger| == 0 then []
    else
      var last := ledger[|ledger| - 1];
      StatementOf(ledger[..|ledger| - 1], a) + if last.account == a then [last] else []
  }

  /** The entries of one transfer. */
  function EntriesOf(ledger: seq<Entry>, transfer: nat): (entries: seq<Entry>)
    ensures forall e :: e in entries <==> e in ledger && e.transfer == transfer
  {
    if |ledger| == 0 then []
    else
      var last := ledger[|ledger| - 1];
      EntriesOf(ledger[..|ledger| - 1], transfer) + if last.transfer == transfer then [last] else []
  }

  ghost function Pick<T>(s: set<T>): (x: T)
    requires s != {}
    ensures x in s
  {
    var x :| x in s; x
  }

  ghost function Sum(s: set<int>, f: int -> int): int {
    if s == {} then 0 else var a := Pick(s); f(a) + Sum(s - {a}, f)
  }

  function BalanceOf(t: Tables, a: int): int { if a in t.accounts then t.accounts[a].balance else 0 }

  /** SELECT SUM(balance) FROM accounts. */
  ghost function TotalBalance(t: Tables): int { Sum(t.accounts.Keys, a => BalanceOf(t, a)) }

  /** One round of the script's second loop. */
  predicate Reconciles(t: Tables, a: int) {
    BalanceOf(t, a) == DepositsOf(t.deposits, a) + LedgerSum(t.ledger, a, Credit) - LedgerSum(t.ledger, a, Debit)
  }

  // ----- what clean books are -----

  function Signed(e: Entry): int { if e.direction == Debit then -e.amount else e.amount }

  /** The entries are an exact running balance from the opening balance. */
  predicate Replays(opening: int, entries: seq<Entry>) {
    && (entries != [] ==> entries[0].balanceAfter == opening + Signed(entries[0]))
    && forall k :: 0 < k < |entries| ==> entries[k].balanceAfter == entries[k - 1].balanceAfter + Signed(entries[k])
  }

  function Closing(opening: int, entries: seq<Entry>): int {
    if |entries| == 0 then opening else entries[|entries| - 1].balanceAfter
  }

  predicate IdsAscend(entries: seq<Entry>) {
    forall m, n :: 0 <= m < n < |entries| ==> entries[m].id < entries[n].id
  }

  predicate AccountBook(t: Tables, a: int)
    requires a in t.accounts
  {
    var opening, entries := DepositsOf(t.deposits, a), StatementOf(t.ledger, a);
    && Replays(opening, entries)
    && Closing(opening, entries) == t.accounts[a].balance
    && IdsAscend(entries)
    && t.accounts[a].version == |entries|
    && Reconciles(t, a)
  }

  /** The transfer has one debit on its source and one credit on its destination, of its own amount. */
  predicate DoubleEntry(t: Tables, r: Transfer) {
    var entries := EntriesOf(t.ledger, r.id);
    && |entries| == 2
    && entries[0].direction == Debit && entries[0].account == r.source && entries[0].amount == r.amount
    && entries[1].direction == Credit && entries[1].account == r.dest && entries[1].amount == r.amount
  }

  ghost predicate BooksOk(t: Tables) {
    && SchemaOk(t)
    && (forall a :: a in t.accounts ==> AccountBook(t, a))
    && (forall r :: r in t.transfers ==> DoubleEntry(t, r))
    && LedgerTotal(t.ledger, Debit) == LedgerTotal(t.ledger, Credit)
  }

  // ----- every atomic step keeps the books clean -----

  lemma {:induction false} NoDeposits(deposits: seq<Deposit>, a: int)
    requires forall d :: d in deposits ==> d.account != a
    ensures DepositsOf(deposits, a) == 0
  {
    if |deposits| > 0 { NoDeposits(deposits[..|deposits| - 1], a); }
  }

  lemma {:induction false} NoEntries(ledger: seq<Entry>, a: int)
    requires forall e :: e in ledger ==> e.account != a
    ensures LedgerSum(ledger, a, Debit) == LedgerSum(ledger, a, Credit) == 0
    ensures StatementOf(ledger, a) == []
  {
    if |ledger| > 0 { NoEntries(ledger[..|ledger| - 1], a); }
  }

  lemma {:induction false} NoEntriesOf(ledger: seq<Entry>, transfer: nat)
    requires forall e :: e in ledger ==> e.transfer != transfer
    ensures EntriesOf(ledger, transfer) == []
  {
    if |ledger| > 0 { NoEntriesOf(ledger[..|ledger| - 1], transfer); }
  }

  /** What a transfer's two entries do to the queries over the ledger. */
  lemma LedgerAppend(ledger: seq<Entry>, debit: Entry, credit: Entry, a: int, transfer: nat, d: Direction)
    requires debit.direction == Debit && credit.direction == Credit
    ensures LedgerSum(ledger + [debit, credit], a, d) == LedgerSum(ledger, a, d)
              + (if debit.account == a && d == Debit then debit.amount else 0)
              + (if credit.account == a && d == Credit then credit.amount else 0)
    ensures LedgerTotal(ledger + [debit, credit], d) ==
            LedgerTotal(ledger, d) + if d == Debit then debit.amount else credit.amount
    ensures StatementOf(ledger + [debit, credit], a) == StatementOf(ledger, a)
              + (if debit.account == a then [debit] else [])
              + (if credit.account == a then [credit] else [])
    ensures EntriesOf(ledger + [debit, credit], transfer) == EntriesOf(ledger, transfer)
              + (if debit.transfer == transfer then [debit] else [])
              + (if credit.transfer == transfer then [credit] else [])
  {
    var one, both := ledger + [debit], ledger + [debit, credit];
    assert one[..|ledger|] == ledger && both[..|one|] == one;
    assert one[|one| - 1] == debit && both[|both| - 1] == credit;
  }

  /** An account's statement after a transfer: one more entry for the two accounts, the same for
      all others. */
  lemma StatementAfterMove(t: Tables, e: Event, a: int)
    requires Legal(t, e) && e.Moved?
    ensures var debit := DebitOf(e.cmd, e.id, e.debit, t.accounts[e.cmd.source].balance);
            var credit := CreditOf(e.cmd, e.id, e.credit, t.accounts[e.cmd.dest].balance);
            StatementOf(Apply(t, e).ledger, a) ==
            StatementOf(t.ledger, a) + (if e.cmd.source == a then [debit] else if e.cmd.dest == a then [credit] else [])
  {
    LedgerAppend(t.ledger, DebitOf(e.cmd, e.id, e.debit, t.accounts[e.cmd.source].balance),
                 CreditOf(e.cmd, e.id, e.credit, t.accounts[e.cmd.dest].balance), a, e.id, Debit);
  }

  lemma MoveKeepsReconciled(t: Tables, e: Event, a: int)
    requires Legal(t, e) && e.Moved? && a in t.accounts && Reconciles(t, a)
    ensures Reconciles(Apply(t, e), a)
  {
    var debit := DebitOf(e.cmd, e.id, e.debit, t.accounts[e.cmd.source].balance);
    var credit := CreditOf(e.cmd, e.id, e.credit, t.accounts[e.cmd.dest].balance);
    LedgerAppend(t.ledger, debit, credit, a, e.id, Debit);
    LedgerAppend(t.ledger, debit, credit, a, e.id, Credit);
  }

  lemma AppendKeepsReplay(opening: int, entries: seq<Entry>, e: Entry)
    requires Replays(opening, entries) && IdsAscend(entries)
    requires e.balanceAfter == Closing(opening, entries) + Signed(e)
    requires forall p :: p in entries ==> p.id < e.id
    ensures Replays(opening, entries + [e]) && IdsAscend(entries + [e])
    ensures Closing(opening, entries + [e]) == e.balanceAfter
  {
  }

  lemma MoveKeepsAccountBook(t: Tables, e: Event, a: int)
    requires Legal(t, e) && e.Moved? && a in t.accounts && AccountBook(t, a)
    ensures AccountBook(Apply(t, e), a)
  {
    MoveKeepsReconciled(t, e, a);
    StatementAfterMove(t, e, a);
    var opening, entries := DepositsOf(t.deposits, a), StatementOf(t.ledger, a);
    if a == e.cmd.source {
      AppendKeepsReplay(opening, entries, DebitOf(e.cmd, e.id, e.debit, t.accounts[e.cmd.source].balance));
    } else if a == e.cmd.dest {
      AppendKeepsReplay(opening, entries, CreditOf(e.cmd, e.id, e.credit, t.accounts[e.cmd.dest].balance));
    } else {
      assert entries + [] == entries;
    }
  }

  lemma MoveKeepsDoubleEntry(t: Tables, e: Event, r: Transfer)
    requires Legal(t, e) && e.Moved? && r in t.transfers && DoubleEntry(t, r)
    ensures DoubleEntry(Apply(t, e), r)
  {
    var debit := DebitOf(e.cmd, e.id, e.debit, t.accounts[e.cmd.source].balance);
    var credit := CreditOf(e.cmd, e.id, e.credit, t.accounts[e.cmd.dest].balance);
    LedgerAppend(t.ledger, debit, credit, 0, r.id, Debit);
  }

  lemma MoveIsDoubleEntry(t: Tables, e: Event)
    requires Legal(t, e) && e.Moved?
    requires forall p :: p in t.ledger ==> p.transfer != e.id
    ensures DoubleEntry(Apply(t, e), RowOf(e.cmd, e.id))
  {
    var debit := DebitOf(e.cmd, e.id, e.debit, t.accounts[e.cmd.source].balance);
    var credit := CreditOf(e.cmd, e.id, e.credit, t.accounts[e.cmd.dest].balance);
    LedgerAppend(t.ledger, debit, credit, 0, e.id, Debit);
    NoEntriesOf(t.ledger, e.id);
  }

  lemma MoveKeepsSchema(t: Tables, e: Event)
    requires SchemaOk(t) && Legal(t, e) && e.Moved?
    ensures SchemaOk(Apply(t, e))
  {
  }

  lemma OpenKeepsSchema(t: Tables, e: Event)
    requires SchemaOk(t) && Legal(t, e) && e.Opened?
    ensures SchemaOk(Apply(t, e))
  {
  }

  /** What an opening does to the queries over deposits. */
  lemma DepositsAfterOpening(t: Tables, e: Event, a: int)
    requires Legal(t, e) && e.Opened?
    ensures DepositsOf(Apply(t, e).deposits, a) ==
            DepositsOf(t.deposits, a) + if a == e.account then e.balance else 0
  {
    var t' := Apply(t, e);
    if e.balance > 0 {
      assert t'.deposits[..|t.deposits|] == t.deposits;
    } else {
      assert t'.deposits == t.deposits;
    }
  }

  lemma OpenKeepsOldBook(t: Tables, e: Event, a: int)
    requires Legal(t, e) && e.Opened? && a in t.accounts && AccountBook(t, a)
    ensures AccountBook(Apply(t, e), a)
  {
    hide Replays, IdsAscend, Closing, DepositsOf, LedgerSum, StatementOf;
    DepositsAfterOpening(t, e, a);
  }

  lemma OpenStartsBook(t: Tables, e: Event)
    requires Legal(t, e) && e.Opened? && SchemaOk(t)
    ensures AccountBook(Apply(t, e), e.account)
  {
    hide LedgerSum, StatementOf, DepositsOf;
    DepositsAfterOpening(t, e, e.account);
    NoDeposits(t.deposits, e.account);
    NoEntries(t.ledger, e.account);
  }

  lemma OpenKeepsBooks(t: Tables, e: Event)
    requires BooksOk(t) && Legal(t, e) && e.Opened?
    ensures BooksOk(Apply(t, e))
  {
    hide AccountBook, DoubleEntry, SchemaOk;
    var t' := Apply(t, e);
    OpenKeepsSchema(t, e);
    forall a | a in t'.accounts ensures AccountBook(t', a) {
      if a == e.account { OpenStartsBook(t, e); } else { OpenKeepsOldBook(t, e, a); }
    }
    forall r | r in t'.transfers ensures DoubleEntry(t', r) {
      OpenKeepsDoubleEntry(t, e, r);
    }
  }

  lemma OpenKeepsDoubleEntry(t: Tables, e: Event, r: Transfer)
    requires Legal(t, e) && e.Opened? && DoubleEntry(t, r)
    ensures DoubleEntry(Apply(t, e), r)
  {
  }

  lemma MoveKeepsTotals(t: Tables, e: Event)
    requires Legal(t, e) && e.Moved? && LedgerTotal(t.ledger, Debit) == LedgerTotal(t.ledger, Credit)
    ensures LedgerTotal(Apply(t, e).ledger, Debit) == LedgerTotal(Apply(t, e).ledger, Credit)
  {
    var debit := DebitOf(e.cmd, e.id, e.debit, t.accounts[e.cmd.source].balance);
    var credit := CreditOf(e.cmd, e.id, e.credit, t.accounts[e.cmd.dest].balance);
    LedgerAppend(t.ledger, debit, credit, 0, e.id, Debit);
    LedgerAppend(t.ledger, debit, credit, 0, e.id, Credit);
  }

  lemma MoveKeepsDoubleEntries(t: Tables, e: Event, r: Transfer)
    requires SchemaOk(t) && Legal(t, e) && e.Moved? && r in Apply(t, e).transfers
    requires r in t.transfers ==> DoubleEntry(t, r)
    ensures DoubleEntry(Apply(t, e), r)
  {
    if r in t.transfers {
      MoveKeepsDoubleEntry(t, e, r);
    } else {
      assert forall p :: p in t.ledger ==> p.transfer != e.id;
      MoveIsDoubleEntry(t, e);
    }
  }

  lemma MoveKeepsBooks(t: Tables, e: Event)
    requires BooksOk(t) && Legal(t, e) && e.Moved?
    ensures BooksOk(Apply(t, e))
  {
    hide AccountBook, DoubleEntry, SchemaOk, LedgerTotal;
    MoveKeepsSchema(t, e);
    MoveKeepsTotals(t, e);
    forall a | a in Apply(t, e).accounts ensures AccountBook(Apply(t, e), a) {
      MoveKeepsAccountBook(t, e, a);
    }
    forall r | r in Apply(t, e).transfers ensures DoubleEntry(Apply(t, e), r) {
      MoveKeepsDoubleEntries(t, e, r);
    }
  }

  lemma StepKeepsBooks(t: Tables, e: Event)
    requires BooksOk(t) && Legal(t, e)
    ensures BooksOk(Apply(t, e))
  {
    if e.Opened? { OpenKeepsBooks(t, e); } else { MoveKeepsBooks(t, e); }
  }

  /** All committed tables of every atomic run are clean. */
  lemma {:induction false} AtomicRunKeepsBooks(past: seq<Tables>, log: seq<Event>, n: nat)
    requires AtomicRun(past, log) && n <= |log|
    ensures BooksOk(past[n])
  {
    if n > 0 {
      AtomicRunKeepsBooks(past, log, n - 1);
      assert Legal(past[n - 1], log[n - 1]);
      StepKeepsBooks(past[n - 1], log[n - 1]);
    }
  }

  // ----- ORDER BY id -----

  /** What the statement query of README.md returns: the account's entries sorted by id. */
  ghost predicate OrderedById(ledger: seq<Entry>, a: int, rows: seq<Entry>) {
    && multiset(rows) == multiset(StatementOf(ledger, a))
    && forall m, n :: 0 <= m < n < |rows| ==> rows[m].id <= rows[n].id
  }

  /** The latest entry of a statement is the one that ORDER BY id lists last. */
  lemma LatestComesLast(statement: seq<Entry>, rows: seq<Entry>)
    requires multiset(rows) == multiset(statement) && statement != [] && rows != [] && IdsAscend(statement)
    requires forall m, n :: 0 <= m < n < |rows| ==> rows[m].id <= rows[n].id
    ensures rows[|rows| - 1] == statement[|statement| - 1]
  {
    var latest, last := statement[|statement| - 1], rows[|rows| - 1];
    assert latest in multiset(rows) && last in multiset(statement);
    var m :| 0 <= m < |statement| && statement[m] == last;
  }

  /** Sorting by id gives back the commit order. */
  lemma {:induction false} SortingKeepsStatement(statement: seq<Entry>, rows: seq<Entry>)
    requires multiset(rows) == multiset(statement) && IdsAscend(statement)
    requires forall m, n :: 0 <= m < n < |rows| ==> rows[m].id <= rows[n].id
    ensures rows == statement
  {
    assert |rows| == |multiset(rows)|;
    if statement != [] {
      assert statement[0] in multiset(rows);
      LatestComesLast(statement, rows);
      WithoutLast(statement);
      WithoutLast(rows);
      SortingKeepsStatement(statement[..|statement| - 1], rows[..|rows| - 1]);
    }
  }

  lemma WithoutLast(entries: seq<Entry>)
    requires entries != []
    ensures multiset(entries[..|entries| - 1]) == multiset(entries) - multiset{entries[|entries| - 1]}
    ensures entries == entries[..|entries| - 1] + [entries[|entries| - 1]]
  {
    var earlier := entries[..|entries| - 1];
    assert entries == earlier + [entries[|entries| - 1]];
  }

  lemma BookOf(t: Tables, a: int)
    requires BooksOk(t) && a in t.accounts
    ensures AccountBook(t, a)
  {
    hide AccountBook, SchemaOk, DoubleEntry;
  }

  /** Sorting an account's entries by id replays its history: an exact running balance from its
      deposit (or zero) to its current balance, whatever gaps the ids have. */
  lemma StatementReplays(t: Tables, a: int, rows: seq<Entry>)
    requires BooksOk(t) && a in t.accounts && OrderedById(t.ledger, a, rows)
    ensures rows != [] ==> rows[0].balanceAfter == DepositsOf(t.deposits, a) + Signed(rows[0])
    ensures forall k :: 0 < k < |rows| ==> rows[k].balanceAfter == rows[k - 1].balanceAfter + Signed(rows[k])
    ensures t.accounts[a].balance ==
            if rows == [] then DepositsOf(t.deposits, a) else rows[|rows| - 1].balanceAfter
    ensures |rows| == t.accounts[a].version
  {
    hide BooksOk;
    BookOf(t, a);
    SortingKeepsStatement(StatementOf(t.ledger, a), rows);
  }

  // ----- from the single accounts to the whole system -----

  lemma SumRemove(s: set<int>, f: int -> int, a: int)
    requires a in s
    ensures Sum(s, f) == f(a) + Sum(s - {a}, f)
  {
    var b := Pick(s);
    if b != a {
      SumRemove(s - {b}, f, a);
      SumRemove(s - {a}, f, b);
      assert s - {b} - {a} == s - {a} - {b};
    }
  }

  lemma {:induction false} SumIsLinear(s: set<int>, f: int -> int, g: int -> int, h: int -> int, sign: int)
    requires forall a :: a in s ==> h(a) == f(a) + sign * g(a)
    ensures Sum(s, h) == Sum(s, f) + sign * Sum(s, g)
  {
    if s != {} {
      var a := Pick(s);
      SumRemove(s, f, a);
      SumRemove(s, g, a);
      SumRemove(s, h, a);
      SumIsLinear(s - {a}, f, g, h, sign);
      assert sign * Sum(s, g) == sign * g(a) + sign * Sum(s - {a}, g);
    }
  }

  lemma {:induction false} SumOfZero(s: set<int>, f: int -> int)
    requires forall a :: a in s ==> f(a) == 0
    ensures Sum(s, f) == 0
  {
    if s != {} {
      var a := Pick(s);
      SumRemove(s, f, a);
      SumOfZero(s - {a}, f);
    }
  }

  /** A function that is v at one account of s and 0 elsewhere sums to v. */
  lemma SumOfOne(s: set<int>, f: int -> int, a: int)
    requires a in s && forall b :: b in s && b != a ==> f(b) == 0
    ensures Sum(s, f) == f(a)
  {
    SumRemove(s, f, a);
    SumOfZero(s - {a}, f);
  }

  lemma {:induction false} DepositsPerAccount(s: set<int>, deposits: seq<Deposit>)
    requires forall d :: d in deposits ==> d.account in s
    ensures Sum(s, a => DepositsOf(deposits, a)) == TotalDeposits(deposits)
  {
    if |deposits| == 0 {
      SumOfZero(s, a => DepositsOf(deposits, a));
    } else {
      var last, rest := deposits[|deposits| - 1], deposits[..|deposits| - 1];
      assert last in deposits;
      var f, g := a => DepositsOf(rest, a), a => if last.account == a then last.amount else 0;
      DepositsPerAccount(s, rest);
      SumOfOne(s, g, last.account);
      SumIsLinear(s, f, g, a => DepositsOf(deposits, a), 1);
    }
  }

  lemma {:induction false} LedgerPerAccount(s: set<int>, ledger: seq<Entry>, d: Direction)
    requires forall e :: e in ledger ==> e.account in s
    ensures Sum(s, a => LedgerSum(ledger, a, d)) == LedgerTotal(ledger, d)
  {
    if |ledger| == 0 {
      SumOfZero(s, a => LedgerSum(ledger, a, d));
    } else {
      var last, rest := ledger[|ledger| - 1], ledger[..|ledger| - 1];
      assert last in ledger;
      var f, g := a => LedgerSum(rest, a, d), a => if last.account == a && last.direction == d then last.amount else 0;
      LedgerPerAccount(s, rest, d);
      SumOfOne(s, g, last.account);
      SumIsLinear(s, f, g, a => LedgerSum(ledger, a, d), 1);
    }
  }

  /** Where every account reconciles, the balances sum to the deposits and the net of the ledger. */
  lemma TotalsAddUp(t: Tables)
    requires forall d :: d in t.deposits ==> d.account in t.accounts
    requires forall e :: e in t.ledger ==> e.account in t.accounts
    requires forall a :: a in t.accounts ==> Reconciles(t, a)
    ensures TotalBalance(t) ==
            TotalDeposits(t.deposits) + LedgerTotal(t.ledger, Credit) - LedgerTotal(t.ledger, Debit)
  {
    var s := t.accounts.Keys;
    var deposits := a => DepositsOf(t.deposits, a);
    var credits, debits := a => LedgerSum(t.ledger, a, Credit), a => LedgerSum(t.ledger, a, Debit);
    var income := a => DepositsOf(t.deposits, a) + LedgerSum(t.ledger, a, Credit);
    DepositsPerAccount(s, t.deposits);
    LedgerPerAccount(s, t.ledger, Credit);
    LedgerPerAccount(s, t.ledger, Debit);
    SumIsLinear(s, deposits, credits, income, 1);
    SumIsLinear(s, income, debits, a => BalanceOf(t, a), -1);
  }

  /** On any tables whose deposits and entries name existing accounts, the per-account loop and
      the debit/credit totals together imply the macro check. */
  lemma MicroImpliesMacro(t: Tables)
    requires forall d :: d in t.deposits ==> d.account in t.accounts
    requires forall e :: e in t.ledger ==> e.account in t.accounts
    requires forall a :: a in t.accounts ==> Reconciles(t, a)
    requires LedgerTotal(t.ledger, Debit) == LedgerTotal(t.ledger, Credit)
    ensures TotalBalance(t) == TotalDeposits(t.deposits)
  {
    TotalsAddUp(t);
  }

  /** Both parts of the script pass: funds are conserved and every account reconciles. */
  ghost predicate AuditAccepts(t: Tables) {
    TotalBalance(t) == TotalDeposits(t.deposits) && forall a :: a in t.accounts ==> Reconciles(t, a)
  }

  lemma BooksPassTheAudit(t: Tables)
    requires BooksOk(t)
    ensures AuditAccepts(t)
  {
    forall a | a in t.accounts ensures Reconciles(t, a) { assert AccountBook(t, a); }
    MicroImpliesMacro(t);
  }

  // ----- what the audit detects -----

  /** Deposits and entries name existing accounts, and amounts are positive. */
  predicate RowsOk(t: Tables) {
    && (forall d :: d in t.deposits ==> d.amount > 0 && d.account in t.accounts)
    && (forall e :: e in t.ledger ==> e.amount > 0 && e.account in t.accounts)
  }

  /** On sound rows, the audit accepts exactly the tables on which every balance is what the
      account's rows add up to and the ledger's debits and credits are the same in total. */
  lemma AuditIsExact(t: Tables)
    requires RowsOk(t)
    ensures AuditAccepts(t) <==>
            && LedgerTotal(t.ledger, Debit) == LedgerTotal(t.ledger, Credit)
            && forall a :: a in t.accounts ==>
                 t.accounts[a].balance ==
                 DepositsOf(t.deposits, a) + LedgerSum(t.ledger, a, Credit) - LedgerSum(t.ledger, a, Debit)
  {
    if forall a :: a in t.accounts ==> Reconciles(t, a) {
      TotalsAddUp(t);
    }
  }

  function DepositShare(d: Deposit, a: int): int { if d.account == a then d.amount else 0 }

  function EntryShare(e: Entry, a: int): int { if e.account == a then Signed(e) else 0 }

  lemma {:induction false} ReplacedDeposit(deposits: seq<Deposit>, n: nat, d: Deposit, a: int)
    requires n < |deposits|
    ensures DepositsOf(deposits[n := d], a) ==
            DepositsOf(deposits, a) - DepositShare(deposits[n], a) + DepositShare(d, a)
  {
    var last := |deposits| - 1;
    if n < last {
      assert deposits[n := d][..last] == deposits[..last][n := d];
      ReplacedDeposit(deposits[..last], n, d, a);
    } else {
      assert deposits[n := d][..last] == deposits[..last];
    }
  }

  function Net(ledger: seq<Entry>, a: int): int { LedgerSum(ledger, a, Credit) - LedgerSum(ledger, a, Debit) }

  lemma {:induction false} ReplacedEntry(ledger: seq<Entry>, n: nat, e: Entry, a: int)
    requires n < |ledger|
    ensures Net(ledger[n := e], a) == Net(ledger, a) - EntryShare(ledger[n], a) + EntryShare(e, a)
  {
    var last := |ledger| - 1;
    if n < last {
      assert ledger[n := e][..last] == ledger[..last][n := e];
      ReplacedEntry(ledger[..last], n, e, a);
    } else {
      assert ledger[n := e][..last] == ledger[..last];
    }
  }

  /** t' is t after one manipulation: any change of balances, or another account or amount in one
      deposit, or another account, direction or positive amount in one entry. */
  ghost predicate Manipulated(t: Tables, t': Tables) {
    || (exists a: int :: a in t.accounts && BalancesChanged(t, t', a))
    || (exists n: nat, d: Deposit :: DepositChanged(t, t', n, d))
    || (exists n: nat, e: Entry :: EntryChanged(t, t', n, e))
  }

  predicate BalancesChanged(t: Tables, t': Tables, a: int)
    requires a in t.accounts
  {
    && t'.accounts.Keys == t.accounts.Keys && t'.accounts[a].balance != t.accounts[a].balance
    && t'.deposits == t.deposits && t'.ledger == t.ledger
  }

  predicate DepositChanged(t: Tables, t': Tables, n: nat, d: Deposit) {
    && n < |t.deposits| && (d.account != t.deposits[n].account || d.amount != t.deposits[n].amount)
    && t' == t.(deposits := t.deposits[n := d])
  }

  predicate EntryChanged(t: Tables, t': Tables, n: nat, e: Entry) {
    && n < |t.ledger| && e.amount > 0
    && (e.account, e.direction, e.amount) != (t.ledger[n].account, t.ledger[n].direction, t.ledger[n].amount)
    && t' == t.(ledger := t.ledger[n := e])
  }

  /** From clean books, every such manipulation is detected. */
  lemma ManipulationIsDetected(t: Tables, t': Tables)
    requires BooksOk(t) && Manipulated(t, t')
    ensures !AuditAccepts(t')
  {
    var a := ManipulatedAccount(t, t');
    assert AccountBook(t, a);
    assert !Reconciles(t', a);
  }

  /** The account that does not reconcile after the manipulation. */
  lemma ManipulatedAccount(t: Tables, t': Tables) returns (a: int)
    requires BooksOk(t) && Manipulated(t, t')
    ensures a in t.accounts && a in t'.accounts
    ensures t'.accounts[a].balance - DepositsOf(t'.deposits, a) - Net(t'.ledger, a) !=
            t.accounts[a].balance - DepositsOf(t.deposits, a) - Net(t.ledger, a)
  {
    hide AccountBook, DoubleEntry;
    if b: int :| b in t.accounts && BalancesChanged(t, t', b) {
      a := b;
    } else if n: nat, d: Deposit :| DepositChanged(t, t', n, d) {
      a := t.deposits[n].account;
      assert t.deposits[n] in t.deposits;
      ReplacedDeposit(t.deposits, n, d, a);
    } else {
      var n: nat, e: Entry :| EntryChanged(t, t', n, e);
      a := t.ledger[n].account;
      assert t.ledger[n] in t.ledger;
      ReplacedEntry(t.ledger, n, e, a);
    }
  }

  // ----- the script -----

  lemma {:induction false} SmallestExists(s: set<int>)
    requires s != {}
    ensures exists a :: a in s && forall b :: b in s ==> a <= b
  {
    var a := Pick(s);
    assert forall b :: b in s ==> b == a || b in s - {a};
    if s - {a} != {} {
      SmallestExists(s - {a});
      var c :| c in s - {a} && forall b :: b in s - {a} ==> c <= b;
      assert Min(a, c) in s;
    }
  }

  /** SELECT id FROM accounts ORDER BY id. */
  method AccountsById(t: Tables) returns (ids: seq<int>)
    ensures forall a :: a in ids <==> a in t.accounts
    ensures forall m, n :: 0 <= m < n < |ids| ==> ids[m] < ids[n]
  {
    ids := [];
    var left := t.accounts.Keys;
    while left != {}
      invariant left <= t.accounts.Keys
      invariant forall a :: a in ids <==> a in t.accounts.Keys - left
      invariant forall m, n :: 0 <= m < n < |ids| ==> ids[m] < ids[n]
      invariant forall a, b :: a in ids && b in left ==> a < b
      decreases left
    {
      SmallestExists(left);
      var a :| a in left && forall b :: b in left ==> a <= b;
      assert forall m :: 0 <= m < |ids| ==> ids[m] in ids;
      ids := ids + [a];
      left := left - {a};
    }
  }

  method SumBalances(t: Tables, ids: seq<int>) returns (total: int)
    requires forall a :: a in ids <==> a in t.accounts
    requires forall m, n :: 0 <= m < n < |ids| ==> ids[m] < ids[n]
    ensures total == TotalBalance(t)
  {
    total := 0;
    var f := a => BalanceOf(t, a);
    ghost var left := t.accounts.Keys;
    for k := 0 to |ids|
      invariant forall a :: a in left <==> a in ids[k..]
      invariant total + Sum(left, f) == Sum(t.accounts.Keys, f)
    {
      assert ids[k] in ids[k..];
      assert forall a :: a in ids[k..] <==> a == ids[k] || a in ids[k + 1..];
      SumRemove(left, f, ids[k]);
      left := left - {ids[k]};
      total := total + BalanceOf(t, ids[k]);
    }
  }

  lemma AuditVerdict(t: Tables)
    ensures BooksOk(t) ==> AuditAccepts(t)
    ensures forall clean: Tables :: BooksOk(clean) && Manipulated(clean, t) ==> !AuditAccepts(t)
  {
    hide BooksOk, Manipulated, AuditAccepts;
    if BooksOk(t) { BooksPassTheAudit(t); }
    forall clean: Tables | BooksOk(clean) && Manipulated(clean, t) ensures !AuditAccepts(t) {
      ManipulationIsDetected(clean, t);
    }
  }

  /** audit_database: false stands for exit status 1. It passes exactly if the total of the
      balances is the total of the deposits and every balance is what the account's rows add up
      to; so it passes clean books, and no manipulation of clean books. */
  method AuditDatabase(t: Tables) returns (passed: bool)
    ensures passed <==>
            && TotalBalance(t) == TotalDeposits(t.deposits)
            && forall a :: a in t.accounts ==>
                 t.accounts[a].balance ==
                 DepositsOf(t.deposits, a) + LedgerSum(t.ledger, a, Credit) - LedgerSum(t.ledger, a, Debit)
    ensures BooksOk(t) ==> passed
    ensures forall clean: Tables :: BooksOk(clean) && Manipulated(clean, t) ==> !passed
  {
    var accounts := AccountsById(t);
    var totalBalance := SumBalances(t, accounts);
    var totalDeposit := TotalDeposits(t.deposits);
    AuditVerdict(t);
    hide BooksOk, Manipulated;
    if totalBalance != totalDeposit {
      return false;
    }
    var allPassed := true;
    for k := 0 to |accounts|
      invariant allPassed <==> forall m :: 0 <= m < k ==> Reconciles(t, accounts[m])
    {
      var deposit := DepositsOf(t.deposits, accounts[k]);
      var credit := LedgerSum(t.ledger, accounts[k], Credit);
      var debit := LedgerSum(t.ledger, accounts[k], Debit);
      var calculatedBalance := deposit + credit - debit;
      if BalanceOf(t, accounts[k]) != calculatedBalance {
        allPassed := false;
      }
    }
    return allPassed;
  }
}
