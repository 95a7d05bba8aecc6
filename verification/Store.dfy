/**
 One transaction at work on a database that it shares with others: the repositories of
 internal/repository as methods that change the uncommitted rows in place, with rollback
 discarding and commit publishing them.
 */
module Store {
  import opened Options
  import opened Errors
  import opened Money
  import opened Schema
  import opened Transactions

  /** What happens around one statement: others commit, and the database may fail the statement. */
  datatype Tick = Tick(others: seq<Event>, fault: Option<Fault>)

  /** w' is w after commits of others than session me only. */
  ghost predicate Elapsed(w: World, w': World, me: nat) {
    && Grows(w, w')
    && |w.past| <= |w'.past|
    && forall n :: |w.log| <= n < |w'.log| ==> w'.log[n].session != me
  }

  lemma ElapsedTransitively(u: World, v: World, w: World, me: nat)
    requires Elapsed(u, v, me) && Elapsed(v, w, me)
    ensures Elapsed(u, w, me)
  {
  }

  predicate Faulty(t: Tick) { t.fault.Some? && IsFault(t.fault.value) }

  /** Every fault of the script that the database can raise is met. */
  lemma FaultsAreMet(others: seq<Event>, state: SqlState)
    ensures FaultsOf([Tick(others, Some(ConnectionLost))]) == [ConnectionLost]
    ensures FaultsOf([Tick(others, Some(Aborted(state)))]) == if IsViolation(state) then [] else [Aborted(state)]
    ensures FaultsOf([Tick(others, None)]) == []
  {
    OneTick(Tick(others, Some(ConnectionLost)));
    OneTick(Tick(others, Some(Aborted(state))));
  }

  /** after is what is left of the script before. */
  predicate LeftOf(before: seq<Tick>, after: seq<Tick>) {
    |after| <= |before| && before[|before| - |after|..] == after
  }

  function FaultsOf(ticks: seq<Tick>): seq<Fault> {
    if |ticks| == 0 then []
    else (if Faulty(ticks[0]) then [ticks[0].fault.value] else []) + FaultsOf(ticks[1..])
  }

  /** The faults that have hit a statement in between, in their order. */
  function Faults(before: seq<Tick>, after: seq<Tick>): seq<Fault> {
    if |after| <= |before| then FaultsOf(before[..|before| - |after|]) else []
  }

  lemma {:induction false} FaultsAppend(s: seq<Tick>, t: seq<Tick>)
    ensures FaultsOf(s + t) == FaultsOf(s) + FaultsOf(t)
  {
    if |s| == 0 {
      assert s + t == t;
    } else {
      assert (s + t)[1..] == s[1..] + t;
      FaultsAppend(s[1..], t);
      hide Faulty;
      var first := if Faulty(s[0]) then [s[0].fault.value] else [];
      assert first + (FaultsOf(s[1..]) + FaultsOf(t)) == (first + FaultsOf(s[1..])) + FaultsOf(t);
    }
  }

  lemma OneTick(t: Tick)
    ensures FaultsOf([t]) == if Faulty(t) then [t.fault.value] else []
  {
  }

  /** In between, nobody else has tried to commit. */
  predicate Silent(before: seq<Tick>, after: seq<Tick>) {
    forall k :: 0 <= k < |before| - |after| ==> before[k].others == []
  }

  /** Only others have committed between w and w', while the script went from before to after. */
  ghost predicate Went(w: World, before: seq<Tick>, w': World, after: seq<Tick>, me: nat) {
    Elapsed(w, w', me) && LeftOf(before, after) && (Silent(before, after) ==> SameTables(w', w))
  }

  lemma WentTwice(u: World, s: seq<Tick>, v: World, s': seq<Tick>, w: World, s'': seq<Tick>, me: nat)
    requires Went(u, s, v, s', me) && Went(v, s', w, s'', me)
    ensures Went(u, s, w, s'', me)
    ensures v.past <= w.past && |u.log| <= |w.log|
    ensures Faults(s, s'') == Faults(s, s') + Faults(s', s'')
    ensures Faults(s, s') == [] ==> Faults(s, s'') == Faults(s', s'')
    ensures Faults(s', s'') == [] ==> Faults(s, s'') == Faults(s, s')
  {
    var first, second := |s| - |s'|, |s'| - |s''|;
    assert forall k :: 0 <= k < |s'| ==> s'[k] == s[first + k];
    assert forall k :: 0 <= k < |s''| ==> s''[k] == s'[second + k];
    assert s[first + second..] == s'';
    assert s[..first + second] == s[..first] + s'[..second];
    FaultsAppend(s[..first], s'[..second]);
    if Silent(s, s'') {
      forall k | 0 <= k < second ensures s'[k].others == [] { assert s[first + k].others == []; }
    }
  }

  lemma Forward(w: World, s: seq<Tick>, w': World, s': seq<Tick>, me: nat)
    requires Went(w, s, w', s', me)
    ensures Grows(w, w') && |w.log| <= |w'.log| && |w.past| <= |w'.past|
  {
  }

  lemma LaterWorld(w: World, s: seq<Tick>, w': World, s': seq<Tick>, me: nat)
    requires WorldOk(w) && WorldOk(w') && Went(w, s, w', s', me)
    ensures |w.log| <= |w'.log| < |w'.past| && w'.past[|w.log|] == w.db
    ensures w.db.accounts.Keys <= w'.db.accounts.Keys
  {
    WorldExtends(w, w');
  }

  lemma StayedPut(w: World, s: seq<Tick>, me: nat)
    ensures Went(w, s, w, s, me) && Faults(s, s) == []
  {
  }

  /** Sequence values may be drawn at any time. */
  lemma DrawingElapses(u: World, s: seq<Tick>, w: World, s': seq<Tick>, ids: Ids, me: nat)
    requires WorldOk(w) && Went(u, s, w, s', me) && IdsAtMost(w.ids, ids)
    ensures WorldOk(w.(ids := ids)) && Went(u, s, w.(ids := ids), s', me)
  {
  }

  function Max(a: int, b: int): int { if a >= b then a else b }

  function IdsAbove(ids: Ids, e: Event): Ids {
    match e
    case Moved(_, _, id, debit, credit) =>
      Ids(Max(ids.transfer, id + 1), Max(ids.ledger, Max(debit, credit) + 1), ids.deposit)
    case Opened(_, _, _, deposit) => ids.(deposit := Max(ids.deposit, deposit + 1))
  }

  lemma OthersCommit(w: World, w1: World, held: map<int, Account>, work: Tables, drawn: set<nat>, e: Event)
    requires WorldOk(w) && PendingOk(w, held, work, drawn) && w1 == w.(ids := IdsAbove(w.ids, e))
    requires Legal(w.db, e) && Apart(EventFootprint(e), FootprintOf(held, work, drawn))
    ensures WorldOk(Committed(w1, e)) && PendingOk(Committed(w1, e), held, work, drawn) && Grows(w, Committed(w1, e))
  {
    MoreIds(w, w1.ids);
    Undisturbed(w1, held, work, drawn, e);
    CommittedOk(w1, e);
  }

  /** Another session commits e, unless e is not legal or is in the way of this transaction. */
  function OtherCommitted(w: World, me: nat, held: map<int, Account>, work: Tables, drawn: set<nat>, e: Event): World {
    if Legal(w.db, e) && e.session != me && Apart(EventFootprint(e), FootprintOf(held, work, drawn)) then
      Committed(w.(ids := IdsAbove(w.ids, e)), e)
    else w
  }

  function OthersCommitted(
    w: World, me: nat, held: map<int, Account>, work: Tables, drawn: set<nat>, others: seq<Event>): World
  {
    if |others| == 0 then w
    else
      var n := |others| - 1;
      OtherCommitted(OthersCommitted(w, me, held, work, drawn, others[..n]), me, held, work, drawn, others[n])
  }

  lemma PendingIdsBelow(w: World, held: map<int, Account>, work: Tables, drawn: set<nat>)
    requires PendingOk(w, held, work, drawn)
    ensures forall e :: e in work.ledger ==> e.id < w.ids.ledger
  {
  }

  /** Locked rows are the committed ones, and rows of the transaction's own are not committed. */
  lemma PendingRows(w: World, held: map<int, Account>, work: Tables, drawn: set<nat>)
    requires PendingOk(w, held, work, drawn)
    ensures forall a :: a in held ==> a in w.db.accounts && held[a] == w.db.accounts[a]
    ensures forall a :: a in work.accounts && a !in held ==> a !in w.db.accounts
  {
  }

  lemma NowIsLast(w: World)
    requires WorldOk(w)
    ensures |w.past| == |w.log| + 1 && w.past[|w.log|] == w.db
  {
  }

  /** Whatever others commit in the meantime, publishing the uncommitted rows is the atomic
      effect e on the tables of that moment. */
  ghost predicate Publishes(held: map<int, Account>, work: Tables, drawn: set<nat>, e: Event) {
    forall w :: WorldOk(w) && PendingOk(w, held, work, drawn) ==>
      Legal(w.db, e) && EventIdsBelow(e, w.ids) && Merge(w.db, work) == Apply(w.db, e)
  }

  /** The world just before the latest commit. */
  ghost function LastBefore(w: World): World
    requires w.log != [] && |w.past| == |w.log| + 1
  {
    World(w.past[|w.log| - 1], w.ids, w.past[..|w.log|], w.log[..|w.log| - 1])
  }

  lemma PublishingCommits(w: World, held: map<int, Account>, work: Tables, drawn: set<nat>, e: Event)
    requires WorldOk(w) && PendingOk(w, held, work, drawn) && Publishes(held, work, drawn, e)
    ensures var db := Merge(w.db, work);
            var w' := World(db, w.ids, w.past + [db], w.log + [e]);
            WorldOk(w') && |w'.past| == |w'.log| + 1 && LastBefore(w') == w
  {
    CommittedOk(w, e);
    var w' := Committed(w, e);
    assert w'.past[..|w'.log|] == w.past && w'.log[..|w'.log| - 1] == w.log;
  }

  lemma MergeNothing(t: Tables)
    ensures Merge(t, EMPTY) == t
  {
  }

  // ----- references and ranges -----

  predicate Exists(account: int, db: Tables, work: Tables) { account in db.accounts || account in work.accounts }

  /** What the columns and constraints of transfers say against a row. */
  function TransferViolation(row: Transfer, db: Tables, work: Tables): Option<Error> {
    if !Fits(row.amount) then Some(Pg(NumericOverflow, NoConstraint))
    else if row.amount <= 0 || row.source == row.dest then Some(Pg(CheckViolation, NoConstraint))
    else if !KeyFree(db, row.key) || !KeyFree(work, row.key) then Some(Pg(UniqueViolation, IdempotencyKeyIndex))
    else if Exists(row.source, db, work) && Exists(row.dest, db, work) then None
    else Some(Pg(ForeignKeyViolation, NoConstraint))
  }

  /** The same for ledger_entries. */
  function EntryViolation(e: Entry, db: Tables, work: Tables): Option<Error> {
    if !Fits(e.amount) || !Fits(e.balanceAfter) then Some(Pg(NumericOverflow, NoConstraint))
    else if e.amount <= 0 then Some(Pg(CheckViolation, NoConstraint))
    else if Exists(e.account, db, work) && (exists t :: t in db.transfers + work.transfers && t.id == e.transfer) then
      None
    else Some(Pg(ForeignKeyViolation, NoConstraint))
  }

  lemma KeyUnused(db: Tables, work: Tables, key: Option<Key>)
    ensures KeyFree(db, key) && KeyFree(work, key) <==>
            var rows := db.transfers + work.transfers;
            forall m :: 0 <= m < |rows| && key.Some? ==> rows[m].key != key
  {
    var rows := db.transfers + work.transfers;
    if !KeyFree(db, key) { assert Holder(db, key).value in rows; }
    if !KeyFree(work, key) { assert Holder(work, key).value in rows; }
    if m :| 0 <= m < |rows| && key.Some? && rows[m].key == key {
      assert rows[m] in db.transfers || rows[m] in work.transfers;
    }
  }

  ghost predicate TransferAdmitted(row: Transfer, t: Tables) {
    && Fits(row.amount) && row.amount > 0
    && row.source != row.dest && row.source in t.accounts && row.dest in t.accounts
    && forall m :: 0 <= m < |t.transfers| && row.key.Some? ==> t.transfers[m].key != row.key
  }

  lemma AdmissionKeepsSchema(row: Transfer, t: Tables)
    requires SchemaOk(t) && forall r :: r in t.transfers ==> r.id != row.id
    ensures TransferAdmitted(row, t) <==> SchemaOk(t.(transfers := t.transfers + [row]))
  {
    var t' := t.(transfers := t.transfers + [row]);
    assert row == t'.transfers[|t.transfers|] && row in t'.transfers;
    assert forall m :: 0 <= m < |t.transfers| ==> t'.transfers[m] == t.transfers[m];
  }

  /** A row of transfers is admitted exactly if the tables with it satisfy the schema. */
  lemma AdmittedTransfers(row: Transfer, db: Tables, work: Tables)
    requires SchemaOk(Merge(db, work)) && forall r :: r in db.transfers + work.transfers ==> r.id != row.id
    ensures TransferViolation(row, db, work).None? <==>
            SchemaOk(Merge(db, work.(transfers := work.transfers + [row])))
  {
    var t, t' := Merge(db, work), Merge(db, work.(transfers := work.transfers + [row]));
    hide SchemaOk, FindKey, Holder, KeyFree;
    assert t' == t.(transfers := t.transfers + [row]);
    AdmissionKeepsSchema(row, t);
    KeyUnused(db, work, row.key);
  }

  /** The same for ledger_entries. */
  lemma AdmittedEntries(entry: Entry, db: Tables, work: Tables)
    requires SchemaOk(Merge(db, work)) && forall e :: e in db.ledger + work.ledger ==> e.id != entry.id
    ensures EntryViolation(entry, db, work).None? <==> SchemaOk(Merge(db, InsertedEntry(work, entry)))
  {
    var t, t' := Merge(db, work), Merge(db, InsertedEntry(work, entry));
    assert t'.ledger == t.ledger + [entry];
    assert entry in t'.ledger;
  }

  /** What a balance out of range is reported as: negative is the CHECK, too large is the type. */
  function BadBalance(balance: int, negative: Error, operation: Operation): Error {
    if Fits(balance) then negative else Wrap(operation, Pg(NumericOverflow, NoConstraint))
  }

  function WithOpening(work: Tables, account: int, balance: int, deposit: Option<nat>): Tables {
    work.(
      accounts := work.accounts[account := Account(balance, 0)],
      deposits := work.deposits + (if deposit.Some? then [Deposit(deposit.value, account, balance)] else []))
  }

  class Database {
    const me: nat             // the number of this session in the commit log
    var committed: Tables
    var ids: Ids
    ghost var past: seq<Tables>
    ghost var log: seq<Event>
    var held: map<int, Account>
    var work: Tables
    var drawn: set<nat>
    var script: seq<Tick>

    ghost function Now(): World
      reads this
    {
      World(committed, ids, past, log)
    }

    ghost predicate Valid()
      reads this
    {
      WorldOk(Now()) && PendingOk(Now(), held, work, drawn)
    }

    predicate Idle()
      reads this
    {
      held == map[] && work == EMPTY && drawn == {}
    }

    constructor (session: nat, ticks: seq<Tick>)
      ensures Valid() && Idle() && Now() == NEW_WORLD && me == session && script == ticks
    {
      me := session;
      committed, ids := EMPTY, Ids(1, 1, 1);
      past, log := [EMPTY], [];
      held, work, drawn := map[], EMPTY, {};
      script := ticks;
    }

    /** Another transaction commits, unless this one is in its way. */
    method CommitOther(e: Event)
      requires Valid()
      modifies this`committed, this`ids, this`past, this`log
      ensures Valid() && Elapsed(old(Now()), Now(), me)
      ensures Now() == OtherCommitted(old(Now()), me, held, work, drawn, e)
      ensures var apart := Apart(EventFootprint(e), FootprintOf(held, work, drawn));
              if Legal(old(committed), e) && e.session != me && apart then
                committed == Apply(old(committed), e) && past == old(past) + [committed] && log == old(log) + [e]
              else Now() == old(Now())
    {
      hide PendingOk, WorldOk, FootprintOf, EventFootprint, Legal, Apply;
      if Legal(committed, e) && e.session != me && Apart(EventFootprint(e), FootprintOf(held, work, drawn)) {
        ids := IdsAbove(ids, e);
        ghost var w := Now();
        OthersCommit(old(Now()), w, held, work, drawn, e);
        committed := Apply(committed, e);
        past := past + [committed];
        log := log + [e];
        assert Now() == Committed(w, e);
      }
    }

    /** Time passes around one statement. */
    method Pass() returns (fault: Option<Fault>)
      requires Valid()
      modifies this`committed, this`ids, this`past, this`log, this`script
      ensures Ran()
      ensures old(script) == [] ==> script == [] && Now() == old(Now())
      ensures old(script) != [] ==>
                && script == old(script)[1..]
                && Now() == OthersCommitted(old(Now()), me, held, work, drawn, old(script)[0].others)
      ensures fault == if old(script) != [] && Faulty(old(script)[0]) then old(script)[0].fault else None
      ensures Faults(old(script), script) == if fault.Some? then [fault.value] else []
    {
      fault := None;
      if script != [] {
        var tick := script[0];
        script := script[1..];
        assert old(script)[..1] == [tick];
        OneTick(tick);
        for k := 0 to |tick.others|
          invariant Valid() && Elapsed(old(Now()), Now(), me) && script == old(script)[1..]
          invariant Now() == OthersCommitted(old(Now()), me, held, work, drawn, tick.others[..k])
        {
          assert tick.others[..k + 1][..k] == tick.others[..k];
          ghost var w := Now();
          CommitOther(tick.others[k]);
          ElapsedTransitively(old(Now()), w, Now(), me);
        }
        assert tick.others[..|tick.others|] == tick.others;
        if Faulty(tick) {
          fault := tick.fault;
        }
      }
    }

    /** Only others have committed since, as the script says. */
    twostate predicate Ran()
      reads this
    {
      Valid() && Went(old(Now()), old(script), Now(), script, me)
    }

    /** The latest commit is this session's effect e, and before that, only others have
        committed since. */
    twostate predicate Did(e: Event)
      reads this
    {
      && Valid()
      && log != [] && |past| == |log| + 1 && log[|log| - 1] == e
      && Went(old(Now()), old(script), LastBefore(Now()), script, me)
    }

    /** What the transaction has written amounts to the effect, or to nothing. */
    ghost predicate Ready(effect: Option<Event>)
      reads this
    {
      match effect
      case None => Idle()
      case Some(e) => e.session == me && Publishes(held, work, drawn, e)
    }

    twostate predicate SameWork()
      reads this
    {
      held == old(held) && work == old(work) && drawn == old(drawn)
    }

    /** The server drops everything uncommitted. */
    method Rollback()
      requires Valid()
      modifies this`held, this`work, this`drawn
      ensures Valid() && Idle()
    {
      held, work, drawn := map[], EMPTY, {};
    }

    /** A failed statement rolls back, and is reported with the operation's name. */
    method Abort(operation: Operation, fault: Fault) returns (e: Error)
      requires Valid() && IsFault(fault)
      modifies this`held, this`work, this`drawn
      ensures Valid() && Idle()
      ensures e == Wrap(operation, FaultError(fault)) && Reports(e, fault)
    {
      Rollback();
      e := Wrap(operation, FaultError(fault));
      FaultIsReported(operation, fault);
    }

    /** Takes a connection from the pool and begins a transaction. */
    method Begin() returns (err: Option<Error>)
      requires Valid() && Idle()
      modifies this
      ensures Ran() && Idle()
      ensures err.Some? ==> Idle() && IsDbFailure(err.value)
      ensures FailedIn(BeginTx, err, Faults(old(script), script))
    {
      var fault := Pass();
      if fault.Some? {
        var e := Abort(BeginTx, fault.value);
        return Some(e);
      }
      return None;
    }

    /** The committed rows under the transaction's own. */
    function Seen(): Tables
      reads this
    {
      Merge(committed, work)
    }

    method FindByIdempotencyKey(key: Key) returns (r: Result<Option<Transfer>, Error>)
      requires Valid()
      modifies this
      ensures Ran()
      ensures r.Success? ==> SameWork() && r.value == Holder(Seen(), Some(key))
      ensures r.Failure? ==> Idle() && IsDbFailure(r.error)
      ensures FailedIn(FindTransfer, ErrorOf(r), Faults(old(script), script))
    {
      hide PendingOk, WorldOk, Went, Faults;
      var fault := Pass();
      if fault.Some? {
        var e := Abort(FindTransfer, fault.value);
        return Failure(e);
      }
      return Success(Holder(Seen(), Some(key)));
    }

    /** A row that the transaction has written or locked, as the transaction sees it. */
    function OwnOrHeld(id: int): Account
      requires id in work.accounts || id in held
      reads this
    {
      if id in work.accounts then work.accounts[id] else held[id]
    }

    /** Waits for one row, locks it and reads it. */
    method LockRow(id: int) returns (r: Result<Account, Error>)
      requires Valid() && Exists(id, committed, work)
      modifies this
      ensures Ran()
      ensures r.Success? ==>
                && work == old(work) && drawn == old(drawn)
                && (forall a :: a in held <==> a in old(held) || (a == id && a in old(committed).accounts))
                && (forall a :: a in old(held) ==> held[a] == old(held)[a])
                && (id in work.accounts || id in held) && r.value == OwnOrHeld(id)
      ensures r.Failure? ==> Idle() && IsDbFailure(r.error)
      ensures FailedIn(LockAccounts, ErrorOf(r), Faults(old(script), script))
    {
      hide WorldOk, PendingOk, Went, Faults;
      PendingRows(Now(), held, work, drawn);
      ghost var w, s := Now(), script;
      var fault := Pass();
      LaterWorld(w, s, Now(), script, me);
      if fault.Some? {
        var e := Abort(LockAccounts, fault.value);
        return Failure(e);
      }
      PendingRows(Now(), held, work, drawn);
      PendingAfterLock(Now(), held, work, drawn, id);
      held := WithRow(held, committed, id);
      return Success(OwnOrHeld(id));
    }

    /** The rows of a locking statement one after the other, while others go on. */
    method LockRows(rows: seq<int>) returns (r: Result<map<int, Account>, Error>)
      requires Valid() && forall a :: a in rows ==> Exists(a, committed, work)
      modifies this
      ensures Ran()
      ensures r.Success? ==>
                && work == old(work) && drawn == old(drawn)
                && (forall a :: a in held <==> a in old(held) || (a in rows && a in old(committed).accounts))
                && (forall a :: a in r.value <==> a in rows)
                && (forall a :: a in r.value ==> (a in work.accounts || a in held) && r.value[a] == OwnOrHeld(a))
      ensures r.Failure? ==> Idle() && IsDbFailure(r.error)
      ensures FailedIn(LockAccounts, ErrorOf(r), Faults(old(script), script))
    {
      hide WorldOk, PendingOk, Went, Faults;
      ghost var start, s := Now(), script;
      StayedPut(start, s, me);
      var out: map<int, Account> := map[];
      for k := 0 to |rows|
        invariant Valid() && Went(start, s, Now(), script, me) && Faults(s, script) == []
        invariant work == old(work) && drawn == old(drawn)
        invariant start.db.accounts.Keys <= committed.accounts.Keys
        invariant forall a :: a in held <==> a in old(held) || (a in rows[..k] && a in start.db.accounts)
        invariant forall a :: a in out <==> a in rows[..k]
        invariant forall a :: a in out ==> (a in work.accounts || a in held) && out[a] == OwnOrHeld(a)
      {
        ghost var w, s' := Now(), script;
        assert rows[k] in rows && forall a :: a in rows[..k + 1] <==> a in rows[..k] || a == rows[k];
        PendingRows(w, held, work, drawn);
        var row := LockRow(rows[k]);
        WentTwice(start, s, w, s', Now(), script, me);
        LaterWorld(start, s, Now(), script, me);
        if row.Failure? {
          return Failure(row.error);
        }
        out := out[rows[k] := row.value];
      }
      assert rows[..|rows|] == rows;
      return Success(out);
    }

    /** Locks the given accounts that exist when the statement starts, in ascending id order,
        and reads each at its latest committed version once it is locked; rows of the
        transaction's own are read as it has left them. at is the moment of the start. */
    method LockForUpdate(accounts: seq<int>) returns (r: Result<map<int, Account>, Error>, ghost at: nat)
      requires Valid()
      modifies this
      ensures Ran()
      ensures |old(log)| <= at < |past|
      ensures r.Success? ==>
                && work == old(work) && drawn == old(drawn)
                && (forall a :: a in held <==> a in old(held) || (a in accounts && a in past[at].accounts))
                && (forall a :: a in r.value <==> a in accounts && (a in past[at].accounts || a in work.accounts))
                && (forall a :: a in r.value ==> a in Seen().accounts && r.value[a] == Seen().accounts[a])
      ensures r.Success? && old(Idle()) ==> held == r.value
      ensures r.Failure? ==> Idle() && IsDbFailure(r.error)
      ensures FailedIn(LockAccounts, ErrorOf(r), Faults(old(script), script))
    {
      hide WorldOk, PendingOk, Went, RowsInOrder, Faults, Reports, FaultError, IsDbFailure;
      ghost var w, s := Now(), script;
      var fault := Pass();
      at := |log|;
      LaterWorld(w, s, Now(), script, me);
      if fault.Some? {
        var e := Abort(LockAccounts, fault.value);
        return Failure(e), at;
      }
      ghost var start, s' := Now(), script;
      r := LockRows(RowsInOrder(Seen(), accounts));
      WentTwice(w, s, start, s', Now(), script, me);
      LaterWorld(start, s', Now(), script, me);
      PendingRows(Now(), held, work, drawn);
    }

    /** Sets the balance of an account, if it exists, and bumps its version; the row is locked
        from then on. */
    method UpdateBalance(id: int, balance: int) returns (err: Option<Error>)
      requires Valid()
      modifies this
      ensures Ran()
      ensures err.None? ==>
                && held == WithRow(old(held), committed, id) && drawn == old(drawn)
                && 0 <= balance < MAX_UNITS
                && Success(work) == UpdatedBalance(committed, old(work), id, balance)
      ensures err.Some? ==> Idle()
      ensures FailedIn(Operation.UpdateBalance, err, Faults(old(script), script))
      ensures err.Some? && !DbFailed(err) ==>
                && err.value == BadBalance(balance, Sentinel(InsufficientFunds), Operation.UpdateBalance)
                && !(0 <= balance < MAX_UNITS)
    {
      hide PendingOk, WorldOk, Went, Faults;
      var fault := Pass();
      if fault.Some? {
        var e := Abort(Operation.UpdateBalance, fault.value);
        return Some(e);
      }
      match UpdatedBalance(committed, work, id, balance) {
        case Failure(e) =>
          Rollback();
          return Some(e);
        case Success(work') =>
          PendingAfterUpdate(Now(), held, work, drawn, id, balance);
          held, work := WithRow(held, committed, id), work';
          return None;
      }
    }

    /** Writes a transfer and returns its generated id; the accounts it references are locked
        from then on. */
    method Insert(row: Transfer) returns (r: Result<nat, Error>)
      requires Valid() && drawn == {}
      modifies this
      ensures Ran()
      ensures r.Success? ==>
                && held == WithRow(WithRow(old(held), committed, row.source), committed, row.dest) && drawn == {}
                && work == old(work).(transfers := old(work.transfers) + [row.(id := r.value)])
      ensures r.Success? ==> TransferViolation(row, committed, old(work)).None?
      ensures r.Failure? ==> Idle()
      ensures FailedIn(InsertTransfer, ErrorOf(r), Faults(old(script), script))
      ensures r.Failure? && !IsDbFailure(r.error) ==>
                var v := TransferViolation(row, committed, old(work));
                v.Some? && r.error == InsertTransferError(v.value)
    {
      hide PendingOk, WorldOk, Went, FindKey, Holder, Faults;
      var id := ids.transfer;
      PendingAfterDraw(Now(), held, work);
      StayedPut(Now(), script, me);
      DrawingElapses(old(Now()), old(script), Now(), script, ids.(transfer := id + 1), me);
      ids := ids.(transfer := id + 1);
      drawn := {id};
      ghost var w, s := Now(), script;
      var fault := Pass();
      WentTwice(old(Now()), old(script), w, s, Now(), script, me);
      if fault.Some? {
        var e := Abort(InsertTransfer, fault.value);
        return Failure(e);
      }
      var violation := TransferViolation(row, committed, work);
      if violation.Some? {
        Rollback();
        return Failure(InsertTransferError(violation.value));
      }
      ghost var work0 := work;
      work, drawn := work.(transfers := work.transfers + [row.(id := id)]), {};
      assert Success(work) == InsertedTransfer(committed, work0, row.(id := id));
      PendingAfterInsert(Now(), held, work0, row.(id := id));
      PendingAfterLock(Now(), held, work, {}, row.source);
      PendingAfterLock(Now(), WithRow(held, committed, row.source), work, {}, row.dest);
      held := WithRow(WithRow(held, committed, row.source), committed, row.dest);
      return Success(id);
    }

    /** Writes one side of a transfer's double entry; the id comes from the sequence, and the
        account it references is locked from then on. */
    method InsertLedgerEntry(entry: Entry) returns (err: Option<Error>)
      requires Valid()
      modifies this
      ensures Ran()
      ensures err.None? ==>
                && held == WithRow(old(held), committed, entry.account) && drawn == old(drawn)
                && |work.ledger| == |old(work.ledger)| + 1
                && (var id := work.ledger[|old(work.ledger)|].id;
                    work == old(work).(ledger := old(work.ledger) + [entry.(id := id)])
                    && forall e :: e in old(work.ledger) ==> e.id < id)
      ensures err.None? ==> EntryViolation(entry, committed, old(work)).None?
      ensures err.Some? ==> Idle()
      ensures FailedIn(Operation.InsertLedgerEntry, err, Faults(old(script), script))
      ensures err.Some? && !DbFailed(err) ==>
                var v := EntryViolation(entry, committed, old(work));
                v.Some? && err.value == Wrap(Operation.InsertLedgerEntry, v.value)
    {
      hide PendingOk, WorldOk, Went, Faults;
      var fault := Pass();
      if fault.Some? {
        var e := Abort(Operation.InsertLedgerEntry, fault.value);
        return Some(e);
      }
      var violation := EntryViolation(entry, committed, work);
      if violation.Some? {
        Rollback();
        return Some(Wrap(Operation.InsertLedgerEntry, violation.value));
      }
      PendingAfterLock(Now(), held, work, drawn, entry.account);
      held := WithRow(held, committed, entry.account);
      PendingIdsBelow(Now(), held, work, drawn);
      PendingAfterEntry(Now(), held, work, drawn, entry.(id := ids.ledger));
      DrawingElapses(old(Now()), old(script), Now(), script, ids.(ledger := ids.ledger + 1), me);
      work := InsertedEntry(work, entry.(id := ids.ledger));
      ids := ids.(ledger := ids.ledger + 1);
      return None;
    }

    /** Inserts a deposit for an account of its own; its id comes from the sequence. */
    method InsertDeposit(account: int, amount: int) returns (err: Option<Error>)
      requires Valid() && account in work.accounts && 0 < amount < MAX_UNITS
      modifies this
      ensures Ran()
      ensures err.None? ==>
                && held == old(held) && drawn == old(drawn)
                && exists id: nat :: work == InsertedDeposit(old(work), Deposit(id, account, amount))
      ensures err.Some? ==> Idle() && IsDbFailure(err.value)
      ensures FailedIn(Operation.InsertDeposit, err, Faults(old(script), script))
    {
      hide PendingOk, WorldOk, Went, Faults;
      var fault := Pass();
      if fault.Some? {
        var e := Abort(Operation.InsertDeposit, fault.value);
        return Some(e);
      }
      PendingAfterDeposit(Now(), held, work, drawn, Deposit(ids.deposit, account, amount));
      DrawingElapses(old(Now()), old(script), Now(), script, ids.(deposit := ids.deposit + 1), me);
      work := InsertedDeposit(work, Deposit(ids.deposit, account, amount));
      ids := ids.(deposit := ids.deposit + 1);
      return None;
    }

    method InsertAccount(id: int, balance: int) returns (err: Option<Error>)
      requires Valid()
      modifies this
      ensures Ran()
      ensures err.None? ==>
                && held == old(held) && drawn == old(drawn)
                && Success(work) == InsertedAccount(committed, old(work), id, balance)
      ensures err.Some? ==> Idle()
      ensures FailedIn(Operation.InsertAccount, err, Faults(old(script), script))
      ensures err.Some? && !DbFailed(err) ==> Failure(err.value) == InsertedAccount(committed, old(work), id, balance)
    {
      hide PendingOk, WorldOk, Went, Faults;
      var fault := Pass();
      if fault.Some? {
        var e := Abort(Operation.InsertAccount, fault.value);
        return Some(e);
      }
      match InsertedAccount(committed, work, id, balance) {
        case Failure(e) =>
          Rollback();
          return Some(e);
        case Success(work') =>
          PendingAfterAccount(Now(), held, work, drawn, id, balance);
          work := work';
          return None;
      }
    }

    /** Inserts an account, and its deposit if it opens with money. */
    method Create(id: int, balance: int) returns (err: Option<Error>)
      requires Valid()
      modifies this
      ensures Ran()
      ensures err.None? ==>
                && held == old(held) && drawn == old(drawn) && 0 <= balance < MAX_UNITS
                && exists deposit: Option<nat> ::
                     && (deposit.Some? <==> balance > 0)
                     && work == WithOpening(old(work), id, balance, deposit)
      ensures err.Some? ==> Idle()
      ensures || FailedIn(Operation.InsertAccount, err, Faults(old(script), script))
              || FailedIn(Operation.InsertDeposit, err, Faults(old(script), script))
      ensures err.Some? && !DbFailed(err) ==>
                if 0 <= balance < MAX_UNITS then
                  err.value == Sentinel(AccountAlreadyExists) && Exists(id, committed, old(work))
                else
                  var negative := Wrap(Operation.InsertAccount, Pg(CheckViolation, NoConstraint));
                  err.value == BadBalance(balance, negative, Operation.InsertAccount)
    {
      hide PendingOk, WorldOk, Went, Faults;
      err := InsertAccount(id, balance);
      if err.Some? {
        return;
      }
      ghost var w, s := Now(), script;
      assert work == WithOpening(old(work), id, balance, None);
      if balance > 0 {
        err := InsertDeposit(id, balance);
        WentTwice(old(Now()), old(script), w, s, Now(), script, me);
        if err.None? {
          ghost var deposit: nat :|
            work == InsertedDeposit(WithOpening(old(work), id, balance, None), Deposit(deposit, id, balance));
          assert work == WithOpening(old(work), id, balance, Some(deposit));
        }
      }
    }

    /** What the transaction has written becomes committed, in one step; its locks go. */
    method Publish(ghost effect: Option<Event>)
      requires Valid() && Ready(effect)
      modifies this`committed, this`past, this`log, this`held, this`work, this`drawn
      ensures Valid() && Idle()
      ensures effect.None? ==> Now() == old(Now())
      ensures effect.Some? ==>
                log != [] && |past| == |log| + 1 && log[|log| - 1] == effect.value && LastBefore(Now()) == old(Now())
    {
      hide PendingOk, WorldOk, Publishes, Merge, LastBefore;
      if effect.Some? {
        PublishingCommits(Now(), held, work, drawn, effect.value);
      }
      MergeNothing(committed);
      committed := Merge(committed, work);
      if effect.Some? {
        past, log := past + [committed], log + [effect.value];
      }
      held, work, drawn := map[], EMPTY, {};
      EmptyPending(Now());
    }

    /** COMMIT may fail, and then nothing was published. */
    method Commit(ghost effect: Option<Event>) returns (err: Option<Error>)
      requires Valid() && Ready(effect)
      modifies this
      ensures Idle()
      ensures err.None? && effect.Some? ==> Did(effect.value)
      ensures err.None? && effect.None? ==> Ran()
      ensures err.Some? ==> Ran() && IsDbFailure(err.value)
      ensures FailedIn(CommitTx, err, Faults(old(script), script))
    {
      hide PendingOk, WorldOk, Publishes, LastBefore, Elapsed, Faults;
      var fault := Pass();
      if fault.Some? {
        var e := Abort(CommitTx, fault.value);
        return Some(e);
      }
      Publish(effect);
      return None;
    }
  }
}
