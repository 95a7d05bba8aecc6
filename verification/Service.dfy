/**
 TransferService, AccountService and TxManager as methods over a Database: the transaction
 bodies, the bounded retry loop, and the calls (internal/service/transfer_service.go,
 internal/service/account_service.go, internal/repository/tx.go).
 */
module Service {
  import opened Options
  import opened Errors
  import opened Money
  import opened Schema
  import opened Transactions
  import opened Machine
  import opened Invariant
  import opened Guarantees
  import opened Idempotency
  import opened Solo
  import opened Store
  import opened Validation

  // ----- the others of a run -----

  /** Whatever another call of a run commits while call i is in flight, a Database that stands for
      call i lets it through, with the same effect on the tables. */
  lemma RunCommitsArePermitted(states: seq<State>, actions: seq<Action>, k: nat, i: nat, j: nat)
    requires IsRun(states, actions) && k < |actions| && actions[k] == Run(j) && i < |states[k].sessions| && j != i
    requires j < |states[k].sessions| && states[k].sessions[j].pc.Committing?
    ensures var x, w, w' := states[k].sessions[i], states[k].world, states[k + 1].world;
            || SameTables(w', w)
            || exists e: Event :: e.session == j && SameTables(w', OtherCommitted(w, i, x.held, x.work, Drawn(x), e))
  {
    CommitsOfOthers(states, actions, k, i, j);
    hide IsRun, Legal, EventFootprint, FootprintOf, Drawn, Apply, Enabled, Next;
    var x, w, w' := states[k].sessions[i], states[k].world, states[k + 1].world;
    if w' != w {
      var e: Event :| && e.session == j && Legal(w.db, e) && w' == Committed(w, e)
                      && Apart(EventFootprint(e), FootprintAt(x));
      assert SameTables(w', OtherCommitted(w, i, x.held, x.work, Drawn(x), e));
    }
  }

  // ----- what a call may report -----

  /** Accounts and funds refused the command at some moment since the first-th commit. */
  ghost predicate RefusedFunds(w: World, first: nat, cmd: Cmd, e: Error) {
    exists n :: first <= n < |w.past| && FundsRefuse(w.past[n], cmd, e)
  }

  ghost predicate TakenSince(w: World, first: nat, account: int) {
    exists n :: first <= n < |w.past| && account in w.past[n].accounts
  }

  ghost predicate LostInsert(w: World, cmd: Cmd, e: Error) {
    e == Sentinel(DuplicateIdempotencyKey) && LostRace(w, cmd)
  }

  /** Why a transaction body may fail. */
  ghost predicate Explained(w: World, first: nat, call: Call, e: Error) {
    || IsDbFailure(e)
    || match call
       case Move(cmd) => ConflictedSince(w, first, cmd, e) || RefusedSince(w, first, cmd, e) || LostInsert(w, cmd, e)
       case Open(account, _) => e == Sentinel(AccountAlreadyExists) && TakenSince(w, first, account)
  }

  /** What success means: the committed effect is the call's own and names the result, or there
      is none and the result is the replay of an earlier transfer. */
  ghost predicate Fulfilled(
    w: World, first: nat, me: nat, call: Call, effect: Option<Event>, result: Option<Transfer>)
  {
    match call
    case Move(cmd) =>
      (match effect
       case None => result.Some? && ReplaysSince(w, first, cmd, result.value)
       case Some(e) => e.Moved? && e.session == me && e.cmd == cmd && result == Some(RowOf(cmd, e.id)))
    case Open(account, balance) =>
      effect.Some? && effect.value.Opened? && effect.value.session == me
      && effect.value.account == account && effect.value.balance == balance
  }

  lemma ExplainedLater(w: World, first: nat, w': World, first': nat, call: Call, e: Error)
    requires WorldOk(w) && WorldOk(w') && Grows(w, w') && first' <= first && Explained(w, first, call, e)
    ensures Explained(w', first', call, e)
  {
    if call.Move? {
      var cmd := call.cmd;
      if m: nat, n: nat :| RefusedAt(w, first, cmd, e, m, n) {
        assert RefusedAt(w', first', cmd, e, m, n);
      } else if n :| first <= n < |w.past| && Decide(w.past[n], cmd) == Conflict && e == VerdictError(Conflict) {
        assert w'.past[n] == w.past[n];
      } else if LostInsert(w, cmd, e) {
        WorldExtends(w, w');
        FoundStaysFound(w.db, w'.db, cmd.key);
      }
    } else if TakenSince(w, first, call.account) {
      var n :| first <= n < |w.past| && call.account in w.past[n].accounts;
      assert w'.past[n] == w.past[n];
    }
  }

  lemma FulfilledLater(
    w: World, first: nat, w': World, first': nat,
    me: nat, call: Call, effect: Option<Event>, result: Option<Transfer>)
    requires w.past <= w'.past && first' <= first && Fulfilled(w, first, me, call, effect, result)
    ensures Fulfilled(w', first', me, call, effect, result)
  {
  }

  lemma RefusedFundsLater(w: World, w': World, first: nat, cmd: Cmd, e: Error)
    requires w.past <= w'.past && RefusedFunds(w, first, cmd, e)
    ensures RefusedFunds(w', first, cmd, e)
  {
  }

  // ----- the stages of a transfer -----

  /** The locked rows are current, so what the updates write is computed from current values. */
  lemma SourceStage(w: World, held: map<int, Account>, work: Tables, cmd: Cmd)
    requires PendingOk(w, held, work, {}) && BothHeld(held, cmd)
    requires UpdatedBalance(w.db, EMPTY, cmd.source, held[cmd.source].balance - cmd.amount) == Success(work)
    ensures work == Written(held, cmd, SourceWritten)
  {
  }

  lemma DestStage(w: World, held: map<int, Account>, work: Tables, cmd: Cmd)
    requires PendingOk(w, held, work, {}) && BothHeld(held, cmd) && cmd.source != cmd.dest
    requires Success(work) ==
             UpdatedBalance(w.db, Written(held, cmd, SourceWritten), cmd.dest, held[cmd.dest].balance + cmd.amount)
    ensures work == Written(held, cmd, DestWritten) && work.transfers == [] && work.ledger == []
  {
  }

  /** Row and entries on top of the two updates make the whole transfer. */
  lemma RowsWritten(held: map<int, Account>, cmd: Cmd, work: Tables, id: nat)
    requires BothHeld(held, cmd) && |work.ledger| == 2
    requires work == Written(held, cmd, DestWritten).(
               transfers := [RowOf(cmd, 0).(id := id)],
               ledger := [DebitOf(cmd, id, 0, held[cmd.source].balance).(id := work.ledger[0].id),
                          CreditOf(cmd, id, 0, held[cmd.dest].balance).(id := work.ledger[1].id)])
    ensures work == Written(held, cmd, CreditWritten(id, work.ledger[0].id, work.ledger[1].id))
  {
  }

  lemma TransferPublishes(held: map<int, Account>, cmd: Cmd, session: nat, id: nat, debit: nat, credit: nat)
    requires ValidCmd(cmd) && BothHeld(held, cmd) && held[cmd.dest].balance + cmd.amount < MAX_UNITS && debit != credit
    ensures Publishes(held, Written(held, cmd, CreditWritten(id, debit, credit)), {},
                      Moved(session, cmd, id, debit, credit))
  {
    hide WorldOk, PendingOk, Legal, Apply;
    forall w | WorldOk(w) && PendingOk(w, held, Written(held, cmd, CreditWritten(id, debit, credit)), {})
      ensures Legal(w.db, Moved(session, cmd, id, debit, credit))
              && EventIdsBelow(Moved(session, cmd, id, debit, credit), w.ids)
      ensures Merge(w.db, Written(held, cmd, CreditWritten(id, debit, credit))) ==
              Apply(w.db, Moved(session, cmd, id, debit, credit))
    {
      MoveCommits(w, held, cmd, session, id, debit, credit);
    }
  }

  lemma OpeningPublishes(account: int, balance: int, session: nat, deposit: Option<nat>)
    requires ValidOpening(account, balance) && (deposit.Some? <==> balance > 0)
    ensures Publishes(map[], OpeningRows(account, balance, deposit), {},
                      Opened(session, account, balance, if deposit.Some? then deposit.value else 0))
  {
    hide WorldOk, PendingOk, Legal, Apply;
    var e := Opened(session, account, balance, if deposit.Some? then deposit.value else 0);
    forall w | WorldOk(w) && PendingOk(w, map[], OpeningRows(account, balance, deposit), {})
      ensures Legal(w.db, e) && EventIdsBelow(e, w.ids)
      ensures Merge(w.db, OpeningRows(account, balance, deposit)) == Apply(w.db, e)
    {
      OpeningCommits(w, account, balance, session, deposit);
    }
  }

  /** The verdict of the checks between the locks and the writes. */
  lemma CheckedFunds(w: World, held: map<int, Account>, cmd: Cmd, first: nat, at: nat)
    requires WorldOk(w) && PendingOk(w, held, EMPTY, {}) && first <= at < |w.past| && first <= |w.log| && ValidCmd(cmd)
    requires forall a :: a in held <==> a in [cmd.source, cmd.dest] && a in w.past[at].accounts
    ensures cmd.source !in held ==> RefusedFunds(w, first, cmd, MissingAccount(cmd.source))
    ensures cmd.source in held && cmd.dest !in held ==> RefusedFunds(w, first, cmd, MissingAccount(cmd.dest))
    ensures cmd.source in held && cmd.dest in held ==>
              && held.Keys == {cmd.source, cmd.dest}
              && 0 <= held[cmd.source].balance < MAX_UNITS && 0 <= held[cmd.dest].balance < MAX_UNITS
              && (held[cmd.source].balance < cmd.amount ==> RefusedFunds(w, first, cmd, Sentinel(InsufficientFunds)))
              && (held[cmd.source].balance >= cmd.amount && held[cmd.dest].balance + cmd.amount >= MAX_UNITS ==>
                    RefusedFunds(w, first, cmd, VerdictError(TooLarge)))
  {
    NowIsLast(w);
    var v := DecideFunds(w.past[at], cmd);
    if cmd.source !in held || cmd.dest !in held {
      assert v.Missing? && Refuses(v);
    } else {
      assert forall a :: a in held.Keys <==> a == cmd.source || a == cmd.dest;
      assert DecideFunds(w.past[|w.log|], cmd) == DecideFunds(w.db, cmd);
    }
  }

  /** Entries of a transfer that the transaction has just written break no constraint. */
  lemma EntryFits(e: Entry, row: Transfer, db: Tables, work: Tables)
    requires row in work.transfers && row.id == e.transfer && e.account in work.accounts
    requires 0 < e.amount < MAX_UNITS && 0 <= e.balanceAfter < MAX_UNITS
    ensures EntryViolation(e, db, work).None?
  {
    assert row in db.transfers + work.transfers;
  }

  /** The second half of execute: the transfer row and its two ledger entries. */
  method Record(db: Database, cmd: Cmd, newSource: int, newDest: int)
    returns (r: Result<Transfer, Error>, ghost effect: Option<Event>)
    requires db.Valid() && ValidCmd(cmd) && BothHeld(db.held, cmd) && db.drawn == {}
    requires db.work == Written(db.held, cmd, DestWritten)
    requires newSource == db.held[cmd.source].balance - cmd.amount
    requires newDest == db.held[cmd.dest].balance + cmd.amount && 0 <= newDest < MAX_UNITS
    requires newSource < MAX_UNITS
    modifies db
    ensures db.Ran()
    ensures r.Success? ==>
              && effect.Some? && effect.value.Moved? && effect.value.cmd == cmd
              && r.value == RowOf(cmd, effect.value.id)
              && db.Ready(effect)
    ensures r.Failure? ==> IsDbFailure(r.error) || LostInsert(db.Now(), cmd, r.error)
    ensures FailedOnce(ErrorOf(r), Faults(old(db.script), db.script))
  {
    hide Went, WorldOk, PendingOk, FindKey, Publishes, Elapsed, Grows, SameTables;
    ghost var w0, s0 := db.Now(), db.script;
    var id := db.Insert(RowOf(cmd, 0));
    ghost var w, s := db.Now(), db.script;
    Forward(w0, s0, w, s, db.me);
    if id.Failure? {
      return Failure(id.error), None;
    }
    ghost var row, written := RowOf(cmd, id.value), db.work;
    assert row in written.transfers;
    var err := db.InsertLedgerEntry(Entry(0, id.value, cmd.source, Debit, cmd.amount, newSource));
    WentTwice(w0, s0, w, s, db.Now(), db.script, db.me);
    EntryFits(Entry(0, id.value, cmd.source, Debit, cmd.amount, newSource), row, db.committed, written);
    w, s := db.Now(), db.script;
    if err.Some? {
      return Failure(err.value), None;
    }
    ghost var work := db.work;
    err := db.InsertLedgerEntry(Entry(0, id.value, cmd.dest, Credit, cmd.amount, newDest));
    WentTwice(w0, s0, w, s, db.Now(), db.script, db.me);
    EntryFits(Entry(0, id.value, cmd.dest, Credit, cmd.amount, newDest), row, db.committed, work);
    if err.Some? {
      return Failure(err.value), None;
    }
    ghost var debit, credit := db.work.ledger[0].id, db.work.ledger[1].id;
    RowsWritten(db.held, cmd, db.work, id.value);
    TransferPublishes(db.held, cmd, db.me, id.value, debit, credit);
    return Success(RowOf(cmd, id.value)), Some(Moved(db.me, cmd, id.value, debit, credit));
  }

  /** The locked balance update and the ledger writes. */
  method Execute(db: Database, cmd: Cmd) returns (r: Result<Transfer, Error>, ghost effect: Option<Event>)
    requires db.Valid() && db.Idle() && ValidCmd(cmd)
    modifies db
    ensures db.Ran()
    ensures r.Success? ==>
              && effect.Some? && effect.value.Moved? && effect.value.cmd == cmd
              && r.value == RowOf(cmd, effect.value.id)
              && db.Ready(effect)
    ensures r.Failure? ==>
              || IsDbFailure(r.error)
              || RefusedFunds(db.Now(), old(|db.log|), cmd, r.error)
              || LostInsert(db.Now(), cmd, r.error)
    ensures FailedOnce(ErrorOf(r), Faults(old(db.script), db.script))
  {
    hide Went, WorldOk, PendingOk, RefusedFunds, FindKey, UpdatedBalance, Publishes, Written;
    hide Elapsed, Grows, SameTables;
    effect := None;
    ghost var first, w0, s0 := |db.log|, db.Now(), db.script;
    var locked, at := db.LockForUpdate([cmd.source, cmd.dest]);
    ghost var locks, w, s := db.Now(), db.Now(), db.script;
    Forward(w0, s0, w, s, db.me);
    if locked.Failure? {
      return Failure(locked.error), None;
    }
    CheckedFunds(w, db.held, cmd, first, at);
    if cmd.source !in locked.value {
      return Failure(MissingAccount(cmd.source)), None;
    }
    if cmd.dest !in locked.value {
      return Failure(MissingAccount(cmd.dest)), None;
    }
    var source, dest := locked.value[cmd.source], locked.value[cmd.dest];
    if source.balance < cmd.amount {
      return Failure(Sentinel(InsufficientFunds)), None;
    }
    var newSource, newDest := source.balance - cmd.amount, dest.balance + cmd.amount;
    var err := db.UpdateBalance(cmd.source, newSource);
    WentTwice(w0, s0, w, s, db.Now(), db.script, db.me);
    w, s := db.Now(), db.script;
    if err.Some? {
      return Failure(err.value), None;
    }
    SourceStage(w, db.held, db.work, cmd);
    err := db.UpdateBalance(cmd.dest, newDest);
    WentTwice(w0, s0, w, s, db.Now(), db.script, db.me);
    w, s := db.Now(), db.script;
    if err.Some? {
      if newDest >= MAX_UNITS { RefusedFundsLater(locks, w, first, cmd, VerdictError(TooLarge)); }
      return Failure(err.value), None;
    }
    DestStage(w, db.held, db.work, cmd);
    r, effect := Record(db, cmd, newSource, newDest);
    WentTwice(w0, s0, w, s, db.Now(), db.script, db.me);
  }

  // ----- transaction bodies -----

  lemma BodyRefused(u: World, m: nat, w: World, first: nat, cmd: Cmd, e: Error)
    requires first <= m < |u.past| && u.past <= w.past && KeyFree(u.past[m], cmd.key) && RefusedFunds(w, m, cmd, e)
    ensures RefusedSince(w, first, cmd, e)
  {
    var n :| m <= n < |w.past| && FundsRefuse(w.past[n], cmd, e);
    assert w.past[m] == u.past[m];
    assert RefusedAt(w, first, cmd, e, m, n);
  }

  lemma LookedUp(w: World, first: nat, cmd: Cmd, t: Transfer)
    requires WorldOk(w) && first <= |w.log| && Holder(w.db, cmd.key) == Some(t)
    ensures if Matches(t, cmd) then ReplaysSince(w, first, cmd, t)
            else ConflictedSince(w, first, cmd, Sentinel(IdempotencyConflict))
  {
  }

  /** The body of Transfer's transaction: the key lookup, then the execution. result is the
      captured variable, which only a body that succeeds assigns. */
  method TransferBody(db: Database, cmd: Cmd, result: Option<Transfer>)
    returns (err: Option<Error>, result': Option<Transfer>, ghost effect: Option<Event>)
    requires db.Valid() && db.Idle() && ValidCmd(cmd)
    modifies db
    ensures db.Ran()
    ensures err.None? ==> db.Ready(effect) && Fulfilled(db.Now(), old(|db.log|), db.me, Move(cmd), effect, result')
    ensures err.Some? ==> result' == result && Explained(db.Now(), old(|db.log|), Move(cmd), err.value)
    ensures FailedOnce(err, Faults(old(db.script), db.script))
  {
    hide Went, WorldOk, PendingOk, RefusedFunds, FindKey, Publishes, Elapsed, Grows, SameTables;
    hide ConflictedSince, RefusedSince, ReplaysSince;
    ghost var first, w0, s0 := |db.log|, db.Now(), db.script;
    ghost var w, s := w0, s0;
    NowIsLast(w);
    if cmd.key.Some? {
      var found := db.FindByIdempotencyKey(cmd.key.value);
      w, s := db.Now(), db.script;
      NowIsLast(w);
      Forward(w0, s0, w, s, db.me);
      if found.Failure? {
        return Some(found.error), result, None;
      }
      assert db.Seen() == w.db by { MergeNothing(w.db); }
      if found.value.Some? {
        LookedUp(w, first, cmd, found.value.value);
        if !Matches(found.value.value, cmd) {
          return Some(Sentinel(IdempotencyConflict)), result, None;
        }
        return None, found.value, None;
      }
    } else {
      StayedPut(w, s, db.me);
    }
    ghost var m := |db.log|;
    var t;
    t, effect := Execute(db, cmd);
    WentTwice(w0, s0, w, s, db.Now(), db.script, db.me);
    if t.Failure? {
      if RefusedFunds(db.Now(), m, cmd, t.error) {
        BodyRefused(w, m, db.Now(), first, cmd, t.error);
      }
      return Some(t.error), result, None;
    }
    return None, Some(t.value), effect;
  }

  /** The body of AccountService.Create's transaction. */
  method OpenBody(db: Database, account: int, balance: int) returns (err: Option<Error>, ghost effect: Option<Event>)
    requires db.Valid() && db.Idle() && ValidOpening(account, balance)
    modifies db
    ensures db.Ran()
    ensures err.None? ==>
              db.Ready(effect) && Fulfilled(db.Now(), old(|db.log|), db.me, Open(account, balance), effect, None)
    ensures err.Some? ==> Explained(db.Now(), old(|db.log|), Open(account, balance), err.value)
    ensures FailedOnce(err, Faults(old(db.script), db.script))
  {
    hide WorldOk, PendingOk, Publishes, Went;
    ghost var w, s := db.Now(), db.script;
    err := db.Create(account, balance);
    effect := None;
    Forward(w, s, db.Now(), db.script, db.me);
    NowIsLast(db.Now());
    if err.None? {
      ghost var deposit: Option<nat> :|
        (deposit.Some? <==> balance > 0) && db.work == WithOpening(EMPTY, account, balance, deposit);
      assert db.work == OpeningRows(account, balance, deposit);
      OpeningPublishes(account, balance, db.me, deposit);
      effect := Some(Opened(db.me, account, balance, if deposit.Some? then deposit.value else 0));
    }
  }

  /** The function that a call passes to WithTx. */
  method RunBody(db: Database, call: Call, result: Option<Transfer>)
    returns (err: Option<Error>, result': Option<Transfer>, ghost effect: Option<Event>)
    requires db.Valid() && db.Idle() && ValidCall(call)
    modifies db
    ensures db.Ran()
    ensures err.None? ==> db.Ready(effect) && Fulfilled(db.Now(), old(|db.log|), db.me, call, effect, result')
    ensures err.Some? ==> result' == result && Explained(db.Now(), old(|db.log|), call, err.value)
    ensures FailedOnce(err, Faults(old(db.script), db.script))
  {
    hide Went, WorldOk, PendingOk, Publishes, Explained, ReplaysSince;
    match call {
      case Move(cmd) =>
        err, result', effect := TransferBody(db, cmd, result);
      case Open(account, balance) =>
        err, effect := OpenBody(db, account, balance);
        result' := result;
    }
  }

  // ----- the transaction manager -----

  lemma FailureIsExplained(w: World, first: nat, call: Call, e: Error)
    requires IsDbFailure(e)
    ensures Explained(w, first, call, e)
  {
  }

  /** One attempt: begin, run the body, commit; anything else rolls back. */
  method RunOnce(db: Database, call: Call, result: Option<Transfer>)
    returns (err: Option<Error>, result': Option<Transfer>, ghost effect: Option<Event>)
    requires db.Valid() && db.Idle() && ValidCall(call)
    modifies db
    ensures db.Idle()
    ensures err.None? ==>
              && (if effect.Some? then db.Did(effect.value) else db.Ran())
              && Fulfilled(db.Now(), old(|db.log|), db.me, call, effect, result')
    ensures err.Some? ==> db.Ran() && Explained(db.Now(), old(|db.log|), call, err.value)
    ensures FailedOnce(err, Faults(old(db.script), db.script))
  {
    hide Went, WorldOk, PendingOk, Publishes, Elapsed, Grows, SameTables, Fulfilled, Explained;
    ghost var first, w0, s0 := |db.log|, db.Now(), db.script;
    err := db.Begin();
    result', effect := result, None;
    ghost var w, s := db.Now(), db.script;
    Forward(w0, s0, w, s, db.me);
    if err.Some? {
      FailureIsExplained(w, first, call, err.value);
      return;
    }
    err, result', effect := RunBody(db, call, result);
    WentTwice(w0, s0, w, s, db.Now(), db.script, db.me);
    ghost var body := |w.log|;
    w, s := db.Now(), db.script;
    if err.Some? {
      db.Rollback();
      ExplainedLater(w, body, w, first, call, err.value);
      return;
    }
    err := db.Commit(effect);
    if err.None? && effect.Some? {
      WentTwice(w0, s0, w, s, LastBefore(db.Now()), db.script, db.me);
    } else {
      WentTwice(w0, s0, w, s, db.Now(), db.script, db.me);
    }
    if err.Some? {
      FailureIsExplained(db.Now(), first, call, err.value);
    } else {
      FulfilledLater(w, body, db.Now(), first, db.me, call, effect, result');
    }
  }

  /** The attempts of WithTx, None for one that committed, and what WithTx makes of them: it
      stops at the first attempt that is not retryable, and gives up after three. */
  ghost predicate Attempts(tries: seq<Option<Error>>, err: Option<Error>) {
    && 1 <= |tries| <= MAX_TX_RETRIES
    && (forall k :: 0 <= k < |tries| - 1 ==> tries[k].Some? && IsRetryable(tries[k].value))
    && var last := tries[|tries| - 1];
    if last.Some? && IsRetryable(last.value) then
      |tries| == MAX_TX_RETRIES && err == Some(Wrap(RetriesExhausted, last.value))
    else err == last
  }

  /** Each failed attempt has met one of the faults and reports it. */
  ghost predicate AttemptsMet(tries: seq<Option<Error>>, faults: seq<Fault>) {
    |faults| <= |tries| && forall k :: 0 <= k < |faults| ==> DbFailed(tries[k]) && Reports(tries[k].value, faults[k])
  }

  /** All attempts so far were retryable. */
  ghost predicate Retried(tries: seq<Option<Error>>, faults: seq<Fault>) {
    && |tries| == |faults| && AttemptsMet(tries, faults) && AllTransient(faults)
    && forall k :: 0 <= k < |tries| ==> tries[k].Some? && IsRetryable(tries[k].value)
  }

  /** The attempts of WithTx explain its answer, and the faults explain the attempts. */
  ghost predicate AttemptsSpent(tries: seq<Option<Error>>, err: Option<Error>, faults: seq<Fault>) {
    && Attempts(tries, err) && AttemptsMet(tries, faults)
    && |tries| == |faults| + if DbFailed(err) then 0 else 1
  }

  lemma OneMoreAttempt(tries: seq<Option<Error>>, faults: seq<Fault>, err: Option<Error>, met: seq<Fault>)
    requires Retried(tries, faults) && |tries| < MAX_TX_RETRIES && FailedOnce(err, met)
    ensures if err.Some? && IsRetryable(err.value) then Retried(tries + [err], faults + met)
            else AttemptsSpent(tries + [err], err, faults + met) && FailedRetrying(err, faults + met)
  {
    hide Reports, IsTransient, IsRetryable;
    if DbFailed(err) {
      TransientIsRetryable(err.value, met[0]);
      assert (faults + met)[..|faults|] == faults;
    } else {
      assert faults + met == faults;
      if err.Some? && IsRetryable(err.value) { RetryableIsNoSentinel(err.value, AccountNotFound); }
    }
  }

  lemma NothingTried()
    ensures Retried([], [])
  {
  }

  lemma GivingUp(tries: seq<Option<Error>>, faults: seq<Fault>)
    requires Retried(tries, faults) && |tries| == MAX_TX_RETRIES
    ensures DbFailed(tries[2])
    ensures var err := Some(Wrap(RetriesExhausted, tries[2].value));
            AttemptsSpent(tries, err, faults) && FailedRetrying(err, faults)
  {
  }

  /** Runs the body in a transaction, at most three times. */
  method WithTx(db: Database, call: Call)
    returns (err: Option<Error>, result: Option<Transfer>, tries: seq<Option<Error>>, ghost effect: Option<Event>)
    requires db.Valid() && db.Idle() && ValidCall(call)
    modifies db
    ensures db.Idle()
    ensures FailedRetrying(err, Faults(old(db.script), db.script))
    ensures AttemptsSpent(tries, err, Faults(old(db.script), db.script))
    ensures err.None? ==>
              && (if effect.Some? then db.Did(effect.value) else db.Ran())
              && Fulfilled(db.Now(), old(|db.log|), db.me, call, effect, result)
    ensures err.Some? ==> db.Ran() && Explained(db.Now(), old(|db.log|), call, err.value)
  {
    hide Went, WorldOk, PendingOk, Elapsed, Grows, SameTables, Fulfilled, Explained, Faults;
    hide AttemptsSpent, AttemptsMet, FailedOnce, FailedRetrying;
    ghost var first, w0, s0 := |db.log|, db.Now(), db.script;
    StayedPut(w0, s0, db.me);
    result, tries, effect := None, [], None;
    NothingTried();
    var lastErr := Driver;
    for attempt := 0 to MAX_TX_RETRIES
      invariant db.Ran() && db.Idle()
      invariant |tries| == attempt && Retried(tries, Faults(s0, db.script))
      invariant attempt > 0 ==> tries[attempt - 1] == Some(lastErr)
    {
      ghost var w, s := db.Now(), db.script;
      err, result, effect := RunOnce(db, call, result);
      Forward(w0, s0, w, s, db.me);
      OneMoreAttempt(tries, Faults(s0, s), err, Faults(s, db.script));
      tries := tries + [err];
      if err.None? && effect.Some? {
        WentTwice(w0, s0, w, s, LastBefore(db.Now()), db.script, db.me);
      } else {
        WentTwice(w0, s0, w, s, db.Now(), db.script, db.me);
      }
      if err.None? {
        FulfilledLater(db.Now(), |w.log|, db.Now(), first, db.me, call, effect, result);
        return;
      }
      ExplainedLater(db.Now(), |w.log|, db.Now(), first, call, err.value);
      if !IsRetryable(err.value) {
        return;
      }
      lastErr := err.value;
    }
    err := Some(Wrap(RetriesExhausted, lastErr));
    GivingUp(tries, Faults(s0, db.script));
    FailureIsExplained(db.Now(), first, call, err.value);
  }

  // ----- the calls -----

  function AsOutcome(r: Result<Transfer, Error>): Outcome {
    match r
    case Success(t) => Returned(t)
    case Failure(e) => Outcome.Failed(e)
  }

  /** Fetches the transfer that won the race for the key. */
  method ResolveDuplicate(db: Database, cmd: Cmd) returns (r: Result<Transfer, Error>)
    requires db.Valid() && db.Idle() && cmd.key.Some?
    modifies db
    ensures db.Ran() && db.Idle()
    ensures r.Success? ==> ReplaysSince(db.Now(), old(|db.log|), cmd, r.value)
    ensures r.Failure? ==>
              || IsDbFailure(r.error)
              || ConflictedSince(db.Now(), old(|db.log|), cmd, r.error)
              || (r.error == Sentinel(DuplicateIdempotencyKey) && KeyFree(old(db.committed), cmd.key))
    ensures FailedOnce(ErrorOf(r), Faults(old(db.script), db.script))
  {
    hide Went, WorldOk, PendingOk, FindKey, ReplaysSince, ConflictedSince;
    ghost var w, s := db.Now(), db.script;
    var found := db.FindByIdempotencyKey(cmd.key.value);
    Forward(w, s, db.Now(), db.script, db.me);
    if found.Failure? {
      return Failure(found.error);
    }
    assert db.Seen() == db.committed by { MergeNothing(db.committed); }
    if found.value.None? {
      if Holder(w.db, cmd.key).Some? { StillFound(w, db.Now(), cmd.key); }
      return Failure(Sentinel(DuplicateIdempotencyKey));
    }
    LookedUp(db.Now(), |w.log|, cmd, found.value.value);
    if !Matches(found.value.value, cmd) {
      return Failure(Sentinel(IdempotencyConflict));
    }
    return Success(found.value.value);
  }

  lemma StillFound(w: World, w': World, key: Option<Key>)
    requires WorldOk(w) && WorldOk(w') && Grows(w, w') && Holder(w.db, key).Some?
    ensures Holder(w'.db, key).Some?
  {
    WorldExtends(w, w');
    FoundStaysFound(w.db, w'.db, key);
  }

  lemma LostRaceIsDuplicate(w: World, first: nat, cmd: Cmd, e: Error)
    requires Explained(w, first, Move(cmd), e)
    ensures Is(e, DuplicateIdempotencyKey) <==> LostInsert(w, cmd, e)
  {
    DbFailureIsNoSentinel(e, DuplicateIdempotencyKey);
  }

  lemma ErrorIsDecision(w: World, first: nat, me: nat, cmd: Cmd, e: Error, failed: bool)
    requires WorldOk(w) && (IsDbFailure(e) ==> failed)
    requires IsDbFailure(e) || ConflictedSince(w, first, cmd, e) || RefusedSince(w, first, cmd, e)
    ensures AnswerIsDecision(w, first, me, cmd, Outcome.Failed(e), failed) && !Is(e, DuplicateIdempotencyKey)
  {
  }

  lemma ReplayIsDecision(w: World, first: nat, me: nat, cmd: Cmd, t: Transfer, failed: bool)
    requires WorldOk(w) && ReplaysSince(w, first, cmd, t)
    ensures AnswerIsDecision(w, first, me, cmd, Returned(t), failed)
  {
  }

  lemma EffectIsDecision(w: World, first: nat, me: nat, cmd: Cmd, e: Event, failed: bool)
    requires WorldOk(w) && first < |w.log| && w.log[|w.log| - 1] == e && e.Moved? && e.session == me && e.cmd == cmd
    ensures AnswerIsDecision(w, first, me, cmd, Returned(RowOf(cmd, e.id)), failed)
  {
  }

  /** When nothing else happened, the answer is the atomic decision on the tables of the call. */
  lemma QuietAnswer(w0: World, w: World, me: nat, cmd: Cmd, out: Outcome, failed: bool)
    requires WorldOk(w0) && WorldOk(w) && SameTables(w, w0) && AnswerIsDecision(w, |w0.log|, me, cmd, out, failed)
    requires out.Failed? ==> !IsDbFailure(out.error)
    ensures Answered(w0, w, me, Move(cmd), Decide(w0.db, cmd), out)
  {
  }

  lemma QuietEffect(w0: World, w: World, me: nat, call: Call, e: Event)
    requires WorldOk(w0) && WorldOk(w) && w.log != [] && |w.past| == |w.log| + 1 && w.log[|w.log| - 1] == e
    requires SameTables(LastBefore(w), w0) && e.session == me
    requires match call case Move(cmd) => e.Moved? && e.cmd == cmd
                        case Open(account, balance) => e.Opened? && e.account == account && e.balance == balance
    ensures Answered(w0, w, me, call, Verdict.Execute,
                     if call.Move? then Returned(RowOf(call.cmd, e.id)) else Created)
    ensures call.Move? ==> Decide(w0.db, call.cmd) == Verdict.Execute
  {
  }

  /** Apart from the effect, nobody has committed anything since w0. */
  ghost predicate NobodyElse(w0: World, w: World, effect: Option<Event>) {
    if effect.Some? then w.log != [] && |w.past| == |w.log| + 1 && SameTables(LastBefore(w), w0) else SameTables(w, w0)
  }

  /** out is made of atomic decisions since w0, and is the atomic decision on w0 itself if nobody
      else has committed since; unless the database has failed the call. */
  ghost predicate AnswersCall(
    w0: World, w: World, me: nat, cmd: Cmd, out: Outcome, effect: Option<Event>, failed: bool)
  {
    && AnswerIsDecision(w, |w0.log|, me, cmd, out, failed)
    && (NobodyElse(w0, w, effect) && (out.Failed? ==> !IsDbFailure(out.error)) ==>
          Answered(w0, w, me, Move(cmd), Decide(w0.db, cmd), out))
  }

  lemma ReplayAnswers(w0: World, w: World, me: nat, cmd: Cmd, t: Transfer, failed: bool)
    requires WorldOk(w0) && WorldOk(w) && ReplaysSince(w, |w0.log|, cmd, t)
    ensures AnswersCall(w0, w, me, cmd, Returned(t), None, failed)
  {
    hide WorldOk, ReplaysSince, AnswerIsDecision, Answered, Decide;
    ReplayIsDecision(w, |w0.log|, me, cmd, t, failed);
    if SameTables(w, w0) { QuietAnswer(w0, w, me, cmd, Returned(t), failed); }
  }

  lemma ErrorAnswers(w0: World, w: World, me: nat, cmd: Cmd, e: Error, failed: bool)
    requires WorldOk(w0) && WorldOk(w) && (IsDbFailure(e) ==> failed)
    requires IsDbFailure(e) || ConflictedSince(w, |w0.log|, cmd, e) || RefusedSince(w, |w0.log|, cmd, e)
    ensures AnswersCall(w0, w, me, cmd, Outcome.Failed(e), None, failed) && !Is(e, DuplicateIdempotencyKey)
  {
    hide WorldOk, ConflictedSince, RefusedSince, AnswerIsDecision, Answered, Decide, IsDbFailure, Is;
    ErrorIsDecision(w, |w0.log|, me, cmd, e, failed);
    if SameTables(w, w0) && !IsDbFailure(e) { QuietAnswer(w0, w, me, cmd, Outcome.Failed(e), failed); }
  }

  lemma EffectAnswers(
    w0: World, s0: seq<Tick>, w: World, s: seq<Tick>, me: nat, cmd: Cmd, e: Event, failed: bool)
    requires WorldOk(w0) && WorldOk(w) && w.log != [] && |w.past| == |w.log| + 1 && w.log[|w.log| - 1] == e
    requires Went(w0, s0, LastBefore(w), s, me) && e.Moved? && e.session == me && e.cmd == cmd
    ensures AnswersCall(w0, w, me, cmd, Returned(RowOf(cmd, e.id)), Some(e), failed)
  {
    hide WorldOk, AnswerIsDecision, Answered, Decide;
    Forward(w0, s0, LastBefore(w), s, me);
    EffectIsDecision(w, |w0.log|, me, cmd, e, failed);
    if SameTables(LastBefore(w), w0) { QuietEffect(w0, w, me, Move(cmd), e); }
  }

  /** TransferService.Transfer. A rejected request touches nothing. An error means that the call
      committed nothing, and it is a database failure only if the database has failed a statement
      of the call; otherwise it is a conflict found at one moment of the call, or a refusal made of
      two: the key unused at the first, accounts or funds refusing at the second. A success is
      either the replay of an earlier transfer or the call's own, committed once, as the last
      thing that happened. If nobody else commits meanwhile, it is the atomic call exactly. */
  method Transfer(db: Database, request: TransferRequest)
    returns (r: Result<Schema.Transfer, Error>, ghost effect: Option<Event>)
    requires db.Valid() && db.Idle()
    modifies db
    ensures db.Idle()
    ensures Validate(request).Some? ==>
              && r == Failure(Validate(request).value) && effect.None?
              && db.Now() == old(db.Now()) && db.script == old(db.script)
    ensures if effect.Some? then db.Did(effect.value) else db.Ran()
    ensures Validate(request).None? ==>
              && request.amount.exponent >= -MAX_DECIMAL_PLACES
              && AnswersCall(old(db.Now()), db.Now(), db.me, CmdOf(request), AsOutcome(r), effect,
                             Faults(old(db.script), db.script) != [])
    ensures || FailedRetrying(ErrorOf(r), Faults(old(db.script), db.script))
            || FailedToResolve(db.Now(), CmdOf(request), ErrorOf(r), Faults(old(db.script), db.script))
    ensures r.Failure? ==> effect.None? && (Validate(request).None? ==> !Is(r.error, DuplicateIdempotencyKey))
    ensures r.Success? && effect.Some? ==>
              && request.amount.exponent >= -MAX_DECIMAL_PLACES
              && effect.value.Moved? && effect.value.cmd == CmdOf(request)
              && r.value == RowOf(CmdOf(request), effect.value.id)
  {
    hide Went, WorldOk, PendingOk, FindKey, Explained, AnswersCall, Validate, IsDbFailure, Is;
    hide ReplaysSince, ConflictedSince, RefusedSince, Faults;
    effect := None;
    ghost var w0, s0 := db.Now(), db.script;
    StayedPut(w0, s0, db.me);
    var invalid := Validate(request);
    AcceptedRequests(request);
    if invalid.Some? {
      return Failure(invalid.value), None;
    }
    var cmd := CmdOf(request);
    var err, result, tries;
    err, result, tries, effect := WithTx(db, Move(cmd));
    ghost var w, s := db.Now(), db.script;
    if err.None? {
      if effect.Some? {
        EffectAnswers(w0, s0, w, s, db.me, cmd, effect.value, Faults(s0, s) != []);
      } else {
        ReplayAnswers(w0, w, db.me, cmd, result.value, Faults(s0, s) != []);
      }
      return Success(result.value), effect;
    }
    effect := None;
    LostRaceIsDuplicate(w, |w0.log|, cmd, err.value);
    if !Is(err.value, DuplicateIdempotencyKey) {
      NotLost(w, |w0.log|, cmd, err.value);
      ErrorAnswers(w0, w, db.me, cmd, err.value, Faults(s0, s) != []);
      return Failure(err.value), None;
    }
    DuplicateIsNoFailure(err.value);
    r := ResolveDuplicate(db, cmd);
    Forward(w0, s0, w, s, db.me);
    WentTwice(w0, s0, w, s, db.Now(), db.script, db.me);
    Forward(w, s, db.Now(), db.script, db.me);
    StillFound(w, db.Now(), cmd.key);
    ResolvedFaults(db.Now(), cmd, err, Faults(s0, s), ErrorOf(r), Faults(s, db.script));
    if r.Success? {
      assert ReplaysSince(db.Now(), |w.log|, cmd, r.value);
      FulfilledLater(db.Now(), |w.log|, db.Now(), |w0.log|, db.me, Move(cmd), None, Some(r.value));
      ReplayAnswers(w0, db.Now(), db.me, cmd, r.value, Faults(s0, db.script) != []);
    } else {
      ResolvedError(db.Now(), |w.log|, |w0.log|, cmd, r.error);
      ErrorAnswers(w0, db.Now(), db.me, cmd, r.error, Faults(s0, db.script) != []);
    }
  }

  /** The key was lost to another call, and the database failed to fetch that call's transfer. */
  ghost predicate FailedToResolve(w: World, cmd: Cmd, err: Option<Error>, faults: seq<Fault>) {
    && LostRace(w, cmd) && DbFailed(err)
    && 1 <= |faults| <= 3
    && AllTransient(faults[..|faults| - 1]) && Reports(err.value, faults[|faults| - 1])
  }

  lemma ResolvedFaults(
    w: World, cmd: Cmd, lost: Option<Error>, faults: seq<Fault>, err: Option<Error>, faults': seq<Fault>)
    requires LostRace(w, cmd) && !DbFailed(lost) && FailedRetrying(lost, faults) && FailedOnce(err, faults')
    ensures FailedRetrying(err, faults + faults') || FailedToResolve(w, cmd, err, faults + faults')
  {
    hide Reports;
    if faults' == [] {
      assert faults + faults' == faults;
    } else {
      assert (faults + faults')[..|faults|] == faults;
    }
  }

  lemma DuplicateIsNoFailure(e: Error)
    requires Is(e, DuplicateIdempotencyKey)
    ensures !IsDbFailure(e)
  {
    DbFailureIsNoSentinel(e, DuplicateIdempotencyKey);
  }

  lemma NotLost(w: World, first: nat, cmd: Cmd, e: Error)
    requires Explained(w, first, Move(cmd), e) && !LostInsert(w, cmd, e)
    ensures IsDbFailure(e) || ConflictedSince(w, first, cmd, e) || RefusedSince(w, first, cmd, e)
  {
  }

  lemma ResolvedError(w: World, first: nat, first': nat, cmd: Cmd, e: Error)
    requires first' <= first && (IsDbFailure(e) || ConflictedSince(w, first, cmd, e))
    ensures IsDbFailure(e) || ConflictedSince(w, first', cmd, e)
  {
  }

  /** AccountService.Create. A rejected request touches nothing. Otherwise an error means that
      nothing was committed, and that the account exists or the database has failed a statement of
      the call; a success means that the account was opened once, as the last thing that happened.
      If nobody else commits meanwhile, it is the atomic call exactly. */
  method CreateAccount(db: Database, account: int, balance: Decimal)
    returns (err: Option<Error>, ghost effect: Option<Event>)
    requires db.Valid() && db.Idle()
    modifies db
    ensures db.Idle()
    ensures ValidateOpening(account, balance).Some? ==>
              && err == ValidateOpening(account, balance) && effect.None?
              && db.Now() == old(db.Now()) && db.script == old(db.script)
    ensures err.None? <==> effect.Some?
    ensures if effect.Some? then db.Did(effect.value) else db.Ran()
    ensures effect.Some? ==>
              && balance.exponent >= -MAX_DECIMAL_PLACES
              && effect.value.Opened? && effect.value == Opened(db.me, account, Units(balance), effect.value.deposit)
    ensures err.Some? && ValidateOpening(account, balance).None? ==>
              || IsDbFailure(err.value)
              || (err.value == Sentinel(AccountAlreadyExists) && TakenSince(db.Now(), old(|db.log|), account))
    ensures FailedRetrying(err, Faults(old(db.script), db.script))
    ensures ValidateOpening(account, balance).None? && NobodyElse(old(db.Now()), db.Now(), effect) && !DbFailed(err) ==>
              && balance.exponent >= -MAX_DECIMAL_PLACES
              && Answered(old(db.Now()), db.Now(), db.me, Open(account, Units(balance)), Verdict.Execute,
                          if err.Some? then Outcome.Failed(err.value) else Created)
  {
    hide Went, WorldOk, PendingOk, Answered, IsDbFailure, TakenSince, Faults;
    effect := None;
    ghost var w0, s0 := db.Now(), db.script;
    StayedPut(w0, s0, db.me);
    OpeningChecks(account, balance);
    err := ValidateOpening(account, balance);
    if err.Some? {
      return;
    }
    var call := Open(account, Units(balance));
    var result, tries;
    err, result, tries, effect := WithTx(db, call);
    ghost var w, s := db.Now(), db.script;
    if err.Some? {
      effect := None;
      if SameTables(w, w0) && !DbFailed(err) { QuietTaken(w0, w, db.me, call, err.value); }
    } else if SameTables(LastBefore(w), w0) {
      QuietEffect(w0, w, db.me, call, effect.value);
    }
  }

  lemma QuietTaken(w0: World, w: World, me: nat, call: Call, e: Error)
    requires WorldOk(w0) && SameTables(w, w0) && call.Open? && Explained(w, |w0.log|, call, e) && !IsDbFailure(e)
    ensures Answered(w0, w, me, call, Verdict.Execute, Outcome.Failed(e))
  {
  }
}
