/**
 What a transfer call may report, and what idempotency keys guarantee, in every run of the
 step machine.
 */
module Idempotency {
  import opened Options
  import opened Errors
  import opened Schema
  import opened Audit
  import opened Transactions
  import opened Machine
  import opened Invariant
  import opened Guarantees

  // ----- returned transfers are committed transfers -----

  lemma FoundRow(t: Tables, cmd: Cmd, row: Transfer)
    requires Decide(t, cmd) == Replayed(row)
    ensures row in t.transfers && row.key == cmd.key && Matches(row, cmd)
  {
  }

  lemma LoggedRow(w: World, n: nat)
    requires WorldOk(w) && n < |w.log| && w.log[n].Moved?
    ensures RowOf(w.log[n].cmd, w.log[n].id) in w.db.transfers
    ensures Decide(w.past[n], w.log[n].cmd) == Execute
  {
    assert Legal(w.past[n], w.log[n]) && w.past[n + 1] == Apply(w.past[n], w.log[n]);
    PastExtends(w.past, w.log, n + 1, |w.log|);
    assert RowOf(w.log[n].cmd, w.log[n].id) in w.past[n + 1].transfers;
  }

  /** A returned transfer is a committed row with the caller's own key and parameters. */
  lemma ReturnedIsCommitted(w: World, i: nat, x: Session, t: Transfer)
    requires WorldOk(w) && SessionOk(w, i, x) && x.pc == Done(Returned(t))
    ensures x.call.Move? && t in w.db.transfers && t.key == x.call.cmd.key && Matches(t, x.call.cmd)
  {
    var cmd := x.call.cmd;
    if ExecutedItself(w, i, x, cmd, t) {
      LoggedRow(w, x.at);
    } else {
      FoundRow(w.past[x.at], cmd, t);
      PastExtends(w.past, w.log, x.at, |w.log|);
    }
  }

  lemma OneRowPerKey(t: Tables, r: Transfer, u: Transfer)
    requires SchemaOk(t) && r in t.transfers && u in t.transfers && r.key.Some? && r.key == u.key
    ensures r == u
  {
  }

  lemma TablesAreSound(states: seq<State>, actions: seq<Action>, k: nat)
    requires IsRun(states, actions) && k < |states|
    ensures WorldOk(states[k].world) && SchemaOk(states[k].world.db)
    ensures forall i :: 0 <= i < |states[k].sessions| ==> SessionOk(states[k].world, i, states[k].sessions[i])
  {
    RunHasInv(states, actions, k);
    hide SessionOk, AuditAccepts, WorldOk, SchemaOk, AccountBook, DoubleEntry;
    CommittedBooksAreClean(states, actions, k);
  }

  /** Exactly once: however many calls share a key and however they overlap, at most one
      committed transfer carries it, and every call that succeeds returns that transfer, with
      parameters equal to its own. */
  lemma ExactlyOncePerKey(states: seq<State>, actions: seq<Action>, k: nat, i: nat, j: nat)
    requires IsRun(states, actions) && k < |states|
    requires i < |states[k].sessions| && j < |states[k].sessions|
    requires states[k].sessions[i].call.Move? && states[k].sessions[j].call.Move?
    requires states[k].sessions[i].call.cmd.key.Some?
    requires states[k].sessions[i].call.cmd.key == states[k].sessions[j].call.cmd.key
    requires states[k].sessions[i].pc.Done? && states[k].sessions[i].pc.outcome.Returned?
    requires states[k].sessions[j].pc.Done? && states[k].sessions[j].pc.outcome.Returned?
    ensures var s := states[k];
            var t := s.sessions[i].pc.outcome.transfer;
            && t == s.sessions[j].pc.outcome.transfer
            && t.key == s.sessions[i].call.cmd.key
            && Matches(t, s.sessions[i].call.cmd) && Matches(t, s.sessions[j].call.cmd)
            && multiset(s.world.db.transfers)[t] == 1
            && forall r :: r in s.world.db.transfers && r.key == t.key ==> r == t
  {
    var s := states[k];
    TablesAreSound(states, actions, k);
    var t, u := s.sessions[i].pc.outcome.transfer, s.sessions[j].pc.outcome.transfer;
    assert SessionOk(s.world, i, s.sessions[i]) && SessionOk(s.world, j, s.sessions[j]);
    hide SessionOk, WorldOk, SchemaOk;
    ReturnedIsCommitted(s.world, i, s.sessions[i], t);
    ReturnedIsCommitted(s.world, j, s.sessions[j], u);
    OneRowPerKey(s.world.db, t, u);
    forall r | r in s.world.db.transfers && r.key == t.key ensures r == t {
      OneRowPerKey(s.world.db, r, t);
    }
    OccursOnce(s.world.db, t);
  }

  lemma OccursOnce(t: Tables, r: Transfer)
    requires SchemaOk(t) && r in t.transfers
    ensures multiset(t.transfers)[r] == 1
  {
    var rows := t.transfers;
    assert forall m, n :: 0 <= m < n < |rows| ==> rows[m] != rows[n];
    hide *;
    var m :| 0 <= m < |rows| && rows[m] == r;
    assert rows == rows[..m] + [r] + rows[m + 1..];
    assert r !in rows[..m] && r !in rows[m + 1..];
    assert multiset(rows) == multiset(rows[..m]) + multiset{r} + multiset(rows[m + 1..]);
  }

  // ----- lost races -----

  lemma ExplainedIsNoDuplicate(w: World, x: Session, cmd: Cmd, error: Error)
    requires MoveErrorExplained(w, x, cmd, error)
    ensures !Is(error, DuplicateIdempotencyKey)
  {
  }

  /** Insert reported a duplicate key, and the call has not resolved it yet. */
  predicate ResolvingRace(x: Session) {
    x.pc.AwaitRefetch? || x.pc.Refetching? || (x.pc.RollingBack? && Is(x.pc.error, DuplicateIdempotencyKey))
  }

  lemma RaceIsLost(w: World, i: nat, x: Session)
    requires SessionOk(w, i, x)
    ensures ResolvingRace(x) ==> x.call.Move? && LostRace(w, x.call.cmd)
    ensures x.pc.Done? && x.pc.outcome.Failed? ==> !Is(x.pc.outcome.error, DuplicateIdempotencyKey)
  {
    if x.call.Move? {
      if e :| (x.pc == RollingBack(e) || x.pc == Done(Failed(e))) && MoveErrorExplained(w, x, x.call.cmd, e) {
        ExplainedIsNoDuplicate(w, x, x.call.cmd, e);
      }
    } else if e :| x.pc == RollingBack(e) || x.pc == Done(Failed(e)) {
      DbFailureIsNoSentinel(e, DuplicateIdempotencyKey);
    }
  }

  /** Whenever Insert has reported a duplicate key, the winner is committed and stays so: the
      re-fetch finds it, whenever it runs. The duplicate-key error never reaches a caller. */
  lemma LostRacesResolve(states: seq<State>, actions: seq<Action>, k: nat, m: nat, i: nat)
    requires IsRun(states, actions) && k <= m < |states| && i < |states[k].sessions|
    ensures var x, db := states[k].sessions[i], states[k].world.db;
            && (ResolvingRace(x) ==>
                  && x.call.Move? && Holder(db, x.call.cmd.key).Some?
                  && Holder(states[m].world.db, x.call.cmd.key) == Holder(db, x.call.cmd.key))
            && (x.pc.Done? && x.pc.outcome.Failed? ==> !Is(x.pc.outcome.error, DuplicateIdempotencyKey))
  {
    TablesAreSound(states, actions, k);
    TablesExtend(states, actions, k, m);
    RaceIsLost(states[k].world, i, states[k].sessions[i]);
    if ResolvingRace(states[k].sessions[i]) {
      FoundStaysFound(states[k].world.db, states[m].world.db, states[k].sessions[i].call.cmd.key);
    }
  }

  // ----- overlapping retries -----

  /** The errors of a transfer that come before its insert. */
  predicate RefusedBeforeInsert(cmd: Cmd, e: Error) {
    || e == VerdictError(Missing(cmd.source))
    || e == VerdictError(Missing(cmd.dest))
    || e == VerdictError(Insufficient)
    || e == VerdictError(TooLarge)
  }

  /** failed tells whether the database has failed the call. */
  predicate RetryError(cmd: Cmd, e: Error, failed: bool) {
    (failed && IsDbFailure(e)) || RefusedBeforeInsert(cmd, e)
  }

  lemma LoggedKeysDiffer(w: World, m: nat, n: nat)
    requires WorldOk(w) && m < n < |w.log| && w.log[m].Moved? && w.log[n].Moved? && w.log[m].cmd.key.Some?
    ensures w.log[m].cmd.key != w.log[n].cmd.key
  {
    var row := RowOf(w.log[m].cmd, w.log[m].id);
    assert Legal(w.past[m], w.log[m]) && Legal(w.past[n], w.log[n]);
    PastExtends(w.past, w.log, m + 1, n);
    assert row in w.past[m + 1].transfers && row in w.past[n].transfers;
  }

  lemma NoConflictWithEqualWinner(w: World, x: Session, cmd: Cmd, row: Transfer)
    requires WorldOk(w) && SchemaOk(w.db) && cmd.key.Some?
    requires row in w.db.transfers && row.key == cmd.key && Matches(row, cmd)
    ensures !Decided(w, x, cmd, Conflict)
  {
    if Decided(w, x, cmd, Conflict) {
      var other := Holder(w.past[x.at], cmd.key).value;
      PastExtends(w.past, w.log, x.at, |w.log|);
      OneRowPerKey(w.db, row, other);
    }
  }

  lemma RetryErrors(w: World, x: Session, cmd: Cmd, e: Error)
    requires MoveErrorExplained(w, x, cmd, e) && !Decided(w, x, cmd, Conflict)
    ensures IsDbFailure(e) || RefusedBeforeInsert(cmd, e)
  {
  }

  lemma RetryHasNoEvent(w: World, i: nat, x: Session, n: nat)
    requires WorldOk(w) && n < |w.log| && w.log[n].Moved? && w.log[n].session != i && w.log[n].cmd.key.Some?
    requires x.call == Move(w.log[n].cmd)
    requires forall m :: 0 <= m < |w.log| && w.log[m].session == i ==> EventAnswered(w.log[m], x)
    ensures !HasEvent(w, i)
  {
    if m :| 0 <= m < |w.log| && w.log[m].session == i {
      if m < n { LoggedKeysDiffer(w, m, n); } else { LoggedKeysDiffer(w, n, m); }
    }
  }

  lemma RetryOutcome(w: World, i: nat, x: Session, n: nat)
    requires WorldOk(w) && SchemaOk(w.db) && SessionOk(w, i, x)
    requires n < |w.log| && w.log[n].Moved? && w.log[n].cmd.key.Some? && x.call == Move(w.log[n].cmd) && x.pc.Done?
    ensures || x.pc.outcome == Returned(RowOf(w.log[n].cmd, w.log[n].id))
            || (x.pc.outcome.Failed? && RetryError(w.log[n].cmd, x.pc.outcome.error, !Unfailed(x)))
  {
    var cmd, row := w.log[n].cmd, RowOf(w.log[n].cmd, w.log[n].id);
    LoggedRow(w, n);
    NoConflictWithEqualWinner(w, x, cmd, row);
    if x.pc.outcome.Returned? {
      ReturnedIsCommitted(w, i, x, x.pc.outcome.transfer);
      OneRowPerKey(w.db, x.pc.outcome.transfer, row);
    } else {
      RetryErrors(w, x, cmd, x.pc.outcome.error);
    }
  }

  /** Another call with the same command has committed a transfer under the shared key. Then
      this call never moves money, and once it is done it has returned that very transfer, or
      one of its own refusals from before the insert, or a failure of the database to run one of
      its statements; never a conflict. */
  lemma OverlappingRetry(states: seq<State>, actions: seq<Action>, k: nat, i: nat, n: nat)
    requires IsRun(states, actions) && k < |states| && i < |states[k].sessions| && n < |states[k].world.log|
    requires states[k].world.log[n].Moved? && states[k].world.log[n].session != i
    requires states[k].world.log[n].cmd.key.Some?
    requires states[k].sessions[i].call == Move(states[k].world.log[n].cmd)
    ensures !HasEvent(states[k].world, i)
    ensures var x, winner := states[k].sessions[i], states[k].world.log[n];
            x.pc.Done? ==>
              || x.pc.outcome == Returned(RowOf(winner.cmd, winner.id))
              || (x.pc.outcome.Failed?
                  && RetryError(winner.cmd, x.pc.outcome.error, FailedBetween(actions, 0, k, i)))
  {
    var w, x := states[k].world, states[k].sessions[i];
    RunHasInv(states, actions, k);
    TablesAreSound(states, actions, k);
    hide IsRun, SessionOk, AllApart, SchemaOk;
    RetryHasNoEvent(w, i, x, n);
    if !FailedBetween(actions, 0, k, i) { OnlyTheDatabaseFails(states, actions, k, i); }
    if x.pc.Done? { RetryOutcome(w, i, x, n); }
  }

  predicate HasReturned(x: Session) { x.pc.Done? && x.pc.outcome.Returned? }

  /** No call with the key has returned a transfer; others may have failed or be in flight. */
  ghost predicate NoneReturned(s: State, key: Key) {
    forall i :: 0 <= i < |s.sessions| && s.sessions[i].call.Move? && s.sessions[i].call.cmd.key == Some(key) ==>
      !HasReturned(s.sessions[i])
  }

  /** Only success uses a key up: it is free exactly as long as no call with it has returned, and
      while it is free, what a new call meets depends on accounts and funds alone. */
  lemma FailureKeepsTheKeyFree(states: seq<State>, actions: seq<Action>, k: nat, key: Key)
    requires IsRun(states, actions) && k < |states|
    ensures KeyFree(states[k].world.db, Some(key)) <==> NoneReturned(states[k], key)
    ensures KeyFree(states[k].world.db, Some(key)) ==>
              forall cmd: Cmd :: cmd.key == Some(key) ==>
                Decide(states[k].world.db, cmd) == DecideFunds(states[k].world.db, cmd)
  {
    var s := states[k];
    RunHasInv(states, actions, k);
    if KeyFree(s.world.db, Some(key)) {
      forall i | 0 <= i < |s.sessions| && s.sessions[i].call.Move? && s.sessions[i].call.cmd.key == Some(key)
        ensures !HasReturned(s.sessions[i])
      {
        ReturnedTakesKey(s, i);
      }
    } else {
      var row := Holder(s.world.db, Some(key)).value;
      var n := RowIsLogged(s.world.past, s.world.log, |s.world.log|, row);
      assert EventAnswered(s.world.log[n], s.sessions[s.world.log[n].session]);
    }
  }

  lemma ReturnedTakesKey(s: State, i: nat)
    requires Inv(s) && i < |s.sessions| && s.sessions[i].call.Move? && s.sessions[i].call.cmd.key.Some?
    ensures HasReturned(s.sessions[i]) ==> !KeyFree(s.world.db, s.sessions[i].call.cmd.key)
  {
    assert SessionOk(s.world, i, s.sessions[i]);
    if HasReturned(s.sessions[i]) {
      ReturnedIsCommitted(s.world, i, s.sessions[i], s.sessions[i].pc.outcome.transfer);
    }
  }

  lemma {:induction false} RowIsLogged(past: seq<Tables>, log: seq<Event>, k: nat, row: Transfer) returns (n: nat)
    requires AtomicRun(past, log) && k <= |log| && row in past[k].transfers
    ensures n < k && log[n].Moved? && row == RowOf(log[n].cmd, log[n].id)
  {
    n := k - 1;
    assert Legal(past[n], log[n]) && past[n + 1] == Apply(past[n], log[n]);
    if row in past[n].transfers {
      n := RowIsLogged(past, log, n, row);
    }
  }

  // ----- every answer is an atomic decision -----

  /** Session i has executed the command as its own event since the first-th commit. */
  ghost predicate ExecutedSince(w: World, first: nat, i: nat, cmd: Cmd, t: Transfer)
    requires |w.past| == |w.log| + 1
  {
    exists n :: first <= n < |w.log| && w.log[n].Moved? && w.log[n].session == i
                && Decide(w.past[n], cmd) == Execute && t == RowOf(cmd, w.log[n].id)
  }

  ghost predicate ReplaysSince(w: World, first: nat, cmd: Cmd, t: Transfer) {
    exists n :: first <= n < |w.past| && Decide(w.past[n], cmd) == Replayed(t)
  }

  /** The refusal is the atomic decision of some moment since the first-th commit. */
  ghost predicate RefusedAtomically(w: World, first: nat, cmd: Cmd, e: Error) {
    exists n :: first <= n < |w.past| && Refuses(Decide(w.past[n], cmd)) && e == VerdictError(Decide(w.past[n], cmd))
  }

  ghost predicate ConflictedSince(w: World, first: nat, cmd: Cmd, e: Error) {
    e == VerdictError(Conflict) && exists n :: first <= n < |w.past| && Decide(w.past[n], cmd) == Conflict
  }

  /** The key was unused at one moment, and accounts and funds refused at one not before it. */
  ghost predicate RefusedSince(w: World, first: nat, cmd: Cmd, e: Error) {
    exists m: nat, n: nat :: RefusedAt(w, first, cmd, e, m, n)
  }

  /** The answer of session i is the atomic decision on the committed tables of some moment
      since the first-th commit, unless the database failed the call. A refusal that is no
      conflict is made of two moments. failed tells whether the database has failed the call. */
  ghost predicate AnswerIsDecision(w: World, first: nat, i: nat, cmd: Cmd, out: Outcome, failed: bool) {
    && |w.past| == |w.log| + 1
    && match out
       case Created => false
       case Returned(t) => ExecutedSince(w, first, i, cmd, t) || ReplaysSince(w, first, cmd, t)
       case Failed(e) =>
         (failed && IsDbFailure(e)) || ConflictedSince(w, first, cmd, e) || RefusedSince(w, first, cmd, e)
  }

  predicate FundsRefuse(t: Tables, cmd: Cmd, e: Error) {
    Refuses(DecideFunds(t, cmd)) && e == VerdictError(DecideFunds(t, cmd))
  }

  ghost predicate RefusedAt(w: World, first: nat, cmd: Cmd, e: Error, m: nat, n: nat) {
    first <= m <= n < |w.past| && KeyFree(w.past[m], cmd.key) && FundsRefuse(w.past[n], cmd, e)
  }

  lemma SessionAnswers(w: World, i: nat, x: Session, cmd: Cmd)
    requires WorldOk(w) && SessionOk(w, i, x) && x.call == Move(cmd) && x.pc.Done?
    ensures AnswerIsDecision(w, x.start, i, cmd, x.pc.outcome, !Unfailed(x))
  {
    if x.pc.outcome.Returned? {
      var t := x.pc.outcome.transfer;
      if ExecutedItself(w, i, x, cmd, t) {
        LoggedRow(w, x.at);
        assert w.log[x.at].session == i;
      }
    } else if x.pc.outcome.Failed? {
      var e := x.pc.outcome.error;
      if v :| Refused(w, x, cmd, v) && e == VerdictError(v) {
        assert RefusedAt(w, x.start, cmd, e, x.seen, x.at);
      }
    }
  }

  /** Every finished transfer call answers with atomic decisions taken between its invocation and
      its return, unless the database has failed one of its statements. */
  lemma AnswersAreDecisions(states: seq<State>, actions: seq<Action>, j: nat, k: nat, i: nat, cmd: Cmd)
    requires IsRun(states, actions) && j < k < |states|
    requires actions[j] == Invoke(Move(cmd)) && i == |states[j].sessions|
    ensures i < |states[k].sessions| && states[k].sessions[i].call == Move(cmd)
    ensures states[k].sessions[i].pc.Done? ==>
              AnswerIsDecision(states[k].world, |states[j].world.log|, i, cmd, states[k].sessions[i].pc.outcome,
                               FailedBetween(actions, j, k, i))
  {
    assert StepsAt(states, actions, j);
    assert states[j + 1].sessions[i] == NewSession(Move(cmd), |states[j].world.log|);
    CallPersists(states, actions, j + 1, k, i);
    TablesAreSound(states, actions, k);
    FailedSinceInvoked(states, actions, j, k, i);
    if !FailedBetween(actions, j, k, i) { OnlyTheDatabaseFails(states, actions, k, i); }
    if states[k].sessions[i].pc.Done? {
      SessionAnswers(states[k].world, i, states[k].sessions[i], cmd);
    }
  }

  /** As long as nobody has committed the key, the two moments of a refusal are one. */
  lemma RefusalIsAtomic(w: World, first: nat, i: nat, cmd: Cmd, e: Error, failed: bool)
    requires WorldOk(w) && KeyFree(w.db, cmd.key)
    requires AnswerIsDecision(w, first, i, cmd, Failed(e), failed) && !IsDbFailure(e)
    ensures RefusedAtomically(w, first, cmd, e)
  {
    if m: nat, n: nat :| RefusedAt(w, first, cmd, e, m, n) {
      PastExtends(w.past, w.log, n, |w.log|);
      if !KeyFree(w.past[n], cmd.key) { FoundStaysFound(w.past[n], w.db, cmd.key); }
    }
  }

  /** Calls whose key nobody uses up are linearizable, calls without a key among them: if no call
      with the key has returned a transfer, a refusal is the atomic decision of one moment
      between the invocation and the return. */
  lemma UncontestedRefusalIsAtomic(
    states: seq<State>, actions: seq<Action>, j: nat, k: nat, i: nat, cmd: Cmd, e: Error)
    requires IsRun(states, actions) && j < k < |states|
    requires actions[j] == Invoke(Move(cmd)) && i == |states[j].sessions| < |states[k].sessions|
    requires states[k].sessions[i].pc == Done(Failed(e)) && !IsDbFailure(e)
    requires cmd.key.Some? ==> NoneReturned(states[k], cmd.key.value)
    ensures RefusedAtomically(states[k].world, |states[j].world.log|, cmd, e)
  {
    AnswersAreDecisions(states, actions, j, k, i, cmd);
    TablesAreSound(states, actions, k);
    if cmd.key.Some? { FailureKeepsTheKeyFree(states, actions, k, cmd.key.value); }
    RefusalIsAtomic(states[k].world, |states[j].world.log|, i, cmd, e, FailedBetween(actions, j, k, i));
  }

  // ----- sequential replay -----

  /** A call that was invoked when its key was already taken by row. failed tells whether the
      database has failed one of its statements. */
  ghost predicate Replaying(x: Session, cmd: Cmd, row: Transfer, failed: bool) {
    && x.call == Move(cmd)
    && Idle(x)
    && match x.pc
       case Begin => true
       case Lookup => true
       case Committing => x.result == Some(row) && Matches(row, cmd)
       case RollingBack(e) => (failed && IsDbFailure(e)) || (!Matches(row, cmd) && e == Sentinel(IdempotencyConflict))
       case Done(Returned(t)) => t == row && Matches(row, cmd)
       case Done(Failed(e)) => (failed && IsDbFailure(e)) || (!Matches(row, cmd) && e == Sentinel(IdempotencyConflict))
       case _ => false
  }

  lemma ReplayAfterAttempt(x: Session, cmd: Cmd, row: Transfer, e: Error)
    requires x.call == Move(cmd) && (IsDbFailure(e) || (!Matches(row, cmd) && e == Sentinel(IdempotencyConflict)))
    ensures Replaying(AfterAttempt(x, e), cmd, row, IsDbFailure(e))
  {
    DbFailureIsNoSentinel(e, DuplicateIdempotencyKey);
  }

  lemma ReplayStep(w: World, x: Session, cmd: Cmd, row: Transfer, failed: bool)
    requires Holder(w.db, cmd.key) == Some(row)
    requires Replaying(x, cmd, row, failed) && !x.pc.Done? && !x.pc.Committing?
    ensures Replaying(StepSession(w, x).0, cmd, row, failed)
  {
    if x.pc.RollingBack? { ReplayAfterAttempt(x, cmd, row, x.pc.error); }
  }

  lemma ReplayFails(x: Session, cmd: Cmd, row: Transfer, failed: bool, fault: Fault)
    requires Replaying(x, cmd, row, failed) && CanFail(x.pc) && IsFault(fault)
    ensures Replaying(FailSession(x, fault), cmd, row, true)
  {
    var e := Wrap(FailingOperation(x.pc), FaultError(fault));
    assert IsDbFailure(e.inner) && IsDbFailure(e);
    if x.pc.Begin? { ReplayAfterAttempt(x, cmd, row, e); }
  }

  lemma ReplayAction(s: State, a: Action, i: nat, cmd: Cmd, row: Transfer, failed: bool)
    requires Enabled(s, a) && i < |s.sessions|
    requires Holder(s.world.db, cmd.key) == Some(row)
    requires Replaying(s.sessions[i], cmd, row, failed)
    ensures i < |Next(s, a).sessions|
    ensures Replaying(Next(s, a).sessions[i], cmd, row, failed || (a.Fail? && a.i == i))
  {
    var x := s.sessions[i];
    if a == Run(i) {
      if !x.pc.Committing? { ReplayStep(s.world, x, cmd, row, failed); }
    } else if a.Fail? && a.i == i {
      ReplayFails(x, cmd, row, failed, a.fault);
    }
  }

  lemma {:induction false} ReplayRun(states: seq<State>, actions: seq<Action>, j: nat, k: nat, cmd: Cmd, row: Transfer)
    requires IsRun(states, actions) && j < k < |states| && actions[j] == Invoke(Move(cmd))
    requires Holder(states[j].world.db, cmd.key) == Some(row)
    ensures |states[j].sessions| < |states[k].sessions|
    ensures Replaying(states[k].sessions[|states[j].sessions|], cmd, row,
                      FailedBetween(actions, j, k, |states[j].sessions|))
    decreases k
  {
    var i := |states[j].sessions|;
    assert StepsAt(states, actions, k - 1);
    if j + 1 == k {
      assert states[k].sessions[i] == NewSession(Move(cmd), |states[j].world.log|);
    } else {
      hide Next, Enabled, Replaying;
      ReplayRun(states, actions, j, k - 1, cmd, row);
      TablesExtend(states, actions, j, k - 1);
      FoundStaysFound(states[j].world.db, states[k - 1].world.db, cmd.key);
      ReplayAction(states[k - 1], actions[k - 1], i, cmd, row, FailedBetween(actions, j, k - 1, i));
      assert FailedBetween(actions, j, k, i) <==>
             FailedBetween(actions, j, k - 1, i) || (actions[k - 1].Fail? && actions[k - 1].i == i);
    }
  }

  /** A key that is taken when a call is invoked cannot appear in an event of that call. */
  lemma LateCallHasNoEvent(s: State, t: State, key: Option<Key>, i: nat, n: nat)
    requires Inv(s) && WorldOk(t.world) && Grows(s.world, t.world)
    requires Holder(s.world.db, key).Some? && i == |s.sessions|
    requires n < |t.world.log| && t.world.log[n].session == i && t.world.log[n].Moved?
    ensures t.world.log[n].cmd.key != key
  {
    var w := t.world;
    assert forall m :: 0 <= m < |s.world.log| ==> w.log[m] == s.world.log[m] && s.world.log[m].session != i;
    if n >= |s.world.log| {
      assert w.past[|s.world.log|] == s.world.db;
      PastExtends(w.past, w.log, |s.world.log|, n);
      FoundStaysFound(s.world.db, w.past[n], key);
      assert Legal(w.past[n], w.log[n]);
    }
  }

  lemma ReplayHasNoEvent(s: State, t: State, cmd: Cmd, i: nat)
    requires Inv(s) && Inv(t) && Grows(s.world, t.world) && Holder(s.world.db, cmd.key).Some?
    requires i == |s.sessions| < |t.sessions| && t.sessions[i].call == Move(cmd)
    ensures !HasEvent(t.world, i)
  {
    hide SessionOk, AllApart, Grows, WorldOk;
    if n :| 0 <= n < |t.world.log| && t.world.log[n].session == i {
      LateCallHasNoEvent(s, t, cmd.key, i, n);
    }
  }

  /** Sequential replay is stable: a call that is invoked after its key was committed, however
      much later and amid whatever other activity, holds no locks, changes nothing, and answers
      with the original transfer if the parameters are equal, also when the source could no
      longer cover it, and with a conflict if not. Only a database failure of one of its own
      statements can make it answer otherwise. */
  lemma SequentialReplayIsStable(
    states: seq<State>, actions: seq<Action>, j: nat, k: nat, i: nat, cmd: Cmd, row: Transfer)
    requires IsRun(states, actions) && j < k < |states| && actions[j] == Invoke(Move(cmd)) && i == |states[j].sessions|
    requires Holder(states[j].world.db, cmd.key) == Some(row)
    ensures i < |states[k].sessions| && !HasEvent(states[k].world, i) && states[k].sessions[i].held == map[]
    ensures states[k].sessions[i].pc.Done? ==>
              || (FailedBetween(actions, j, k, i) && states[k].sessions[i].pc.outcome.Failed?
                  && IsDbFailure(states[k].sessions[i].pc.outcome.error))
              || states[k].sessions[i].pc.outcome ==
                 (if Matches(row, cmd) then Returned(row) else Failed(Sentinel(IdempotencyConflict)))
  {
    hide IsRun, Inv, Grows, HasEvent, FailedBetween;
    ReplayRun(states, actions, j, k, cmd, row);
    RunHasInv(states, actions, j);
    RunHasInv(states, actions, k);
    RunGrows(states, actions, j, k);
    ReplayHasNoEvent(states[j], states[k], cmd, i);
  }
}
