/**
 What every run of the step machine guarantees: refinement to atomic transfers, clean books,
 exactly-once per key, and what a call may report.
 */
module Guarantees {
  import opened Errors
  import opened Money
  import opened Schema
  import opened Audit
  import opened Transactions
  import opened Machine
  import opened Invariant

  // ----- how runs evolve -----

  /** Calls keep their identity, and a finished call stays as it is. */
  predicate SameCall(x: Session, y: Session) {
    y.call == x.call && y.start == x.start && (x.pc.Done? ==> y == x)
  }

  lemma StepIsSameCall(s: State, a: Action, i: nat)
    requires Enabled(s, a) && i < |s.sessions|
    ensures i < |Next(s, a).sessions| && SameCall(s.sessions[i], Next(s, a).sessions[i])
  {
  }

  lemma StepGrows(s: State, a: Action)
    requires Inv(s) && Enabled(s, a)
    ensures Grows(s.world, Next(s, a).world)
  {
    if a.Run? {
      var x := s.sessions[a.i];
      assert SessionOk(s.world, a.i, x);
      if x.pc.Committing? {
        CommitPublishes(s.world, a.i, x);
      } else {
        StepSessionOk(s.world, a.i, x);
      }
    }
  }

  lemma StepKeepsLength(s: State, a: Action)
    requires Enabled(s, a)
    ensures |s.sessions| <= |Next(s, a).sessions|
  {
  }

  lemma GrowsTransitively(u: World, v: World, w: World)
    requires Grows(u, v) && Grows(v, w)
    ensures Grows(u, w)
  {
  }

  lemma {:induction false} RunGrows(states: seq<State>, actions: seq<Action>, j: nat, k: nat)
    requires IsRun(states, actions) && j <= k < |states|
    ensures Grows(states[j].world, states[k].world)
    ensures |states[j].sessions| <= |states[k].sessions|
    decreases k
  {
    if j < k {
      RunHasInv(states, actions, k - 1);
      hide Inv, Grows, Next, Enabled;
      RunGrows(states, actions, j, k - 1);
      assert StepsAt(states, actions, k - 1);
      StepGrows(states[k - 1], actions[k - 1]);
      StepKeepsLength(states[k - 1], actions[k - 1]);
      GrowsTransitively(states[j].world, states[k - 1].world, states[k].world);
    } else {
      assert Grows(states[j].world, states[k].world);
    }
  }

  lemma {:induction false} CallPersists(states: seq<State>, actions: seq<Action>, j: nat, k: nat, i: nat)
    requires IsRun(states, actions) && j <= k < |states| && i < |states[j].sessions|
    ensures i < |states[k].sessions| && SameCall(states[j].sessions[i], states[k].sessions[i])
    decreases k
  {
    if j < k {
      hide Next, Enabled;
      CallPersists(states, actions, j, k - 1, i);
      assert StepsAt(states, actions, k - 1);
      StepIsSameCall(states[k - 1], actions[k - 1], i);
    }
  }

  lemma TablesExtend(states: seq<State>, actions: seq<Action>, j: nat, k: nat)
    requires IsRun(states, actions) && j <= k < |states|
    ensures Extends(states[j].world.db, states[k].world.db)
  {
    RunHasInv(states, actions, j);
    RunHasInv(states, actions, k);
    RunGrows(states, actions, j, k);
    hide SessionsOk, AllApart, EventsOwned, Grows;
    WorldExtends(states[j].world, states[k].world);
  }

  // ----- only the database fails a call -----

  /** The call reports no database failure, and is not about to. */
  predicate Unfailed(x: Session) {
    match x.pc
    case RollingBack(e) => !IsDbFailure(e)
    case Done(Failed(e)) => !IsDbFailure(e)
    case _ => true
  }

  lemma StepIsUnfailed(w: World, x: Session)
    requires Unfailed(x)
    ensures Unfailed(StepSession(w, x).0)
    ensures StepSession(w, x).0.call == x.call && StepSession(w, x).0.start == x.start
  {
    if x.pc.RollingBack? && IsRetryable(x.pc.error) { RetryableIsNoSentinel(x.pc.error, AccountNotFound); }
  }

  lemma CommitIsUnfailed(w: World, i: nat, x: Session)
    requires SessionOk(w, i, x) && x.pc.Committing?
    ensures Unfailed(CommitSession(w, x))
  {
  }

  predicate FailedBetween(actions: seq<Action>, j: nat, k: nat, i: nat)
    requires j <= k <= |actions|
  {
    exists n :: j <= n < k && actions[n].Fail? && actions[n].i == i
  }

  lemma ActionIsUnfailed(s: State, a: Action, i: nat)
    requires Inv(s) && Enabled(s, a) && i < |Next(s, a).sessions| && (i < |s.sessions| ==> Unfailed(s.sessions[i]))
    requires !(a.Fail? && a.i == i)
    ensures Unfailed(Next(s, a).sessions[i])
  {
    hide Inv, Unfailed, SessionOk, StepSession, CommitSession, Blocked;
    if i == |s.sessions| {
      NewIsUnfailed(a.call, |s.world.log|);
    } else if a == Run(i) {
      SessionOfInv(s, i);
      if s.sessions[i].pc.Committing? {
        CommitIsUnfailed(s.world, i, s.sessions[i]);
      } else {
        StepIsUnfailed(s.world, s.sessions[i]);
      }
    }
  }

  lemma NewIsUnfailed(call: Call, start: nat)
    ensures Unfailed(NewSession(call, start))
  {
  }

  /** A call reports a database failure only if the database has failed one of its statements. */
  lemma {:induction false} OnlyTheDatabaseFails(states: seq<State>, actions: seq<Action>, k: nat, i: nat)
    requires IsRun(states, actions) && k < |states| && i < |states[k].sessions| && !FailedBetween(actions, 0, k, i)
    ensures Unfailed(states[k].sessions[i])
  {
    hide Inv, Next, Enabled, Unfailed;
    if k > 0 {
      StepOfRun(states, actions, k - 1);
      RunHasInv(states, actions, k - 1);
      if i < |states[k - 1].sessions| { OnlyTheDatabaseFails(states, actions, k - 1, i); }
      assert !(actions[k - 1].Fail? && actions[k - 1].i == i);
      ActionIsUnfailed(states[k - 1], actions[k - 1], i);
    }
  }

  /** A call cannot have been failed before it was made. */
  lemma FailedSinceInvoked(states: seq<State>, actions: seq<Action>, j: nat, k: nat, i: nat)
    requires IsRun(states, actions) && j <= k < |states| && i == |states[j].sessions|
    ensures FailedBetween(actions, 0, k, i) <==> FailedBetween(actions, j, k, i)
  {
    if n :| 0 <= n < j && actions[n].Fail? && actions[n].i == i {
      StepOfRun(states, actions, n);
      RunGrows(states, actions, n, j);
    }
  }

  // ----- refinement -----

  /** Session i has put an effect into the commit log. */
  ghost predicate HasEvent(w: World, i: nat) {
    exists n :: 0 <= n < |w.log| && w.log[n].session == i
  }

  /** Failed and unfinished calls have no effect; an account reported as created, and a
      transfer without a key reported as done, have their own. */
  ghost predicate EffectMatchesOutcome(w: World, i: nat, x: Session) {
    match x.pc
    case Done(Failed(_)) => !HasEvent(w, i)
    case Done(Created) => HasEvent(w, i)
    case Done(Returned(_)) => x.call.Move? && (x.call.cmd.key.None? ==> HasEvent(w, i))
    case _ => !HasEvent(w, i)
  }

  /** At every moment of every run, the committed tables are those of the atomic machine after
      the log's events, one by one in commit order. Every event is the success of the one call
      that caused it, and no call causes two. */
  lemma Refinement(states: seq<State>, actions: seq<Action>, k: nat)
    requires IsRun(states, actions) && k < |states|
    ensures var s, w := states[k], states[k].world;
            && AtomicRun(w.past, w.log) && w.db == w.past[|w.log|]
            && (forall n :: 0 <= n < |w.log| ==>
                  w.log[n].session < |s.sessions| && EventAnswered(w.log[n], s.sessions[w.log[n].session]))
            && (forall m, n :: 0 <= m < n < |w.log| ==> w.log[m].session != w.log[n].session)
            && (forall i :: 0 <= i < |s.sessions| ==> EffectMatchesOutcome(w, i, s.sessions[i]))
  {
    hide IsRun, SessionOk, AllApart, HasEvent, AtomicRun;
    RunHasInv(states, actions, k);
    var s, w := states[k], states[k].world;
    forall i | 0 <= i < |s.sessions| ensures EffectMatchesOutcome(w, i, s.sessions[i]) {
      SessionOfInv(s, i);
      if s.sessions[i].pc.Done? && !s.sessions[i].pc.outcome.Failed? {
        SuccessHasEvent(w, i, s.sessions[i]);
      } else {
        UnansweredHasNoEvent(s, i);
      }
    }
  }

  lemma UnansweredHasNoEvent(s: State, i: nat)
    requires EventsOwned(s.world.log, s.sessions) && i < |s.sessions|
    requires s.sessions[i].pc.Done? ==> s.sessions[i].pc.outcome.Failed?
    ensures !HasEvent(s.world, i)
  {
  }

  lemma SuccessHasEvent(w: World, i: nat, x: Session)
    requires SessionOk(w, i, x) && x.pc.Done? && !x.pc.outcome.Failed?
    ensures EffectMatchesOutcome(w, i, x)
  {
  }

  /** Every committed state passes the audit: funds are conserved over any number of accounts,
      every account reconciles and replays, balances stay in range, transfers are double
      entries, and versions count entries. This holds also while other transactions are half done. */
  lemma CommittedBooksAreClean(states: seq<State>, actions: seq<Action>, k: nat)
    requires IsRun(states, actions) && k < |states|
    ensures BooksOk(states[k].world.db)
    ensures AuditAccepts(states[k].world.db)
  {
    RunHasInv(states, actions, k);
    var w := states[k].world;
    hide SessionsOk, AllApart, EventsOwned, BooksOk, AuditAccepts;
    AtomicRunKeepsBooks(w.past, w.log, |w.log|);
    BooksPassTheAudit(w.db);
  }

  /** No lost update: as long as a call holds a row, the version it read is the committed one. */
  lemma HeldRowsAreCurrent(states: seq<State>, actions: seq<Action>, k: nat, i: nat, a: int)
    requires IsRun(states, actions) && k < |states| && i < |states[k].sessions|
    requires a in states[k].sessions[i].held
    ensures a in states[k].world.db.accounts
    ensures states[k].sessions[i].held[a] == states[k].world.db.accounts[a]
    ensures forall j :: 0 <= j < |states[k].sessions| && j != i ==> a !in states[k].sessions[j].held
  {
    RunHasInv(states, actions, k);
    assert SessionOk(states[k].world, i, states[k].sessions[i]);
    forall j | 0 <= j < |states[k].sessions| && j != i ensures a !in states[k].sessions[j].held {
      assert a in FootprintAt(states[k].sessions[i]).rows;
      assert Apart(FootprintAt(states[k].sessions[i]), FootprintAt(states[k].sessions[j]));
    }
  }

  /** The destination's range is not checked before the second update. An overflow there fails
      the transaction, exactly when the sum is out of range, and with it goes the debit that the
      first update had already written; nothing of either was ever committed. */
  lemma OverflowUndoesTheDebit(states: seq<State>, actions: seq<Action>, k: nat, i: nat, cmd: Cmd)
    requires IsRun(states, actions) && k < |actions| && actions[k] == Run(i)
    requires i < |states[k].sessions| && states[k].sessions[i].call == Move(cmd) && states[k].sessions[i].pc.UpdateDest?
    ensures |states[k + 1].sessions| == |states[k].sessions| && cmd.dest in states[k].world.db.accounts
    ensures var x, y := states[k].sessions[i], states[k + 1].sessions[i];
            && states[k + 1].world == states[k].world
            && BothHeld(x.held, cmd)
            && x.work.accounts ==
               map[cmd.source := Account(x.held[cmd.source].balance - cmd.amount, x.held[cmd.source].version + 1)]
            && (y.pc.RollingBack? <==> states[k].world.db.accounts[cmd.dest].balance + cmd.amount >= MAX_UNITS)
            && (y.pc.RollingBack? ==> Idle(y) && y.pc.error == VerdictError(TooLarge))
  {
    hide IsRun, SessionOk, WorldOk, Inv, StepMove, Blocked;
    StepOfRun(states, actions, k);
    RunHasInv(states, actions, k);
    SessionOfInv(states[k], i);
    var s := states[k];
    SecondUpdate(s.world, i, s.sessions[i], cmd);
    assert s.world.(ids := s.world.ids) == s.world;
  }

  lemma SecondUpdate(w: World, i: nat, x: Session, cmd: Cmd)
    requires WorldOk(w) && SessionOk(w, i, x) && x.call == Move(cmd) && x.pc.UpdateDest?
    ensures cmd.dest in w.db.accounts && BothHeld(x.held, cmd)
    ensures var (y, ids) := StepMove(w, x, cmd);
            && ids == w.ids
            && x.work.accounts ==
               map[cmd.source := Account(x.held[cmd.source].balance - cmd.amount, x.held[cmd.source].version + 1)]
            && (y.pc.RollingBack? <==> w.db.accounts[cmd.dest].balance + cmd.amount >= MAX_UNITS)
            && (y.pc.RollingBack? ==> Idle(y) && y.pc.error == VerdictError(TooLarge))
  {
    assert cmd.dest in x.held;
  }

  /** What the others of a run do to a call: each of their commits is one legal event that avoids
      everything the call has locked, written or drawn. */
  lemma CommitsOfOthers(states: seq<State>, actions: seq<Action>, k: nat, i: nat, j: nat)
    requires IsRun(states, actions) && k < |actions| && actions[k] == Run(j) && i < |states[k].sessions| && j != i
    requires j < |states[k].sessions| && states[k].sessions[j].pc.Committing?
    ensures var w, w' := states[k].world, states[k + 1].world;
            || w' == w
            || exists e: Event :: e.session == j && Legal(w.db, e)
                                  && Apart(EventFootprint(e), FootprintAt(states[k].sessions[i]))
                                  && w' == Committed(w, e)
  {
    RunHasInv(states, actions, k);
    assert StepsAt(states, actions, k);
    var s := states[k];
    assert SessionOk(s.world, j, s.sessions[j]);
    assert Apart(FootprintAt(s.sessions[j]), FootprintAt(s.sessions[i]));
    hide IsRun, SessionOk, Legal, Merge, FootprintAt, EventFootprint, AllApart, SessionsOk, WorldOk, EventsOwned;
    CommitPublishes(s.world, j, s.sessions[j]);
  }

  // ----- account openings -----

  lemma OpenedStays(w: World, n: nat)
    requires WorldOk(w) && n < |w.log| && w.log[n].Opened?
    ensures forall m :: n < m < |w.past| ==> w.log[n].account in w.past[m].accounts
  {
    forall m | n < m < |w.past| ensures w.log[n].account in w.past[m].accounts {
      assert Legal(w.past[n], w.log[n]) && w.past[n + 1] == Apply(w.past[n], w.log[n]);
      PastExtends(w.past, w.log, n + 1, m);
    }
  }

  /** No account is opened twice: at most one call per account id reports success. */
  lemma AccountsOpenOnce(states: seq<State>, actions: seq<Action>, k: nat, i: nat, j: nat)
    requires IsRun(states, actions) && k < |states| && i < |states[k].sessions| && j < |states[k].sessions|
    requires states[k].sessions[i].call.Open? && states[k].sessions[j].call.Open?
    requires states[k].sessions[i].call.account == states[k].sessions[j].call.account
    requires states[k].sessions[i].pc == Done(Created) && states[k].sessions[j].pc == Done(Created)
    ensures i == j
    ensures states[k].sessions[i].call.account in states[k].world.db.accounts
  {
    RunHasInv(states, actions, k);
    var w, x, y := states[k].world, states[k].sessions[i], states[k].sessions[j];
    assert SessionOk(w, i, x) && SessionOk(w, j, y);
    assert Legal(w.past[x.at], w.log[x.at]) && Legal(w.past[y.at], w.log[y.at]);
    OpenedStays(w, x.at);
    OpenedStays(w, y.at);
  }

  /** An opening that fails without a failure of the database reports an existing account, and
      the account was committed at some moment between the invocation and the return. */
  lemma OpeningFailsOnlyIfTaken(
    states: seq<State>, actions: seq<Action>, j: nat, k: nat, i: nat, account: int, balance: int, e: Error)
    requires IsRun(states, actions) && j < k < |states|
    requires actions[j] == Invoke(Open(account, balance)) && i == |states[j].sessions| < |states[k].sessions|
    requires states[k].sessions[i].pc == Done(Failed(e))
    ensures || (FailedBetween(actions, j, k, i) && IsDbFailure(e))
            || (e == Sentinel(AccountAlreadyExists) && account in states[k].world.db.accounts
                && exists n ::
                     && |states[j].world.log| <= n < |states[k].world.past|
                     && account in states[k].world.past[n].accounts)
  {
    assert StepsAt(states, actions, j);
    assert states[j + 1].sessions[i] == NewSession(Open(account, balance), |states[j].world.log|);
    CallPersists(states, actions, j + 1, k, i);
    RunHasInv(states, actions, k);
    SessionOfInv(states[k], i);
    var w, x := states[k].world, states[k].sessions[i];
    assert OpenErrorExplained(w, x, account, e);
    if !IsDbFailure(e) {
      PastExtends(w.past, w.log, x.at, |w.log|);
    } else {
      FailedSinceInvoked(states, actions, j, k, i);
      if !FailedBetween(actions, j, k, i) { OnlyTheDatabaseFails(states, actions, k, i); }
    }
  }
}
