/**
 Retries in the step machine: how many failures of the database a call survives, what it reports
 when it does not, and that surviving them changes nothing about the answer.
 */
module Attempts {
  import opened Options
  import opened Errors
  import opened Transactions
  import opened Machine
  import opened Invariant
  import opened Guarantees
  import opened Progress
  import opened Solo

  // ----- what a call has met -----

  /** The faults of call i's statements among the first k actions, in their order. */
  function FaultsMet(actions: seq<Action>, k: nat, i: nat): seq<Fault>
    requires k <= |actions|
  {
    if k == 0 then []
    else
      var a := actions[k - 1];
      FaultsMet(actions, k - 1, i) + if a.Fail? && a.i == i then [a.fault] else []
  }

  /** The database has failed the re-fetch that follows a lost race. */
  ghost predicate RefetchFailed(states: seq<State>, actions: seq<Action>, k: nat, i: nat)
    requires |states| == |actions| + 1 && k <= |actions|
  {
    exists n :: 0 <= n < k && actions[n].Fail? && actions[n].i == i && i < |states[n].sessions|
                && (states[n].sessions[i].pc.AwaitRefetch? || states[n].sessions[i].pc.Refetching?)
  }

  /** What a failed re-fetch leaves behind: at most two transient faults before it. */
  ghost predicate FailedResolving(e: Error, faults: seq<Fault>) {
    && 1 <= |faults| <= 3
    && AllTransient(faults[..|faults| - 1]) && Reports(e, faults[|faults| - 1])
  }

  /** The attempts of a call are accounted for by the faults it has met. */
  ghost predicate AttemptsOk(x: Session, faults: seq<Fault>, resolved: bool) {
    && (resolved ==> x.pc.Done?)
    && match x.pc
       case RollingBack(e) =>
         if IsDbFailure(e) then
           |faults| == x.attempt + 1 && AllTransient(faults[..x.attempt]) && Reports(e, faults[x.attempt])
         else |faults| == x.attempt && AllTransient(faults)
       case Done(Failed(e)) => if resolved then FailedResolving(e, faults) else FailedRetrying(Some(e), faults)
       case Done(_) => !resolved && FailedRetrying(None, faults)
       case _ => |faults| == x.attempt && AllTransient(faults)
  }

  lemma AfterAttemptCounts(x: Session, e: Error, faults: seq<Fault>)
    requires x.attempt < MAX_TX_RETRIES
    requires if IsDbFailure(e) then
               |faults| == x.attempt + 1 && AllTransient(faults[..x.attempt]) && Reports(e, faults[x.attempt])
             else |faults| == x.attempt && AllTransient(faults)
    ensures AttemptsOk(AfterAttempt(x, e), faults, false)
  {
    DbFailureIsNoSentinel(e, DuplicateIdempotencyKey);
    if IsDbFailure(e) {
      TransientIsRetryable(e, faults[x.attempt]);
    } else if IsRetryable(e) {
      RetryableIsNoSentinel(e, AccountNotFound);
    }
  }

  lemma StepCounts(w: World, i: nat, x: Session, faults: seq<Fault>)
    requires SessionOk(w, i, x) && !x.pc.Done? && !x.pc.Committing? && AttemptsOk(x, faults, false)
    ensures AttemptsOk(StepSession(w, x).0, faults, false)
  {
    hide PendingOk, Shape, History, Reports, AllTransient;
    if x.pc.RollingBack? { AfterAttemptCounts(x, x.pc.error, faults); }
  }

  lemma CommitCounts(w: World, i: nat, x: Session, faults: seq<Fault>)
    requires SessionOk(w, i, x) && x.pc.Committing? && AttemptsOk(x, faults, false)
    ensures AttemptsOk(CommitSession(w, x), faults, false)
  {
    hide PendingOk, History, Reports;
  }

  lemma FailCounts(w: World, i: nat, x: Session, faults: seq<Fault>, f: Fault)
    requires SessionOk(w, i, x) && CanFail(x.pc) && IsFault(f) && AttemptsOk(x, faults, false)
    ensures AttemptsOk(FailSession(x, f), faults + [f], x.pc.AwaitRefetch? || x.pc.Refetching?)
  {
    var e := Wrap(FailingOperation(x.pc), FaultError(f));
    FaultIsReported(FailingOperation(x.pc), f);
    assert (faults + [f])[..x.attempt] == faults;
    hide PendingOk, Shape, History, Reports;
    if x.pc.Begin? { AfterAttemptCounts(x, e, faults + [f]); }
  }

  lemma ActionCounts(s: State, a: Action, i: nat, faults: seq<Fault>, resolved: bool)
    requires Inv(s) && Enabled(s, a) && i < |s.sessions| && AttemptsOk(s.sessions[i], faults, resolved)
    ensures i < |Next(s, a).sessions|
    ensures var hit := a.Fail? && a.i == i;
            AttemptsOk(Next(s, a).sessions[i], faults + (if hit then [a.fault] else []),
                       resolved || (hit && (s.sessions[i].pc.AwaitRefetch? || s.sessions[i].pc.Refetching?)))
  {
    hide Inv, SessionOk, AttemptsOk, StepSession, CommitSession, FailSession, Blocked;
    SessionOfInv(s, i);
    assert faults + [] == faults;
    if a == Run(i) || (a.Fail? && a.i == i) {
      UnfinishedIsUnresolved(s.sessions[i], faults, resolved);
      if a.Fail? {
        FailCounts(s.world, i, s.sessions[i], faults, a.fault);
      } else if s.sessions[i].pc.Committing? {
        CommitCounts(s.world, i, s.sessions[i], faults);
      } else {
        StepCounts(s.world, i, s.sessions[i], faults);
      }
    }
  }

  lemma UnfinishedIsUnresolved(x: Session, faults: seq<Fault>, resolved: bool)
    requires AttemptsOk(x, faults, resolved) && !x.pc.Done?
    ensures !resolved
  {
  }

  lemma NewCounts(call: Call, start: nat)
    ensures AttemptsOk(NewSession(call, start), [], false)
  {
  }

  lemma RefetchFailedLater(states: seq<State>, actions: seq<Action>, k: nat, i: nat)
    requires |states| == |actions| + 1 && k < |actions|
    ensures RefetchFailed(states, actions, k + 1, i) <==>
            || RefetchFailed(states, actions, k, i)
            || (actions[k].Fail? && actions[k].i == i && i < |states[k].sessions|
                && (states[k].sessions[i].pc.AwaitRefetch? || states[k].sessions[i].pc.Refetching?))
  {
  }

  /** What the first k actions leave of call i, if it has been invoked. */
  ghost predicate CountedAt(states: seq<State>, actions: seq<Action>, k: nat, i: nat)
    requires |states| == |actions| + 1 && k <= |actions|
  {
    if i < |states[k].sessions| then
      AttemptsOk(states[k].sessions[i], FaultsMet(actions, k, i), RefetchFailed(states, actions, k, i))
    else FaultsMet(actions, k, i) == [] && !RefetchFailed(states, actions, k, i)
  }

  lemma NothingCounted(states: seq<State>, actions: seq<Action>, i: nat)
    requires IsRun(states, actions)
    ensures CountedAt(states, actions, 0, i)
  {
    hide StepsAt;
  }

  lemma {:induction false} RunCounts(states: seq<State>, actions: seq<Action>, k: nat, i: nat)
    requires |states| == |actions| + 1 && IsRun(states, actions) && k < |states|
    ensures CountedAt(states, actions, k, i)
  {
    hide *;
    if k == 0 {
      NothingCounted(states, actions, i);
    } else {
      RunCounts(states, actions, k - 1, i);
      RunHasInv(states, actions, k - 1);
      StepOfRun(states, actions, k - 1);
      StepCounted(states, actions, k - 1, i);
    }
  }

  lemma StepCounted(states: seq<State>, actions: seq<Action>, k: nat, i: nat)
    requires |states| == |actions| + 1 && k < |actions| && Inv(states[k])
    requires Enabled(states[k], actions[k]) && states[k + 1] == Next(states[k], actions[k])
    requires CountedAt(states, actions, k, i)
    ensures CountedAt(states, actions, k + 1, i)
  {
    hide Inv, Next, Enabled, AttemptsOk, RefetchFailed;
    RefetchFailedLater(states, actions, k, i);
    var s, a := states[k], actions[k];
    if i < |s.sessions| {
      ActionCounts(s, a, i, FaultsMet(actions, k, i), RefetchFailed(states, actions, k, i));
    } else {
      NewcomerIsUnhurt(s, a, i);
      assert FaultsMet(actions, k + 1, i) == [];
    }
  }

  lemma NewcomerIsUnhurt(s: State, a: Action, i: nat)
    requires Enabled(s, a) && i >= |s.sessions|
    ensures !(a.Fail? && a.i == i)
    ensures i < |Next(s, a).sessions| ==> AttemptsOk(Next(s, a).sessions[i], [], false)
  {
    if a.Invoke? { NewCounts(a.call, |s.world.log|); }
  }

  /** Retry accounting, in every run: a call that reports a database failure has met three faults
      of which the first two were transient, or fewer of which exactly the last was not; every
      other finished call has met at most two, all of them transient; and the SQLSTATE it reports
      is that of the last fault. The one exception is the re-fetch after a lost race, which is
      not retried. */
  lemma RetriesAreSpent(states: seq<State>, actions: seq<Action>, k: nat, i: nat)
    requires IsRun(states, actions) && k < |states| && i < |states[k].sessions| && states[k].sessions[i].pc.Done?
    ensures var out, faults := states[k].sessions[i].pc.outcome, FaultsMet(actions, k, i);
            if RefetchFailed(states, actions, k, i) then out.Failed? && FailedResolving(out.error, faults)
            else FailedRetrying(if out.Failed? then Some(out.error) else None, faults)
  {
    RunCounts(states, actions, k, i);
  }

  // ----- the answer of a call that is retried -----

  /** Session i runs alone towards the atomic decision on the tables of w0, or rolls back in
      order to start again. */
  ghost predicate Persisting(w0: World, s: State, i: nat, call: Call, faults: seq<Fault>) {
    && Inv(s) && Alone(s, i)
    && var x := s.sessions[i];
    && x.call == call
    && AttemptsOk(x, faults, false) && |faults| <= 2 && AllTransient(faults)
    && if x.pc.RollingBack? && IsDbFailure(x.pc.error) then SameTables(s.world, w0)
       else OnItsWay(w0, s, i, VerdictOf(w0.db, call))
  }

  lemma PersistsRunning(w0: World, s: State, i: nat, call: Call, faults: seq<Fault>)
    requires Persisting(w0, s, i, call, faults) && !s.sessions[i].pc.Done?
    ensures Enabled(s, Run(i)) && Persisting(w0, Next(s, Run(i)), i, call, faults)
  {
    var x := s.sessions[i];
    AloneIsEnabled(s, i);
    AloneStaysAlone(s, i);
    NextKeepsInv(s, Run(i));
    ActionCounts(s, Run(i), i, faults, false);
    assert faults + [] == faults;
    CallStays(s, i);
    if x.pc.RollingBack? && IsDbFailure(x.pc.error) {
      TransientIsRetryable(x.pc.error, faults[x.attempt]);
      hide Inv, Alone, AttemptsOk;
    } else {
      hide Inv, Alone, AttemptsOk;
      StaysOnItsWay(w0, s, i, VerdictOf(w0.db, call));
      RunsIntoNoFailure(s, i);
    }
  }

  lemma RunsIntoNoFailure(s: State, i: nat)
    requires Inv(s) && Enabled(s, Run(i)) && Unfailed(s.sessions[i])
    ensures Unfailed(Next(s, Run(i)).sessions[i])
  {
    ActionIsUnfailed(s, Run(i), i);
  }

  lemma PersistsFailing(w0: World, s: State, i: nat, call: Call, faults: seq<Fault>, f: Fault)
    requires Persisting(w0, s, i, call, faults) && IsTransient(f) && |faults| < 2
    requires !s.sessions[i].pc.RollingBack? && !s.sessions[i].pc.Done?
    ensures Enabled(s, Fail(i, f)) && Persisting(w0, Next(s, Fail(i, f)), i, call, faults + [f])
  {
    var x, a := s.sessions[i], Fail(i, f);
    var s' := Next(s, a);
    assert !x.pc.RollingBack? && SameTables(s.world, w0) && !x.pc.AwaitRefetch? && !x.pc.Refetching?;
    FailIsTransient(x, f);
    NextKeepsInv(s, a);
    ActionCounts(s, a, i, faults, false);
    FailStaysAlone(s, i, f);
    hide Inv, Alone, AttemptsOk;
  }

  /** A transient failure before the third makes the session roll back, or begin again at once. */
  lemma FailIsTransient(x: Session, f: Fault)
    requires CanFail(x.pc) && !x.pc.AwaitRefetch? && !x.pc.Refetching? && IsTransient(f)
    ensures var x' := FailSession(x, f);
            && x'.call == x.call
            && (x.pc.Begin? && x.attempt + 1 < MAX_TX_RETRIES ==> x'.pc.Begin?)
            && (!x.pc.Begin? ==> x'.pc.RollingBack? && IsDbFailure(x'.pc.error))
  {
    FaultIsReported(FailingOperation(x.pc), f);
    TransientIsRetryable(Wrap(FailingOperation(x.pc), FaultError(f)), f);
  }

  lemma FailStaysAlone(s: State, i: nat, f: Fault)
    requires Inv(s) && Alone(s, i) && Enabled(s, Fail(i, f))
    ensures Alone(Next(s, Fail(i, f)), i)
  {
    assert ConnectionsInUse(s.sessions) <= s.pool;
    hide Inv, Idle, ConnectionsInUse;
    ConnectionsAfterUpdate(s.sessions, i, FailSession(s.sessions[i], f));
  }

  /** An execution in which call i runs alone and the database fails at most two of its
      statements, each with a transient fault. */
  ghost predicate Disturbed(states: seq<State>, actions: seq<Action>, i: nat) {
    && Executes(states, actions)
    && (forall k :: 0 <= k < |actions| ==> actions[k] == Run(i)
                                           || (actions[k].Fail? && actions[k].i == i && IsTransient(actions[k].fault)))
    && |FaultsMet(actions, |actions|, i)| <= 2
  }

  lemma {:induction false} FaultsMetGrow(actions: seq<Action>, k: nat, n: nat, i: nat)
    requires k <= n <= |actions|
    ensures |FaultsMet(actions, k, i)| <= |FaultsMet(actions, n, i)|
  {
    if k < n { FaultsMetGrow(actions, k, n - 1, i); }
  }

  lemma {:induction false} StaysPersisting(
    w0: World, states: seq<State>, actions: seq<Action>, k: nat, i: nat, call: Call)
    requires Disturbed(states, actions, i) && k <= |actions| && Persisting(w0, states[0], i, call, [])
    ensures Persisting(w0, states[k], i, call, FaultsMet(actions, k, i))
  {
    hide Persisting, Next, Enabled, IsTransient;
    if k > 0 {
      StaysPersisting(w0, states, actions, k - 1, i, call);
      FaultsMetGrow(actions, k, |actions|, i);
      assert StepsAt(states, actions, k - 1);
      PersistsThrough(w0, states[k - 1], actions[k - 1], i, call, FaultsMet(actions, k - 1, i));
    }
  }

  lemma PersistsThrough(w0: World, s: State, a: Action, i: nat, call: Call, faults: seq<Fault>)
    requires Persisting(w0, s, i, call, faults) && Enabled(s, a)
    requires a == Run(i) || (a.Fail? && a.i == i && IsTransient(a.fault) && |faults| < 2)
    ensures Persisting(w0, Next(s, a), i, call, faults + if a.Fail? then [a.fault] else [])
  {
    hide Persisting, Next, Blocked, IsTransient;
    assert faults + [] == faults;
    if a.Fail? {
      PersistsFailing(w0, s, i, call, faults, a.fault);
    } else {
      PersistsRunning(w0, s, i, call, faults);
    }
  }

  lemma NewCallPersists(s: State, call: Call)
    requires Inv(s) && AllDone(s) && s.pool >= 1 && ValidCall(call)
    ensures Enabled(s, Invoke(call))
    ensures Persisting(s.world, Next(s, Invoke(call)), |s.sessions|, call, [])
  {
    NewCallOnItsWay(s, call);
    NewCounts(call, |s.world.log|);
    hide Inv, Alone, Heading, AttemptsOk;
  }

  /** Retrying is invisible: however one or two transient failures strike a call that runs alone,
      it can go on as long as it is unfinished, and its answer and its effect are those of the
      atomic decision on the tables it was invoked on, executed once. */
  lemma AnswerDespiteFailures(s: State, call: Call, states: seq<State>, actions: seq<Action>)
    requires Inv(s) && AllDone(s) && s.pool >= 1 && ValidCall(call)
    requires states != [] && states[0] == Next(s, Invoke(call)) && Disturbed(states, actions, |s.sessions|)
    ensures var t, i := states[|actions|], |s.sessions|;
            && i < |t.sessions|
            && if t.sessions[i].pc.Done? then
                 Answered(s.world, t.world, i, call, VerdictOf(s.world.db, call), t.sessions[i].pc.outcome)
               else Enabled(t, Run(i))
  {
    NewCallPersists(s, call);
    hide Persisting, Next, Disturbed;
    StaysPersisting(s.world, states, actions, |actions|, |s.sessions|, call);
    PersistingAnswers(s.world, states[|actions|], |s.sessions|, call, FaultsMet(actions, |actions|, |s.sessions|));
  }

  lemma PersistingAnswers(w0: World, s: State, i: nat, call: Call, faults: seq<Fault>)
    requires Persisting(w0, s, i, call, faults)
    ensures i < |s.sessions|
    ensures if s.sessions[i].pc.Done? then
              Answered(w0, s.world, i, call, VerdictOf(w0.db, call), s.sessions[i].pc.outcome)
            else Enabled(s, Run(i))
  {
    hide Inv, Answered, Heading, AttemptsOk;
  }

  /** The execution fails session i with the faults of todo, one after the other, and then runs it,
      and nothing else, to its answer. */
  ghost predicate FailsThenAnswers(w0: World, i: nat, call: Call, todo: seq<Fault>,
                                   states: seq<State>, actions: seq<Action>) {
    && Executes(states, actions) && |actions| >= |todo|
    && (forall k :: 0 <= k < |actions| ==> actions[k] == if k < |todo| then Fail(i, todo[k]) else Run(i))
    && var t := states[|actions|];
    && i < |t.sessions| && t.sessions[i].pc.Done?
    && Answered(w0, t.world, i, call, VerdictOf(w0.db, call), t.sessions[i].pc.outcome)
  }

  lemma PrependAnswer(w0: World, s: State, a: Action, i: nat, call: Call, todo: seq<Fault>,
                      states: seq<State>, actions: seq<Action>)
    requires states != [] && FailsThenAnswers(w0, i, call, todo, states, actions)
    requires Enabled(s, a) && states[0] == Next(s, a) && (a == Run(i) ==> todo == [])
    requires a == Run(i) || (a.Fail? && a.i == i)
    ensures FailsThenAnswers(w0, i, call, if a.Fail? then [a.fault] + todo else [], [s] + states, [a] + actions)
  {
    hide Next, Enabled, Answered, StepsAt, Executes;
    PrependStep(s, a, states, actions);
    assert forall k :: 0 < k <= |actions| ==> ([a] + actions)[k] == actions[k - 1];
  }

  lemma AnsweredAtOnce(w0: World, s: State, i: nat, call: Call)
    requires i < |s.sessions| && s.sessions[i].pc.Done?
    requires Answered(w0, s.world, i, call, VerdictOf(w0.db, call), s.sessions[i].pc.outcome)
    ensures FailsThenAnswers(w0, i, call, [], [s], [])
  {
    hide Next, Enabled, Answered;
  }

  lemma {:induction false} FinishPersisting(w0: World, s: State, i: nat, call: Call, faults: seq<Fault>)
    returns (states: seq<State>, actions: seq<Action>)
    requires Persisting(w0, s, i, call, faults)
    ensures states != [] && states[0] == s && FailsThenAnswers(w0, i, call, [], states, actions)
    decreases TotalWeight(s.sessions)
  {
    hide Persisting, Next, Enabled, TotalWeight, Answered, FailsThenAnswers;
    PersistingAnswers(w0, s, i, call, faults);
    if s.sessions[i].pc.Done? {
      states, actions := [s], [];
      AnsweredAtOnce(w0, s, i, call);
    } else {
      PersistsRunning(w0, s, i, call, faults);
      PersistingLosesWeight(w0, s, i, call, faults);
      states, actions := FinishPersisting(w0, Next(s, Run(i)), i, call, faults);
      PrependAnswer(w0, s, Run(i), i, call, [], states, actions);
      states, actions := [s] + states, [Run(i)] + actions;
    }
  }

  lemma PersistingLosesWeight(w0: World, s: State, i: nat, call: Call, faults: seq<Fault>)
    requires Persisting(w0, s, i, call, faults) && Enabled(s, Run(i))
    ensures TotalWeight(Next(s, Run(i)).sessions) < TotalWeight(s.sessions)
  {
    hide Inv, Enabled, OnItsWay, AttemptsOk, Alone, TotalWeight;
    ActionWeight(s, Run(i));
  }

  lemma {:induction false} FailThenFinish(w0: World, s: State, i: nat, call: Call, met: seq<Fault>, todo: seq<Fault>)
    returns (states: seq<State>, actions: seq<Action>)
    requires Persisting(w0, s, i, call, met) && i < |s.sessions| && s.sessions[i].pc.Begin?
    requires AllTransient(todo) && |met| + |todo| <= 2
    ensures states != [] && states[0] == s && FailsThenAnswers(w0, i, call, todo, states, actions)
    decreases |todo|
  {
    hide Persisting, Next, Enabled, IsTransient, FailsThenAnswers;
    if todo == [] {
      states, actions := FinishPersisting(w0, s, i, call, met);
    } else {
      var a := Fail(i, todo[0]);
      PersistsFailing(w0, s, i, call, met, todo[0]);
      BeginsAgain(w0, s, i, call, met, todo[0]);
      states, actions := FailThenFinish(w0, Next(s, a), i, call, met + [todo[0]], todo[1..]);
      PrependAnswer(w0, s, a, i, call, todo[1..], states, actions);
      assert [todo[0]] + todo[1..] == todo;
      states, actions := [s] + states, [a] + actions;
    }
  }

  lemma BeginsAgain(w0: World, s: State, i: nat, call: Call, met: seq<Fault>, f: Fault)
    requires Persisting(w0, s, i, call, met) && Enabled(s, Fail(i, f))
    requires s.sessions[i].pc.Begin? && IsTransient(f) && |met| < 2
    ensures i < |Next(s, Fail(i, f)).sessions| && Next(s, Fail(i, f)).sessions[i].pc.Begin?
  {
    hide Inv, Alone, OnItsWay;
    FailIsTransient(s.sessions[i], f);
  }

  /** Such executions exist: a call on a quiet system that is failed once or twice begins again
      each time and then reaches the answer of the call that is not. */
  lemma CallAloneDespiteFailures(s: State, call: Call, faults: seq<Fault>)
    returns (states: seq<State>, actions: seq<Action>)
    requires Inv(s) && AllDone(s) && s.pool >= 1 && ValidCall(call)
    requires |faults| <= 2 && AllTransient(faults)
    ensures Enabled(s, Invoke(call)) && states != [] && states[0] == Next(s, Invoke(call))
    ensures FailsThenAnswers(s.world, |s.sessions|, call, faults, states, actions)
  {
    NewCallPersists(s, call);
    assert Next(s, Invoke(call)).sessions[|s.sessions|].pc.Begin?;
    hide Persisting, Next, Enabled, FailsThenAnswers, Inv, IsTransient;
    states, actions := FailThenFinish(s.world, Next(s, Invoke(call)), |s.sessions|, call, [], faults);
  }
}
