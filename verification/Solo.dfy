/**
 Runs that exist: a call that runs alone is the atomic decision on the tables it finds, and the
 overlapping retry whose refusal no moment explains.
 */
module Solo {
  import opened Options
  import opened Errors
  import opened Schema
  import opened Transactions
  import opened Machine
  import opened Invariant
  import opened Progress

  // ----- a call alone -----

  /** Session i can run: nobody else holds a row or has written one, and a connection is there. */
  ghost predicate Alone(s: State, i: nat) {
    && i < |s.sessions|
    && (forall j :: 0 <= j < |s.sessions| && j != i ==> Idle(s.sessions[j]))
    && (HoldsConnection(s.sessions[i].pc) || ConnectionsInUse(s.sessions) < s.pool)
  }

  /** The call has answered with verdict v on the tables of w0, and an execution has been
      committed as one atomic event. */
  ghost predicate Answered(w0: World, w: World, i: nat, call: Call, v: Verdict, out: Outcome) {
    match call
    case Open(account, balance) =>
      if account in w0.db.accounts then SameTables(w, w0) && out == Failed(Sentinel(AccountAlreadyExists))
      else
        && out == Created
        && exists e: Event :: e.Opened? && e.session == i && e.account == account && e.balance == balance
                              && Published(w0, w, e)
    case Move(cmd) =>
      match v
      case Replayed(t) => SameTables(w, w0) && out == Returned(t)
      case Execute =>
        exists e: Event :: e.Moved? && e.session == i && e.cmd == cmd && Published(w0, w, e)
                           && out == Returned(RowOf(cmd, e.id))
      case _ => SameTables(w, w0) && out == Failed(VerdictError(v))
  }

  ghost predicate Published(w0: World, w: World, e: Event) {
    Legal(w0.db, e) && w.db == Apply(w0.db, e) && w.log == w0.log + [e] && w.past == w0.past + [w.db]
  }

  /** On the way to verdict v. */
  ghost predicate Heading(w0: World, x: Session, v: Verdict) {
    match x.call
    case Open(account, _) =>
      (match x.pc
       case RollingBack(e) => account in w0.db.accounts && e == Sentinel(AccountAlreadyExists)
       case WriteDeposit => account !in w0.db.accounts
       case Committing => account !in w0.db.accounts
       case _ => true)
    case Move(cmd) =>
      match x.pc
      case Begin => v == Decide(w0.db, cmd)
      case Lookup => v == Decide(w0.db, cmd)
      case Snapshot => v == DecideFunds(w0.db, cmd) && (v == Execute ==> KeyFree(w0.db, cmd.key))
      case Locking(todo) =>
        && v == DecideFunds(w0.db, cmd) && (v == Execute ==> KeyFree(w0.db, cmd.key))
        && forall a :: a in {cmd.source, cmd.dest} ==> (a in x.held || a in todo <==> a in w0.db.accounts)
      case UpdateSource => v == DecideFunds(w0.db, cmd) && (v == TooLarge || (v == Execute && KeyFree(w0.db, cmd.key)))
      case UpdateDest => v == DecideFunds(w0.db, cmd) && (v == TooLarge || (v == Execute && KeyFree(w0.db, cmd.key)))
      case RollingBack(e) => Refuses(v) && e == VerdictError(v)
      case Committing => if x.work == EMPTY then x.result.Some? && v == Replayed(x.result.value) else v == Execute
      case AwaitRefetch => false
      case Refetching => false
      case _ => v == Execute && KeyFree(w0.db, cmd.key)
  }

  ghost predicate OnItsWay(w0: World, s: State, i: nat, v: Verdict) {
    && Inv(s) && Alone(s, i)
    && var x := s.sessions[i];
    if x.pc.Done? then Answered(w0, s.world, i, x.call, v, x.pc.outcome)
    else SameTables(s.world, w0) && Heading(w0, x, v)
  }

  lemma AloneIsEnabled(s: State, i: nat)
    requires Alone(s, i) && !s.sessions[i].pc.Done?
    ensures Enabled(s, Run(i))
  {
  }

  lemma HeadingOpenStep(w0: World, w: World, i: nat, x: Session, v: Verdict)
    requires SessionOk(w, i, x) && x.call.Open? && !x.pc.Committing? && !x.pc.Done?
    requires SameTables(w, w0) && Heading(w0, x, v)
    ensures var (x', ids) := StepSession(w, x);
            if x'.pc.Done? then Answered(w0, w.(ids := ids), i, x'.call, v, x'.pc.outcome) else Heading(w0, x', v)
  {
  }

  lemma HeadingWriteStep(w0: World, w: World, i: nat, x: Session, cmd: Cmd, v: Verdict)
    requires WorldOk(w) && SessionOk(w, i, x) && x.call == Move(cmd)
    requires || x.pc.UpdateSource? || x.pc.UpdateDest? || x.pc.DrawTransferId?
             || x.pc.WriteTransfer? || x.pc.WriteDebit? || x.pc.WriteCredit?
    requires SameTables(w, w0) && Heading(w0, x, v)
    ensures Heading(w0, StepMove(w, x, cmd).0, v) && !StepMove(w, x, cmd).0.pc.Done?
  {
  }

  lemma HeadingEdgeStep(w0: World, w: World, i: nat, x: Session, cmd: Cmd, v: Verdict)
    requires x.call == Move(cmd)
    requires x.pc.Begin? || (x.pc.Lookup? && Idle(x)) || x.pc.RollingBack?
    requires SameTables(w, w0) && Heading(w0, x, v)
    ensures var (x', ids) := StepMove(w, x, cmd);
            if x'.pc.Done? then Answered(w0, w.(ids := ids), i, x'.call, v, x'.pc.outcome) else Heading(w0, x', v)
  {
  }

  lemma HeadingMoveStep(w0: World, w: World, i: nat, x: Session, cmd: Cmd, v: Verdict)
    requires WorldOk(w) && SessionOk(w, i, x) && x.call == Move(cmd)
    requires !x.pc.Snapshot? && !x.pc.Locking? && !x.pc.Committing? && !x.pc.Done?
    requires SameTables(w, w0) && Heading(w0, x, v)
    ensures var (x', ids) := StepMove(w, x, cmd);
            if x'.pc.Done? then Answered(w0, w.(ids := ids), i, x'.call, v, x'.pc.outcome) else Heading(w0, x', v)
  {
    assert ShapeOfMove(x, cmd);
    MoveStaysInMove(x, cmd);
    assert !x.pc.AwaitRefetch? && !x.pc.Refetching? && (x.pc.Lookup? ==> Idle(x));
    hide *;
    if x.pc.Begin? || x.pc.Lookup? || x.pc.RollingBack? {
      HeadingEdgeStep(w0, w, i, x, cmd, v);
    } else {
      HeadingWriteStep(w0, w, i, x, cmd, v);
    }
  }

  lemma HeadingReadStep(w0: World, w: World, i: nat, x: Session, cmd: Cmd, v: Verdict)
    requires WorldOk(w) && SessionOk(w, i, x) && x.call == Move(cmd) && (x.pc.Snapshot? || x.pc.Locking?)
    requires SameTables(w, w0) && Heading(w0, x, v)
    ensures Heading(w0, StepMove(w, x, cmd).0, v)
  {
  }

  lemma HeadingStep(w0: World, w: World, i: nat, x: Session, v: Verdict)
    requires WorldOk(w) && SessionOk(w, i, x) && !x.pc.Committing? && !x.pc.Done?
    requires SameTables(w, w0) && Heading(w0, x, v)
    ensures var (x', ids) := StepSession(w, x);
            if x'.pc.Done? then Answered(w0, w.(ids := ids), i, x'.call, v, x'.pc.outcome) else Heading(w0, x', v)
  {
    if x.call.Open? {
      HeadingOpenStep(w0, w, i, x, v);
    } else if x.pc.Snapshot? || x.pc.Locking? {
      HeadingReadStep(w0, w, i, x, x.call.cmd, v);
    } else {
      HeadingMoveStep(w0, w, i, x, x.call.cmd, v);
    }
  }

  lemma HeadingCommit(w0: World, w: World, i: nat, x: Session, v: Verdict)
    requires WorldOk(w) && SessionOk(w, i, x) && x.pc.Committing? && SameTables(w, w0) && Heading(w0, x, v)
    ensures Answered(w0, CommitWorld(w, i, x), i, x.call, v, CommitOutcome(x))
  {
    CommitPublishes(w, i, x);
    if x.work != EMPTY {
      assert Published(w0, CommitWorld(w, i, x), EventOf(i, x).value);
    } else if account, balance :| x.call == Open(account, balance) {
      OpeningIsNotEmpty(x, account, balance);
    }
  }

  lemma AloneStaysAlone(s: State, i: nat)
    requires Inv(s) && Alone(s, i) && Enabled(s, Run(i))
    ensures Alone(Next(s, Run(i)), i)
    ensures forall j :: 0 <= j < |s.sessions| && j != i ==> Next(s, Run(i)).sessions[j] == s.sessions[j]
    ensures |Next(s, Run(i)).sessions| == |s.sessions| && Next(s, Run(i)).pool == s.pool
  {
    assert ConnectionsInUse(s.sessions) <= s.pool;
    hide Inv, Idle, CommitWorld, ConnectionsInUse;
    var x' := Next(s, Run(i)).sessions[i];
    ConnectionsAfterUpdate(s.sessions, i, x');
  }

  lemma StaysOnItsWay(w0: World, s: State, i: nat, v: Verdict)
    requires OnItsWay(w0, s, i, v) && !s.sessions[i].pc.Done?
    ensures Enabled(s, Run(i)) && OnItsWay(w0, Next(s, Run(i)), i, v)
    ensures Weight(Next(s, Run(i)).sessions[i]) < Weight(s.sessions[i])
  {
    var x := s.sessions[i];
    assert SessionOk(s.world, i, x) && WorldOk(s.world);
    AloneIsEnabled(s, i);
    NextKeepsInv(s, Run(i));
    AloneStaysAlone(s, i);
    hide Inv, Alone, Enabled, SessionOk, WorldOk;
    if x.pc.Committing? {
      HeadingCommit(w0, s.world, i, x, v);
    } else {
      HeadingStep(w0, s.world, i, x, v);
      StepLosesWeight(s.world, i, x);
    }
  }

  /** t is s after session i has run to its end and nothing else has happened. */
  ghost predicate RanAlone(s: State, t: State, i: nat) {
    && i < |s.sessions| && |t.sessions| == |s.sessions| && t.pool == s.pool
    && t.sessions[i].call == s.sessions[i].call && t.sessions[i].start == s.sessions[i].start && t.sessions[i].pc.Done?
    && forall j :: 0 <= j < |s.sessions| && j != i ==> t.sessions[j] == s.sessions[j]
  }

  /** s' is s after one step of session i. */
  ghost predicate SteppedAlone(s: State, s': State, i: nat)
    requires i < |s.sessions|
  {
    && Enabled(s, Run(i)) && s' == Next(s, Run(i))
    && |s'.sessions| == |s.sessions| && s'.pool == s.pool
    && s'.sessions[i].call == s.sessions[i].call && s'.sessions[i].start == s.sessions[i].start
    && Weight(s'.sessions[i]) < Weight(s.sessions[i])
    && forall j :: 0 <= j < |s.sessions| && j != i ==> s'.sessions[j] == s.sessions[j]
  }

  lemma StepAlone(w0: World, s: State, i: nat, v: Verdict)
    requires OnItsWay(w0, s, i, v) && !s.sessions[i].pc.Done?
    ensures SteppedAlone(s, Next(s, Run(i)), i) && OnItsWay(w0, Next(s, Run(i)), i, v)
  {
    StaysOnItsWay(w0, s, i, v);
    AloneStaysAlone(s, i);
    CallStays(s, i);
    hide Next, Enabled, Weight, Inv, Answered, Heading;
  }

  /** The execution runs session i, and nothing else, to its answer. */
  ghost predicate AnswersAlone(w0: World, i: nat, v: Verdict, states: seq<State>, actions: seq<Action>) {
    && Executes(states, actions)
    && (forall a :: a in actions ==> a == Run(i))
    && OnItsWay(w0, states[|actions|], i, v)
    && RanAlone(states[0], states[|actions|], i)
  }

  lemma ExtendAlone(w0: World, s: State, i: nat, v: Verdict, states: seq<State>, actions: seq<Action>)
    requires i < |s.sessions| && AnswersAlone(w0, i, v, states, actions) && SteppedAlone(s, states[0], i)
    ensures AnswersAlone(w0, i, v, [s] + states, [Run(i)] + actions)
  {
    PrependStep(s, Run(i), states, actions);
    StillRanAlone(s, states[0], states[|actions|], i);
    hide StepsAt, OnItsWay, RanAlone, SteppedAlone, Executes;
  }

  lemma {:induction false} FinishAlone(w0: World, s: State, i: nat, v: Verdict)
    returns (states: seq<State>, actions: seq<Action>)
    requires OnItsWay(w0, s, i, v)
    ensures states != [] && states[0] == s && AnswersAlone(w0, i, v, states, actions)
    decreases Weight(s.sessions[i])
  {
    assert i < |s.sessions|;
    hide OnItsWay, Next, Enabled, Weight, StepsAt;
    if s.sessions[i].pc.Done? {
      states, actions := [s], [];
    } else {
      hide AnswersAlone;
      StepAlone(w0, s, i, v);
      states, actions := FinishAlone(w0, Next(s, Run(i)), i, v);
      ExtendAlone(w0, s, i, v, states, actions);
      states, actions := [s] + states, [Run(i)] + actions;
    }
  }

  lemma StillRanAlone(s: State, s': State, t: State, i: nat)
    requires i < |s.sessions| && SteppedAlone(s, s', i) && RanAlone(s', t, i)
    ensures RanAlone(s, t, i)
  {
  }

  lemma CallStays(s: State, i: nat)
    requires Enabled(s, Run(i))
    ensures Next(s, Run(i)).sessions[i].call == s.sessions[i].call
    ensures Next(s, Run(i)).sessions[i].start == s.sessions[i].start
  {
  }

  lemma {:induction false} QuietUsesNoConnections(sessions: seq<Session>)
    requires forall i :: 0 <= i < |sessions| ==> sessions[i].pc.Done?
    ensures ConnectionsInUse(sessions) == 0
  {
    if |sessions| > 0 { QuietUsesNoConnections(sessions[..|sessions| - 1]); }
  }

  lemma QuietIsIdle(s: State, i: nat)
    requires Inv(s) && i < |s.sessions| && s.sessions[i].pc.Done?
    ensures Idle(s.sessions[i])
  {
    assert SessionOk(s.world, i, s.sessions[i]);
  }

  function VerdictOf(db: Tables, call: Call): Verdict {
    if call.Move? then Decide(db, call.cmd) else Execute
  }

  /** A call on a quiet system, with no database failure, can run to its end, and its answer and
      its effect are those of the atomic decision on the tables it found. */
  lemma CallAloneIsAtomic(s: State, call: Call) returns (states: seq<State>, actions: seq<Action>)
    requires Inv(s) && AllDone(s) && s.pool >= 1 && ValidCall(call)
    ensures Executes(states, actions) && states[0] == s
    ensures forall a :: a in actions ==> !a.Fail?
    ensures var t, i := states[|actions|], |s.sessions|;
            && Inv(t) && AllDone(t) && t.pool == s.pool && |t.sessions| == i + 1
            && t.sessions[..i] == s.sessions && t.sessions[i].call == call
            && Answered(s.world, t.world, i, call, VerdictOf(s.world.db, call), t.sessions[i].pc.outcome)
  {
    var s1, v := Next(s, Invoke(call)), VerdictOf(s.world.db, call);
    NewCallOnItsWay(s, call);
    hide Inv, Next, Enabled, StepsAt, OnItsWay, Answered;
    states, actions := FinishAlone(s.world, s1, |s.sessions|, v);
    AnsweredAlone(s, s1, states[|actions|], call, v);
    PrependStep(s, Invoke(call), states, actions);
    states, actions := [s] + states, [Invoke(call)] + actions;
  }

  lemma NewCallOnItsWay(s: State, call: Call)
    requires Inv(s) && AllDone(s) && s.pool >= 1 && ValidCall(call)
    ensures Enabled(s, Invoke(call))
    ensures OnItsWay(s.world, Next(s, Invoke(call)), |s.sessions|, VerdictOf(s.world.db, call))
    ensures var s1 := Next(s, Invoke(call));
            s1.sessions == s.sessions + [NewSession(call, |s.world.log|)] && s1.pool == s.pool
  {
    NextKeepsInv(s, Invoke(call));
    var s1 := Next(s, Invoke(call));
    assert s1.sessions[..|s.sessions|] == s.sessions;
    hide Inv;
    QuietUsesNoConnections(s.sessions);
    OthersIdle(s, s1, |s.sessions|);
  }

  lemma AnsweredAlone(s: State, s1: State, t: State, call: Call, v: Verdict)
    requires AllDone(s) && s1.sessions == s.sessions + [NewSession(call, |s.world.log|)]
    requires OnItsWay(s.world, t, |s.sessions|, v) && RanAlone(s1, t, |s.sessions|)
    ensures Inv(t) && AllDone(t) && |t.sessions| == |s.sessions| + 1 && t.sessions[..|s.sessions|] == s.sessions
    ensures t.sessions[|s.sessions|].call == call && t.pool == s1.pool
    ensures Answered(s.world, t.world, |s.sessions|, call, v, t.sessions[|s.sessions|].pc.outcome)
  {
    hide Inv, Answered, Heading, Alone;
    assert forall j :: 0 <= j < |s.sessions| ==> t.sessions[j] == s1.sessions[j];
  }

  // ----- the overlapping retry -----

  /** What refuses the second execution of a command that can be executed once. */
  function SecondRefusal(db: Tables, cmd: Cmd): Verdict {
    if BalanceIn(db.accounts, cmd.source) < 2 * cmd.amount then Insufficient else TooLarge
  }

  lemma Concatenate(states: seq<State>, actions: seq<Action>, states': seq<State>, actions': seq<Action>)
    requires Executes(states, actions) && Executes(states', actions') && states[|actions|] == states'[0]
    ensures Executes(states[..|actions|] + states', actions + actions')
    ensures (states[..|actions|] + states')[0] == states[0]
  {
    hide Next, Enabled;
    var all, acts := states[..|actions|] + states', actions + actions';
    forall k | 0 <= k < |acts| ensures StepsAt(all, acts, k) {
      if k < |actions| {
        assert StepsAt(states, actions, k);
      } else {
        assert StepsAt(states', actions', k - |actions|);
      }
    }
  }

  /** A new call looks its key up in vain while nobody else holds anything. */
  lemma LookupInVain(s: State, i: nat, cmd: Cmd) returns (s1: State, s2: State)
    requires Inv(s) && Alone(s, i) && cmd.key.Some? && KeyFree(s.world.db, cmd.key)
    requires s.sessions[i] == NewSession(Move(cmd), |s.world.log|)
    ensures Enabled(s, Run(i)) && s1 == Next(s, Run(i)) && Enabled(s1, Run(i)) && s2 == Next(s1, Run(i))
    ensures Inv(s2) && s2 == s.(sessions := s.sessions[i := s.sessions[i].(pc := Snapshot)])
    ensures ConnectionsInUse(s2.sessions) == ConnectionsInUse(s.sessions) + 1
  {
    hide Inv;
    AloneIsEnabled(s, i);
    s1 := Next(s, Run(i));
    NextKeepsInv(s, Run(i));
    AloneStaysAlone(s, i);
    AloneIsEnabled(s1, i);
    s2 := Next(s1, Run(i));
    NextKeepsInv(s1, Run(i));
    ConnectionsAfterUpdate(s.sessions, i, s2.sessions[i]);
    assert s2.sessions == s.sessions[i := s.sessions[i].(pc := Snapshot)];
    assert s.world.(ids := s.world.ids) == s.world;
  }

  lemma InvokeTwice(s: State, cmd: Cmd) returns (s1: State, s2: State)
    requires Inv(s) && AllDone(s) && s.pool >= 2 && ValidCmd(cmd)
    ensures Enabled(s, Invoke(Move(cmd))) && s1 == Next(s, Invoke(Move(cmd)))
    ensures Enabled(s1, Invoke(Move(cmd))) && s2 == Next(s1, Invoke(Move(cmd)))
    ensures var i, x := |s.sessions|, NewSession(Move(cmd), |s.world.log|);
            && Inv(s2) && s2 == s.(sessions := s.sessions + [x, x])
            && Alone(s2, i) && ConnectionsInUse(s2.sessions) == 0
  {
    var invoke, x := Invoke(Move(cmd)), NewSession(Move(cmd), |s.world.log|);
    QuietUsesNoConnections(s.sessions);
    s1 := Next(s, invoke);
    s2 := Next(s1, invoke);
    assert s1.sessions[..|s.sessions|] == s.sessions && s2.sessions[..|s1.sessions|] == s1.sessions;
    assert s2.sessions == s.sessions + [x, x];
    NextKeepsInv(s, invoke);
    NextKeepsInv(s1, invoke);
    forall j | 0 <= j < |s2.sessions| ensures Idle(s2.sessions[j]) {
      if j < |s.sessions| { QuietIsIdle(s, j); }
    }
  }

  /** Two calls with the same command, the first of which has looked its key up in vain. */
  lemma TwoOverlap(s: State, cmd: Cmd) returns (states: seq<State>, actions: seq<Action>)
    requires Inv(s) && AllDone(s) && s.pool >= 2 && ValidCmd(cmd) && cmd.key.Some? && KeyFree(s.world.db, cmd.key)
    ensures Executes(states, actions) && states[0] == s
    ensures forall a :: a in actions ==> RaceAction(a, cmd)
    ensures Inv(states[|actions|]) && Overlapping(s, states[|actions|], cmd)
  {
    hide Inv, Next, Enabled, Alone;
    var s1, s2 := InvokeTwice(s, cmd);
    var i, invoke, x := |s.sessions|, Invoke(Move(cmd)), NewSession(Move(cmd), |s.world.log|);
    var s3, s4 := LookupInVain(s2, i, cmd);
    states, actions := [s, s1, s2, s3, s4], [invoke, invoke, Run(i), Run(i)];
    assert s4.sessions == s.sessions + [x.(pc := Snapshot), x];
    assert StepsAt(states, actions, 0) && StepsAt(states, actions, 1);
    assert StepsAt(states, actions, 2) && StepsAt(states, actions, 3);
  }

  ghost predicate Overlapping(s: State, t: State, cmd: Cmd) {
    var x := NewSession(Move(cmd), |s.world.log|);
    && t == s.(sessions := s.sessions + [x.(pc := Snapshot), x])
    && ConnectionsInUse(t.sessions) == 1
  }

  /** The three stretches of the refused retry: both calls start and the first looks its key up;
      the second runs to its end; the first goes on. */
  lemma RefusedRetryStretches(s: State, cmd: Cmd)
    returns (states: seq<State>, actions: seq<Action>, states1: seq<State>, actions1: seq<Action>,
             states2: seq<State>, actions2: seq<Action>)
    requires Inv(s) && AllDone(s) && s.pool >= 2 && ValidCmd(cmd) && cmd.key.Some?
    requires Decide(s.world.db, cmd) == Execute && !CoversTwice(s.world.db, cmd)
    ensures Executes(states, actions) && Executes(states1, actions1) && Executes(states2, actions2)
    ensures states[0] == s && states[|actions|] == states1[0] && states1[|actions1|] == states2[0]
    ensures forall a :: a in actions || a in actions1 || a in actions2 ==> RaceAction(a, cmd)
    ensures RetryRefused(s, states2[|actions2|], cmd)
  {
    var i := |s.sessions|;
    states, actions := TwoOverlap(s, cmd);
    var s1 := states[|actions|];
    WinnerOnItsWay(s, s1, cmd);
    hide Inv, StepsAt, Answered, Heading, Alone, Next, Enabled;
    states1, actions1 := FinishAlone(s.world, s1, i + 1, Execute);
    var s2 := states1[|actions1|];
    LoserOnItsWay(s, s1, s2, cmd);
    states2, actions2 := FinishAlone(s2.world, s2, i, SecondRefusal(s.world.db, cmd));
    LoserRefused(s, s1, s2, states2[|actions2|], cmd);
    hide *;
  }

  lemma LoserRefused(s: State, s1: State, s2: State, t: State, cmd: Cmd)
    requires AllDone(s) && ValidCmd(cmd) && Overlapping(s, s1, cmd)
    requires RanAlone(s1, s2, |s.sessions| + 1) && RanAlone(s2, t, |s.sessions|)
    requires OnItsWay(s2.world, t, |s.sessions|, SecondRefusal(s.world.db, cmd))
    requires NeverRefused(s.world, s2.world, cmd) && s2.sessions[|s.sessions| + 1].pc.outcome.Returned?
    ensures RetryRefused(s, t, cmd)
  {
    hide Inv, Alone, Heading;
    var i := |s.sessions|;
    assert t.sessions[i].pc.Done? && t.sessions[i].call == Move(cmd);
    forall j | 0 <= j < |t.sessions| ensures t.sessions[j].pc.Done? {
      if j < i { assert s1.sessions[j] == s.sessions[j]; }
    }
  }

  /** t is s after two more calls with the command: the second was executed, the first was
      refused, and the atomic decision never was to refuse. */
  ghost predicate RetryRefused(s: State, t: State, cmd: Cmd) {
    var i := |s.sessions|;
    && |t.sessions| == i + 2
    && t.sessions[i].call == t.sessions[i + 1].call == Move(cmd)
    && AllDone(t)
    && t.sessions[i].pc == Done(Failed(VerdictError(SecondRefusal(s.world.db, cmd))))
    && t.sessions[i].start == |s.world.log|
    && t.sessions[i + 1].pc.Done? && t.sessions[i + 1].pc.outcome.Returned?
    && NeverRefused(s.world, t.world, cmd)
  }

  /** The trap: from any quiet state that admits the command once but not twice, there is a run
      without any failure in which two calls share key and parameters, one is executed, and the
      other is refused. */
  lemma RetryCanBeRefused(s: State, cmd: Cmd) returns (states: seq<State>, actions: seq<Action>)
    requires Inv(s) && AllDone(s) && s.pool >= 2 && ValidCmd(cmd) && cmd.key.Some?
    requires Decide(s.world.db, cmd) == Execute && !CoversTwice(s.world.db, cmd)
    ensures Executes(states, actions) && states[0] == s
    ensures forall a :: a in actions ==> RaceAction(a, cmd)
    ensures RetryRefused(s, states[|actions|], cmd)
  {
    hide RetryRefused, Inv, StepsAt;
    var states0, actions0, states1, actions1, states2, actions2 := RefusedRetryStretches(s, cmd);
    Concatenate(states0, actions0, states1, actions1);
    states, actions := states0[..|actions0|] + states1, actions0 + actions1;
    Concatenate(states, actions, states2, actions2);
    states, actions := states[..|actions|] + states2, actions + actions2;
  }

  /** Since the first of two quiet states, the atomic decision on the command was first to
      execute it and then to replay it, and at no moment to refuse it. */
  ghost predicate NeverRefused(w: World, t: World, cmd: Cmd) {
    && |t.past| == |t.log| + 1 == |w.log| + 2 && w.past <= t.past
    && Decide(t.past[|w.log|], cmd) == Execute
    && Decide(t.past[|w.log| + 1], cmd).Replayed?
  }

  lemma OthersIdle(s: State, t: State, i: nat)
    requires Inv(s) && AllDone(s) && |s.sessions| <= |t.sessions|
    requires forall j :: 0 <= j < |s.sessions| ==> t.sessions[j] == s.sessions[j]
    requires forall j :: |s.sessions| <= j < |t.sessions| && j != i ==> Idle(t.sessions[j])
    ensures forall j :: 0 <= j < |t.sessions| && j != i ==> Idle(t.sessions[j])
  {
    forall j | 0 <= j < |t.sessions| && j != i ensures Idle(t.sessions[j]) {
      if j < |s.sessions| { QuietIsIdle(s, j); }
    }
  }

  lemma WinnerOnItsWay(s: State, s1: State, cmd: Cmd)
    requires Inv(s) && AllDone(s) && s.pool >= 2 && Inv(s1) && Overlapping(s, s1, cmd)
    ensures OnItsWay(s.world, s1, |s.sessions| + 1, Decide(s.world.db, cmd))
  {
    hide Inv;
    OthersIdle(s, s1, |s.sessions| + 1);
  }

  /** After the winner's commit the loser, whose lookup is behind it, heads for its refusal. */
  lemma LoserOnItsWay(s: State, s1: State, s2: State, cmd: Cmd)
    requires Inv(s) && AllDone(s) && ValidCmd(cmd) && cmd.key.Some? && Overlapping(s, s1, cmd)
    requires Decide(s.world.db, cmd) == Execute && !CoversTwice(s.world.db, cmd)
    requires RanAlone(s1, s2, |s.sessions| + 1) && OnItsWay(s.world, s2, |s.sessions| + 1, Execute)
    ensures OnItsWay(s2.world, s2, |s.sessions|, SecondRefusal(s.world.db, cmd))
    ensures NeverRefused(s.world, s2.world, cmd)
    ensures s2.sessions[|s.sessions| + 1].pc.outcome.Returned?
  {
    var i := |s.sessions|;
    LoserIsAlone(s, s1, s2, cmd);
    assert WorldOk(s.world) && Inv(s2) && s2.sessions[i] == s1.sessions[i];
    var out := s2.sessions[i + 1].pc.outcome;
    assert Answered(s.world, s2.world, i + 1, Move(cmd), Execute, out);
    hide Inv, Alone, RanAlone, Answered, OnItsWay;
    WinnerHasPublished(s.world, s2.world, i + 1, cmd, out);
    SnapshotOnItsWay(s2, i, cmd, SecondRefusal(s.world.db, cmd));
  }

  lemma LoserIsAlone(s: State, s1: State, s2: State, cmd: Cmd)
    requires Inv(s) && AllDone(s) && Overlapping(s, s1, cmd)
    requires RanAlone(s1, s2, |s.sessions| + 1) && Inv(s2)
    ensures Alone(s2, |s.sessions|)
  {
    hide Inv;
    QuietIsIdle(s2, |s.sessions| + 1);
    OthersIdle(s, s2, |s.sessions|);
  }

  lemma SnapshotOnItsWay(s: State, i: nat, cmd: Cmd, v: Verdict)
    requires Inv(s) && Alone(s, i) && s.sessions[i].call == Move(cmd) && s.sessions[i].pc.Snapshot?
    requires DecideFunds(s.world.db, cmd) == v && Refuses(v)
    ensures OnItsWay(s.world, s, i, v)
  {
  }

  lemma WinnerHasPublished(w: World, t: World, i: nat, cmd: Cmd, out: Outcome)
    requires WorldOk(w) && ValidCmd(cmd) && cmd.key.Some?
    requires Decide(w.db, cmd) == Execute && !CoversTwice(w.db, cmd)
    requires Answered(w, t, i, Move(cmd), Execute, out)
    ensures NeverRefused(w, t, cmd) && DecideFunds(t.db, cmd) == SecondRefusal(w.db, cmd) && out.Returned?
  {
  }

  /** From the empty database, two accounts are opened, the first with just enough for cmd. */
  lemma TwoAccountsRun(cmd: Cmd) returns (states: seq<State>, actions: seq<Action>)
    requires cmd == Cmd(1, 2, 100, Some(7))
    ensures IsRun(states, actions)
    ensures forall a :: a in actions ==> !a.Fail?
    ensures var s := states[|actions|];
            && Inv(s) && AllDone(s) && s.pool == 2
            && Decide(s.world.db, cmd) == Execute && s.world.db.accounts[cmd.source].balance == 100
  {
    var s0 := State(2, NEW_WORLD, []);
    InitialInv(s0);
    states, actions := CallAloneIsAtomic(s0, Open(1, 100));
    var s1 := states[|actions|];
    var states1, actions1 := CallAloneIsAtomic(s1, Open(2, 0));
    TwoAccounts(s0.world, s1.world, states1[|actions1|].world, cmd);
    hide Inv, StepsAt, Answered, Decide;
    Concatenate(states, actions, states1, actions1);
    states, actions := states[..|actions|] + states1, actions + actions1;
  }

  /** Such a run exists from the empty database: the refusal is not the atomic decision of any
      moment between invocation and return, so keyed calls that overlap are not linearizable. */
  lemma RefusedRetryRun() returns (states: seq<State>, actions: seq<Action>, k: nat, cmd: Cmd)
    ensures IsRun(states, actions) && k <= |actions|
    ensures forall a :: a in actions ==> !a.Fail?
    ensures RetryRefused(states[k], states[|actions|], cmd)
    ensures states[|actions|].sessions[|states[k].sessions|].pc == Done(Failed(Sentinel(InsufficientFunds)))
  {
    cmd := Cmd(1, 2, 100, Some(7));
    states, actions := TwoAccountsRun(cmd);
    k := |actions|;
    var states1, actions1 := RetryCanBeRefused(states[k], cmd);
    hide Inv, StepsAt, Decide;
    Concatenate(states, actions, states1, actions1);
    states, actions := states[..k] + states1, actions + actions1;
  }

  lemma InitialInv(s: State)
    requires Initial(s)
    ensures Inv(s) && AllDone(s)
  {
  }

  lemma TwoAccounts(w0: World, w1: World, w2: World, cmd: Cmd)
    requires w0 == NEW_WORLD && cmd == Cmd(1, 2, 100, Some(7))
    requires exists e: Event :: e.Opened? && e.account == 1 && e.balance == 100 && Published(w0, w1, e)
    requires exists e: Event :: e.Opened? && e.account == 2 && e.balance == 0 && Published(w1, w2, e)
    ensures Decide(w2.db, cmd) == Execute && w2.db.accounts[cmd.source].balance == 100
  {
  }
}
