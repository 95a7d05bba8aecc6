/**
 The converse of the refinement: whatever the atomic specification can do, the step machine can
 do, up to the ids that the sequences hand out.
 */
module Reach {
  import opened Options
  import opened Schema
  import opened Transactions
  import opened Machine
  import opened Invariant
  import opened Progress
  import opened Solo

  /** The same transfer or opening, up to the session and the ids. */
  predicate SameEffect(e: Event, f: Event) {
    match e
    case Moved(_, cmd, _, _, _) => f.Moved? && f.cmd == cmd
    case Opened(_, account, balance, _) => f.Opened? && f.account == account && f.balance == balance
  }

  /** The same rows in the same order, up to their ids. */
  predicate Alike(t: Tables, u: Tables) {
    && t.accounts == u.accounts
    && |t.deposits| == |u.deposits| && |t.transfers| == |u.transfers| && |t.ledger| == |u.ledger|
    && (forall n :: 0 <= n < |t.deposits| ==> t.deposits[n].(id := 0) == u.deposits[n].(id := 0))
    && (forall n :: 0 <= n < |t.transfers| ==> t.transfers[n].(id := 0) == u.transfers[n].(id := 0))
    && (forall n :: 0 <= n < |t.ledger| ==>
          t.ledger[n].(id := 0, transfer := 0) == u.ledger[n].(id := 0, transfer := 0))
  }

  lemma AlikeKeys(t: Tables, u: Tables, key: Option<Key>)
    requires Alike(t, u) && KeyFree(t, key)
    ensures KeyFree(u, key)
  {
  }

  lemma AlikeAfter(t: Tables, u: Tables, e: Event, f: Event)
    requires Alike(t, u) && Legal(t, e) && Legal(u, f) && SameEffect(e, f)
    ensures Alike(Apply(t, e), Apply(u, f))
  {
  }

  function CallOf(e: Event): Call {
    match e
    case Moved(_, cmd, _, _, _) => Move(cmd)
    case Opened(_, account, balance, _) => Open(account, balance)
  }

  /** What is legal on one of two alike databases can be called on the other. */
  lemma AlikeCall(t: Tables, u: Tables, e: Event)
    requires Alike(t, u) && Legal(t, e)
    ensures ValidCall(CallOf(e)) && VerdictOf(u, CallOf(e)) == Execute
    ensures e.Opened? ==> e.account !in u.accounts
  {
    if e.Moved? { AlikeKeys(t, u, e.cmd.key); }
  }

  lemma PublishedAlike(t: Tables, w: World, w': World, e: Event, f: Event)
    requires Alike(t, w.db) && Legal(t, e) && SameEffect(e, f) && Published(w, w', f)
    ensures Alike(Apply(t, e), w'.db)
  {
    AlikeAfter(t, w.db, e, f);
  }

  /** What a call that executes alone adds. */
  lemma EffectOfCall(w: World, w': World, i: nat, t: Tables, e: Event, out: Outcome) returns (f: Event)
    requires Alike(t, w.db) && Legal(t, e) && Answered(w, w', i, CallOf(e), Execute, out)
    ensures SameEffect(e, f) && Published(w, w', f) && Alike(Apply(t, e), w'.db)
  {
    AlikeCall(t, w.db, e);
    f :| SameEffect(e, f) && Published(w, w', f);
    PublishedAlike(t, w, w', e, f);
  }

  lemma IsDone(s: State, i: nat)
    requires AllDone(s) && i < |s.sessions|
    ensures s.sessions[i].pc.Done?
  {
  }

  /** One more call, alone on the quiet system, adds one more effect. */
  lemma OneMoreEffect(s: State, t: Tables, e: Event)
    returns (states: seq<State>, actions: seq<Action>, f: Event)
    requires Inv(s) && AllDone(s) && s.pool >= 1 && Alike(t, s.world.db) && Legal(t, e)
    ensures Executes(states, actions) && states[0] == s && forall a :: a in actions ==> !a.Fail?
    ensures var s' := states[|actions|];
            && Inv(s') && AllDone(s') && s'.pool == s.pool
            && SameEffect(e, f) && Published(s.world, s'.world, f) && Alike(Apply(t, e), s'.world.db)
  {
    hide Inv, StepsAt, AllDone, Alike, Answered, Published, SameEffect;
    AlikeCall(t, s.world.db, e);
    states, actions := CallAloneIsAtomic(s, CallOf(e));
    var s' := states[|actions|];
    IsDone(s', |s.sessions|);
    f := EffectOfCall(s.world, s'.world, |s.sessions|, t, e, s'.sessions[|s.sessions|].pc.outcome);
  }

  /** The world has the history of past and log, up to sessions and ids. */
  ghost predicate HasHistory(w: World, past: seq<Tables>, log: seq<Event>) {
    && |w.log| == |log| && |w.past| == |past| == |log| + 1
    && w.db == w.past[|log|]
    && (forall n :: 0 <= n < |log| ==> SameEffect(log[n], w.log[n]))
    && (forall n :: 0 <= n < |past| ==> Alike(past[n], w.past[n]))
  }

  lemma HistoryGrowsByOne(w: World, w': World, past: seq<Tables>, log: seq<Event>, f: Event)
    requires log != [] && |past| == |log| + 1 && HasHistory(w, past[..|log|], log[..|log| - 1])
    requires SameEffect(log[|log| - 1], f) && Published(w, w', f) && Alike(past[|log|], w'.db)
    ensures HasHistory(w', past, log)
  {
    hide SameEffect, Alike, Legal, Apply;
    var n := |log|;
    assert forall k :: 0 <= k < n ==> past[..n][k] == past[k];
    assert forall k :: 0 <= k < n - 1 ==> log[..n - 1][k] == log[k];
  }

  lemma ShorterRun(past: seq<Tables>, log: seq<Event>)
    requires AtomicRun(past, log) && log != []
    ensures AtomicRun(past[..|log|], log[..|log| - 1])
    ensures Legal(past[|log| - 1], log[|log| - 1]) && past[|log|] == Apply(past[|log| - 1], log[|log| - 1])
  {
  }

  /** Every history of the atomic specification is the committed history of some run without
      database failures: the same transfers and openings in the same order, with the same tables
      after each of them, up to sessions and ids. */
  lemma {:induction false} EveryHistoryIsReached(past: seq<Tables>, log: seq<Event>, pool: nat)
    returns (states: seq<State>, actions: seq<Action>)
    requires AtomicRun(past, log) && pool >= 1
    ensures IsRun(states, actions) && forall a :: a in actions ==> !a.Fail?
    ensures HasHistory(states[|actions|].world, past, log)
    ensures Inv(states[|actions|]) && AllDone(states[|actions|]) && states[|actions|].pool == pool
    decreases |log|
  {
    var n := |log|;
    if n == 0 {
      states, actions := [State(pool, NEW_WORLD, [])], [];
      InitialInv(states[0]);
    } else {
      hide Inv, StepsAt, AllDone, Alike, AtomicRun, Published, SameEffect, HasHistory;
      ShorterRun(past, log);
      states, actions := EveryHistoryIsReached(past[..n], log[..n - 1], pool);
      var s := states[|actions|];
      LatestIsAlike(s.world, past[..n], log[..n - 1]);
      var states', actions', f := OneMoreEffect(s, past[n - 1], log[n - 1]);
      HistoryGrowsByOne(s.world, states'[|actions'|].world, past, log, f);
      Concatenate(states, actions, states', actions');
      states, actions := states[..|actions|] + states', actions + actions';
    }
  }

  lemma LatestIsAlike(w: World, past: seq<Tables>, log: seq<Event>)
    requires HasHistory(w, past, log)
    ensures |past| == |log| + 1 && Alike(past[|log|], w.db)
  {
  }
}
