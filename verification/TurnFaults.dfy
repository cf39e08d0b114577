/** When a thread can get a second unfinished turn: exactly after the final status of one was lost. */
module TurnFaults {
  import opened Prelude
  import opened Domain
  import opened StepMachines
  import opened TurnRuntime

  // ---------------------------------------------------------------------------------------------
  // A thread nobody can prepare a turn for any more

  /** Archived, or left running by a release that followed a failed write. */
  predicate Blocked(w: World, t: ThreadId) {
    t in w.threads && (w.threads[t] == Archived || t in w.unrested)
  }

  predicate NoNewTurn(w: World, w': World, t: ThreadId) {
    forall v | v in w'.turns && w'.turns[v].thread == t :: v in w.turns && w.turns[v].thread == t
  }

  lemma PreparersStayBlocked(w: World, a: Action, t: ThreadId)
    requires Inv(w) && Blocked(w, t)
    ensures Blocked(PreparerStep(w, a), t) && NoNewTurn(w, PreparerStep(w, a), t)
  {
    assert ThreadOk(w, t);
  }

  lemma ExecutorsStayBlocked(w: World, a: Action, t: ThreadId)
    requires Inv(w) && Blocked(w, t)
    ensures Blocked(ExecutorStep(w, a), t) && NoNewTurn(w, ExecutorStep(w, a), t)
  {
    assert ThreadOk(w, t);
    if a.Finish? && a.e in w.executors && w.executors[a.e].Working? {
      assert ThreadOk(w, w.executors[a.e].thread);
    }
  }

  lemma {:induction false} BlockedForGood(w: World, actions: seq<Action>, t: ThreadId)
    requires Inv(w) && Blocked(w, t)
    ensures NoNewTurn(w, Run(w, actions), t)
    decreases |actions|
  {
    if actions != [] {
      var a := actions[0];
      if a.ByAnExecutor() {
        ExecutorsStayBlocked(w, a, t);
      } else if !a.CreateThread? && !a.Archive? {
        PreparersStayBlocked(w, a, t);
      }
      NextKeeps(w, a);
      BlockedForGood(Next(w, a), actions[1..], t);
    }
  }

  /** A turn that was given up is never touched again. */
  lemma AbandonedIsUntouched(w: World, a: Action, u: TurnId)
    requires Inv(w) && u in w.abandoned
    ensures u in Next(w, a).abandoned && u in Next(w, a).turns && Next(w, a).turns[u] == w.turns[u]
  {
    assert ThreadOk(w, w.turns[u].thread);
    assert TurnHolds(w, u);
    if a.Finish? && a.e in w.executors && w.executors[a.e].Working? {
      assert ThreadOk(w, w.executors[a.e].thread);
    }
  }

  lemma {:induction false} AbandonedForGood(w: World, actions: seq<Action>, u: TurnId)
    requires Inv(w) && u in w.abandoned
    ensures UnfinishedIn(Run(w, actions), u, w.turns[u].thread)
    decreases |actions|
  {
    if actions == [] {
      assert ThreadOk(w, w.turns[u].thread);
      assert TurnHolds(w, u);
    } else {
      AbandonedIsUntouched(w, actions[0], u);
      NextKeeps(w, actions[0]);
      AbandonedForGood(Next(w, actions[0]), actions[1..], u);
    }
  }

  // ---------------------------------------------------------------------------------------------
  // An idle thread nobody holds always takes a turn

  function Preparing(p: nat, t: ThreadId, v: TurnId): seq<Action> {
    [Look(p, t), Reserve(p), Mark(p, true), Enqueue(p, v)]
  }

  lemma PreparingMarks(w: World, p: nat, t: ThreadId)
    requires p !in w.preparers && t in w.threads && w.threads[t] == Idle && t !in w.active
    ensures var w' := Next(Next(Next(w, Look(p, t)), Reserve(p)), Mark(p, true));
      PreparerAt(w', p) == Marked(t) && w'.turns == w.turns && w'.executors == w.executors
  {
    var w1 := Next(w, Look(p, t));
    assert w1 == Moved(w, p, Seen(t, Idle));
    var w2 := Next(w1, Reserve(p));
    assert w2 == Taken(w1, p, t);
    assert Next(w2, Mark(p, true)) == WithStatus(Moved(w2, p, Marked(t)), t, Running);
  }

  lemma PreparingQueues(w: World, p: nat, t: ThreadId, v: TurnId)
    requires p !in w.preparers && v !in w.turns && t in w.threads && w.threads[t] == Idle && t !in w.active
    ensures Run(w, Preparing(p, t, v)).turns == w.turns[v := TurnState(t, Queued)]
    ensures Run(w, Preparing(p, t, v)).executors == w.executors
  {
    StepsFour(Next, w, Look(p, t), Reserve(p), Mark(p, true), Enqueue(p, v));
    PreparingMarks(w, p, t);
  }

  lemma {:induction false} Fresh(s: set<nat>) returns (n: nat)
    ensures forall x | x in s :: x < n
    decreases |s|
  {
    if s == {} {
      n := 0;
    } else {
      var x :| x in s;
      var m := Fresh(s - {x});
      n := if x < m then m else x + 1;
      assert forall y | y in s :: y == x || y in s - {x};
    }
  }

  // ---------------------------------------------------------------------------------------------
  // The exact condition

  predicate GetsSecondTurn(w: World, w': World, t: ThreadId, v: TurnId) { v !in w.turns && UnfinishedIn(w', v, t) }

  /** Between a turn that is given up and its release: the thread at that moment. */
  predicate GivingUp(w: World, e: nat, u: TurnId, t: ThreadId) {
    e in w.executors && w.executors[e].Idled? && w.executors[e].ending.Unwritten?
    && w.executors[e].turn == u && w.executors[e].thread == t
  }

  lemma AfterGivingUp(w: World, e: nat, u: TurnId, t: ThreadId)
    requires Inv(w) && GivingUp(w, e, u, t)
    ensures var w' := Next(w, Release(e));
      && Inv(w') && u in w'.abandoned && t !in w'.active && t in w'.threads
      && w'.threads == w.threads && w'.turns == w.turns && w'.turns[u].thread == t
      && (w.threads[t] == Running ==> t in w'.unrested)
  {
    NextKeeps(w, Release(e));
    assert ThreadOk(w, t);
  }

  /**
   A turn that was given up stays unfinished for good, and a later turn can come beside it if and only
   if the thread was made idle: not if that write failed as well, nor if the thread was archived since.
   */
  lemma SecondTurnIffIdle(w: World, e: nat, u: TurnId, t: ThreadId)
    requires Inv(w) && GivingUp(w, e, u, t)
    ensures var w' := Next(w, Release(e));
      && t in w.threads
      && (forall actions :: UnfinishedIn(Run(w', actions), u, t))
      && ((exists actions, v :: GetsSecondTurn(w', Run(w', actions), t, v)) <==> w.threads[t] == Idle)
  {
    AfterGivingUp(w, e, u, t);
    var w' := Next(w, Release(e));
    forall actions
      ensures UnfinishedIn(Run(w', actions), u, t)
    {
      AbandonedForGood(w', actions, u);
    }
    if w.threads[t] == Idle {
      var p := Fresh(w'.preparers.Keys);
      var v := Fresh(w'.turns.Keys);
      PreparingQueues(w', p, t, v);
      assert GetsSecondTurn(w', Run(w', Preparing(p, t, v)), t, v);
    } else {
      forall actions, v
        ensures !GetsSecondTurn(w', Run(w', actions), t, v)
      {
        BlockedForGood(w', actions, t);
      }
    }
  }

  predicate BothUnfinished(w: World, t: ThreadId, u: TurnId, v: TurnId) {
    u != v && UnfinishedIn(w, u, t) && UnfinishedIn(w, v, t)
  }

  /** In a run that gives up on no turn, a thread never has two unfinished turns. */
  lemma NoSecondTurnWithoutGivingUp(threads: map<ThreadId, ThreadStatus>, turns: map<TurnId, TurnState>,
                                    actions: seq<Action>, t: ThreadId, u: TurnId, v: TurnId)
    requires Recovered(threads, turns)
    requires BothUnfinished(Run(Started(threads, turns), actions), t, u, v)
    ensures exists i, x | 0 <= i < |actions| && x in {u, v} :: GivenUpAt(Started(threads, turns), actions, i, x)
  {
    var w0 := Started(threads, turns);
    OneUnfinishedTurnPerThread(threads, turns, actions, t, u, v);
    AbandonedIsGivenUp(w0, actions, u);
    AbandonedIsGivenUp(w0, actions, v);
  }

  // ---------------------------------------------------------------------------------------------
  // Such a run exists

  function Losing(e: nat, u: TurnId): seq<Action> { [Claim(e, u), Finish(e, Unwritten), GoIdle(e, true)] }

  lemma LosingGivesUp(w: World, e: nat, u: TurnId)
    requires Inv(w) && e !in w.executors && u in w.turns && w.turns[u].status == Queued
    ensures var w' := Run(w, Losing(e, u)); var t := w.turns[u].thread;
      GivingUp(w', e, u, t) && t in w'.threads && w'.threads[t] == Idle
  {
    StepsThree(Next, w, Claim(e, u), Finish(e, Unwritten), GoIdle(e, true));
    var t := w.turns[u].thread;
    assert ThreadOk(w, t) && TurnHolds(w, u);
    var w1 := Next(w, Claim(e, u));
    assert w1.executors[e] == Working(u, t) && IsRunning(w1, t);
    var w2 := Next(w1, Finish(e, Unwritten));
    assert w2.executors[e] == Finished(u, t, Unwritten) && IsRunning(w2, t);
  }

  /** From any idle thread nobody holds a run leads to where a turn is about to be given up. */
  lemma TurnIsLost(w: World, t: ThreadId) returns (actions: seq<Action>, e: nat, u: TurnId)
    requires Inv(w) && t in w.threads && w.threads[t] == Idle && t !in w.active
    ensures var w' := Run(w, actions);
      Inv(w') && GivingUp(w', e, u, t) && t in w'.threads && w'.threads[t] == Idle
  {
    var p := Fresh(w.preparers.Keys);
    e := Fresh(w.executors.Keys);
    u := Fresh(w.turns.Keys);
    PreparingQueues(w, p, t, u);
    RunKeeps(w, Preparing(p, t, u));
    LosingGivesUp(Run(w, Preparing(p, t, u)), e, u);
    RunKeeps(Run(w, Preparing(p, t, u)), Losing(e, u));
    actions := Preparing(p, t, u) + Losing(e, u);
    StepsJoin(Next, w, Preparing(p, t, u), Losing(e, u));
  }

  /** In any reachable state, an idle thread nobody holds can still come to have two unfinished turns. */
  lemma SecondTurnHappens(w: World, t: ThreadId)
    requires Inv(w) && t in w.threads && w.threads[t] == Idle && t !in w.active
    ensures exists actions, u, v :: BothUnfinished(Run(w, actions), t, u, v)
  {
    var lost, e, u := TurnIsLost(w, t);
    var w1 := Run(w, lost);
    var w2 := Next(w1, Release(e));
    SecondTurnIffIdle(w1, e, u, t);
    AfterGivingUp(w1, e, u, t);
    var more, v :| GetsSecondTurn(w2, Run(w2, more), t, v);
    StepsExtend(Next, w, lost, Release(e));
    StepsJoin(Next, w, lost + [Release(e)], more);
    assert BothUnfinished(Run(w, lost + [Release(e)] + more), t, u, v);
  }

  /** So it happens in some run right after a start. */
  lemma SecondTurnAfterStart(threads: map<ThreadId, ThreadStatus>, turns: map<TurnId, TurnState>, t: ThreadId)
    requires Recovered(threads, turns) && t in threads && threads[t] == Idle
    ensures exists actions, u, v :: BothUnfinished(Run(Started(threads, turns), actions), t, u, v)
  {
    StartedInv(threads, turns);
    SecondTurnHappens(Started(threads, turns), t);
  }
}
