/** What can be observed of one turn: its final status, the idle thread, and then its terminal event. */
module TurnStories {
  import opened Prelude
  import opened Domain
  import opened TurnRuntime

  /** What was observed of one turn, in order. */
  function Story(seen: seq<Observation>, u: TurnId): seq<Observation> {
    if seen == [] then []
    else
      var last := seen[|seen| - 1];
      Story(seen[..|seen| - 1], u) + (if last.turn == u then [last] else [])
  }

  lemma StoryGrows(seen: seq<Observation>, o: Observation, u: TurnId)
    ensures Story(seen + [o], u) == Story(seen, u) + (if o.turn == u then [o] else [])
  {
    assert (seen + [o])[..|seen|] == seen;
  }

  lemma StoryWith(seen: seq<Observation>, told: seq<Observation>, about: TurnId, u: TurnId)
    requires |told| <= 1 && forall o | o in told :: o.turn == about
    ensures Story(seen + told, u) == Story(seen, u) + (if u == about then told else [])
  {
    if told == [] {
      assert seen + told == seen;
    } else {
      assert told == [told[0]];
      StoryGrows(seen, told[0], u);
    }
  }

  lemma {:induction false} StoryHas(seen: seq<Observation>, o: Observation)
    ensures o in seen <==> o in Story(seen, o.turn)
    decreases |seen|
  {
    if seen != [] {
      var n := |seen| - 1;
      StoryHas(seen[..n], o);
      assert seen == seen[..n] + [seen[n]];
    }
  }

  // ---------------------------------------------------------------------------------------------
  // The executor that won a turn has told just this much of it

  function OfEnding(u: TurnId, ending: Ending): seq<Observation> {
    if ending.Unwritten? then [] else [TurnEnded(u, ending.status)]
  }

  function OfRest(u: TurnId, rested: bool): seq<Observation> { if rested then [ThreadIdled(u)] else [] }

  function WholeStory(u: TurnId, status: TurnStatus): seq<Observation> {
    [TurnEnded(u, status), ThreadIdled(u), TerminalEvent(u, status)]
  }

  function StoryOf(x: Executor): seq<Observation> {
    match x
    case Working(_, _) => []
    case Finished(u, _, ending) => OfEnding(u, ending)
    case Idled(u, _, ending, rested) => OfEnding(u, ending) + OfRest(u, rested)
    case Released(u, ending, rested) => OfEnding(u, ending) + OfRest(u, rested)
    case Told(u, status) => WholeStory(u, status)
    case Outraced(_) => []
  }

  /** The status the turn has in the store. */
  function StatusOf(x: Executor): TurnStatus
    requires !x.Outraced?
  {
    match x
    case Working(_, _) => TurnRunning
    case Finished(_, _, ending) => if ending.Unwritten? then TurnRunning else ending.status
    case Idled(_, _, ending, _) => if ending.Unwritten? then TurnRunning else ending.status
    case Released(_, ending, _) => if ending.Unwritten? then TurnRunning else ending.status
    case Told(_, status) => status
  }

  /** What is written as a final status is one. */
  predicate Final(x: Executor) {
    match x
    case Working(_, _) => true
    case Finished(_, _, ending) => ending.Unwritten? || !ending.status.Unfinished()
    case Idled(_, _, ending, _) => ending.Unwritten? || !ending.status.Unfinished()
    case Released(_, ending, _) => ending.Unwritten? || !ending.status.Unfinished()
    case Told(_, status) => !status.Unfinished()
    case Outraced(_) => false
  }

  predicate StoryOk(w: World, u: TurnId) {
    && (u in w.winner ==>
      && w.winner[u] in w.executors && w.executors[w.winner[u]].turn == u
      && Final(w.executors[w.winner[u]])
      && Story(w.seen, u) == StoryOf(w.executors[w.winner[u]])
      && u in w.turns && w.turns[u].status == StatusOf(w.executors[w.winner[u]]))
    && (u !in w.winner ==> Story(w.seen, u) == [])
  }

  /** Whoever works on a turn has won it. */
  predicate WinnerOk(w: World, e: nat)
    requires e in w.executors
  {
    var x := w.executors[e];
    !x.Outraced? ==> x.turn in w.winner && w.winner[x.turn] == e
  }

  ghost predicate StoriesOk(w: World) {
    && (forall u :: StoryOk(w, u))
    && (forall e | e in w.executors :: WinnerOk(w, e))
  }

  lemma NothingToldKeeps(w: World, w': World)
    requires StoriesOk(w)
    requires w'.executors == w.executors && w'.winner == w.winner && w'.seen == w.seen
    requires forall u | u in w.turns :: u in w'.turns && w'.turns[u] == w.turns[u]
    ensures StoriesOk(w')
  {
    forall u
      ensures StoryOk(w', u)
    {
      assert StoryOk(w, u);
    }
    forall e | e in w'.executors
      ensures WinnerOk(w', e)
    {
      assert WinnerOk(w, e);
    }
  }

  /** The claim that wins adds an executor with nothing to tell. */
  lemma WinnerKeepsStories(w: World, w': World, e: nat, u0: TurnId)
    requires StoriesOk(w) && e !in w.executors && w'.seen == w.seen && u0 !in w.winner
    requires e in w'.executors && w'.executors == w.executors[e := w'.executors[e]] && w'.executors[e].turn == u0
    requires w'.executors[e].Working? && w'.winner == w.winner[u0 := e]
    requires u0 in w'.turns && w'.turns[u0].status == TurnRunning
    requires forall u | u in w.turns && u != u0 :: u in w'.turns && w'.turns[u] == w.turns[u]
    ensures StoriesOk(w')
  {
    forall u
      ensures StoryOk(w', u)
    {
      assert StoryOk(w, u);
    }
    forall i | i in w'.executors
      ensures WinnerOk(w', i)
    {
      if i in w.executors {
        assert WinnerOk(w, i);
      }
    }
  }

  lemma ClaimKeepsStories(w: World, e: nat, turn: TurnId)
    requires StoriesOk(w)
    ensures StoriesOk(Claiming(w, e, turn))
  {
    if e !in w.executors {
      assert StoryOk(w, turn);
      if turn in w.turns && w.turns[turn].status == Queued {
        WinnerKeepsStories(w, Claiming(w, e, turn), e, turn);
      } else {
        OutracedKeepsStories(w, e, turn);
      }
    }
  }

  lemma OutracedKeepsStories(w: World, e: nat, turn: TurnId)
    requires StoriesOk(w) && e !in w.executors
    ensures StoriesOk(Advanced(w, e, Outraced(turn)))
  {
    var w' := Advanced(w, e, Outraced(turn));
    forall u
      ensures StoryOk(w', u)
    {
      assert StoryOk(w, u);
    }
    forall i | i in w'.executors
      ensures WinnerOk(w', i)
    {
      if i in w.executors {
        assert WinnerOk(w, i);
      }
    }
  }

  /** A step of an executor that has won its turn, which tells at most one thing about that turn. */
  lemma TellingMore(w: World, w': World, e: nat, told: seq<Observation>)
    requires StoriesOk(w) && e in w.executors && e in w'.executors
    requires var x := w.executors[e]; var x' := w'.executors[e];
      && Final(x) && Final(x') && x'.turn == x.turn
      && w'.executors == w.executors[e := x'] && w'.winner == w.winner
      && |told| <= 1 && w'.seen == w.seen + told && (forall o | o in told :: o.turn == x.turn)
      && StoryOf(x') == StoryOf(x) + told
      && (forall u | u != x.turn && u in w.turns :: u in w'.turns && w'.turns[u] == w.turns[u])
      && x.turn in w'.turns && w'.turns[x.turn].status == StatusOf(x')
    ensures StoriesOk(w')
  {
    var about := w.executors[e].turn;
    assert WinnerOk(w, e);
    forall u
      ensures StoryOk(w', u)
    {
      assert StoryOk(w, u);
      StoryWith(w.seen, told, about, u);
      if u == about {
        assert w'.winner[u] == e;
      } else {
        assert u in w.winner ==> w.winner[u] != e;
      }
    }
    forall i | i in w'.executors
      ensures WinnerOk(w', i)
    {
      assert WinnerOk(w, i);
    }
  }

  lemma FinishKeepsStories(w: World, e: nat, ending: Ending)
    requires StoriesOk(w) && e in w.executors && w.executors[e].Working? && LegalEnding(ending)
    ensures StoriesOk(Finishing(w, e, ending))
  {
    assert WinnerOk(w, e) && StoryOk(w, w.executors[e].turn);
    TellingMore(w, Finishing(w, e, ending), e, OfEnding(w.executors[e].turn, ending));
  }

  lemma GoIdleKeepsStories(w: World, e: nat, written: bool)
    requires StoriesOk(w) && e in w.executors && w.executors[e].Finished?
    ensures StoriesOk(GoingIdle(w, e, written))
  {
    var w' := GoingIdle(w, e, written);
    assert WinnerOk(w, e) && StoryOk(w, w.executors[e].turn);
    TellingMore(w, w', e, OfRest(w.executors[e].turn, w'.executors[e].rested));
  }

  lemma ReleaseKeepsStories(w: World, e: nat)
    requires StoriesOk(w) && e in w.executors && w.executors[e].Idled?
    ensures StoriesOk(Releasing(w, e))
  {
    assert WinnerOk(w, e) && StoryOk(w, w.executors[e].turn);
    TellingMore(w, Releasing(w, e), e, []);
  }

  lemma TellKeepsStories(w: World, e: nat)
    requires StoriesOk(w) && e in w.executors && w.executors[e].Released?
    ensures StoriesOk(Telling(w, e))
  {
    var x := w.executors[e];
    assert WinnerOk(w, e) && StoryOk(w, x.turn);
    if x.ending.Reported? && x.rested {
      TellingMore(w, Telling(w, e), e, [TerminalEvent(x.turn, x.ending.status)]);
    }
  }

  lemma PreparerTellsNothing(w: World, a: Action)
    ensures var w' := PreparerStep(w, a);
      && w'.executors == w.executors && w'.winner == w.winner && w'.seen == w.seen
      && (forall u | u in w.turns :: u in w'.turns && w'.turns[u] == w.turns[u])
  {
  }

  lemma NextKeepsStories(w: World, a: Action)
    requires StoriesOk(w)
    ensures StoriesOk(Next(w, a))
  {
    if a.Claim? {
      ClaimKeepsStories(w, a.e, a.turn);
    } else if a.ByAnExecutor() {
      if Next(w, a) != w {
        ExecutorKeepsStories(w, a);
      }
    } else if a.CreateThread? || a.Archive? {
      NothingToldKeeps(w, ThreadStep(w, a));
    } else {
      PreparerTellsNothing(w, a);
      NothingToldKeeps(w, PreparerStep(w, a));
    }
  }

  lemma ExecutorKeepsStories(w: World, a: Action)
    requires StoriesOk(w) && a.ByAnExecutor() && !a.Claim? && ExecutorStep(w, a) != w
    ensures StoriesOk(ExecutorStep(w, a))
  {
    if a.Finish? {
      FinishKeepsStories(w, a.e, a.ending);
    } else if a.GoIdle? {
      GoIdleKeepsStories(w, a.e, a.written);
    } else if a.Release? {
      ReleaseKeepsStories(w, a.e);
    } else {
      TellKeepsStories(w, a.e);
    }
  }

  lemma {:induction false} RunKeepsStories(w: World, actions: seq<Action>)
    requires StoriesOk(w)
    ensures StoriesOk(Run(w, actions))
    decreases |actions|
  {
    if actions != [] {
      NextKeepsStories(w, actions[0]);
      RunKeepsStories(Next(w, actions[0]), actions[1..]);
    }
  }

  // ---------------------------------------------------------------------------------------------
  // Results

  /** Of all callers racing for a turn one ever works on it. */
  lemma OneExecutorPerTurn(threads: map<ThreadId, ThreadStatus>, turns: map<TurnId, TurnState>,
                           actions: seq<Action>, e: nat, i: nat)
    requires var w := Run(Started(threads, turns), actions);
      && e in w.executors && i in w.executors && !w.executors[e].Outraced? && !w.executors[i].Outraced?
      && w.executors[e].turn == w.executors[i].turn
    ensures e == i
  {
    RunKeepsStories(Started(threads, turns), actions);
    var w := Run(Started(threads, turns), actions);
    assert WinnerOk(w, e) && WinnerOk(w, i);
  }

  /** A part of the whole story, told in its order. */
  predicate PartOfStory(s: seq<Observation>, u: TurnId, status: TurnStatus) {
    || s == []
    || (s == [ThreadIdled(u)] && status == TurnRunning)
    || (!status.Unfinished()
        && (s == [TurnEnded(u, status)] || s == [TurnEnded(u, status), ThreadIdled(u)] || s == WholeStory(u, status)))
  }

  /**
   In every run, what is observed of a turn is its final status, then the idle thread, then one terminal
   event: the event comes only when both writes before it succeeded, and with the status in the store.
   */
  lemma TerminalEventFollowsIdle(threads: map<ThreadId, ThreadStatus>, turns: map<TurnId, TurnState>,
                                 actions: seq<Action>, u: TurnId)
    ensures var w := Run(Started(threads, turns), actions); var story := Story(w.seen, u);
      && (story == [] || (u in w.turns && PartOfStory(story, u, w.turns[u].status)))
      && (forall status | TerminalEvent(u, status) in w.seen ::
            story == WholeStory(u, status) && w.turns[u].status == status)
  {
    RunKeepsStories(Started(threads, turns), actions);
    var w := Run(Started(threads, turns), actions);
    assert StoryOk(w, u);
    forall status | TerminalEvent(u, status) in w.seen
      ensures Story(w.seen, u) == WholeStory(u, status) && u in w.turns && w.turns[u].status == status
    {
      StoryHas(w.seen, TerminalEvent(u, status));
    }
  }
}
