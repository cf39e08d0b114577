/** The writes of turn ownership are mutations of the store, and recovery leads back to where its runs start. */
module TurnStores {
  import opened Prelude
  import opened Domain
  import opened Stores
  import opened StoreOps
  import opened TurnRuntime
  import TurnRecovery

  function ThreadStatuses(s: StoreState): map<ThreadId, ThreadStatus> {
    map t | t in s.threads :: s.threads[t].status
  }

  function TurnStates(s: StoreState): map<TurnId, TurnState> {
    map u | u in s.turns :: TurnState(s.turns[u].threadId, s.turns[u].status)
  }

  /** The machine sees the threads and turns of the store. */
  predicate Shows(w: World, s: StoreState) { w.threads == ThreadStatuses(s) && w.turns == TurnStates(s) }

  /** Whether the store takes the mutation or refuses it, the machine shows what it then holds. */
  predicate Follows(w: World, s: StoreState, outcome: Outcome) {
    Shows(w, if outcome.Ok? then outcome.value else s)
  }

  lemma MovedThread(s: StoreState, t: ThreadId, from: ThreadStatus, to: ThreadStatus, now: Timestamp)
    ensures TransitionThread(s, t, from, to, now).Ok?
      <==> t in s.threads && s.threads[t].status == from && LegalThreadTransition(from, to)
    ensures TransitionThread(s, t, from, to, now).Ok? ==>
      var r := TransitionThread(s, t, from, to, now).value;
      ThreadStatuses(r) == ThreadStatuses(s)[t := to] && TurnStates(r) == TurnStates(s)
  {
  }

  lemma MovedTurnState(s: StoreState, u: TurnId, from: TurnStatus, to: TurnStatus, now: Timestamp)
    ensures TransitionTurn(s, u, from, to, now).Ok?
      <==> u in s.turns && s.turns[u].status == from && LegalTurnTransition(from, to)
    ensures TransitionTurn(s, u, from, to, now).Ok? ==>
      var r := TransitionTurn(s, u, from, to, now).value;
      && ThreadStatuses(r) == ThreadStatuses(s)
      && TurnStates(r) == TurnStates(s)[u := TurnState(s.turns[u].threadId, to)]
  {
  }

  /** Marking a reserved thread is the transition of the store: it goes on exactly if the store takes it. */
  lemma MarkIsTransition(w: World, s: StoreState, p: nat, t: ThreadId, now: Timestamp)
    requires Shows(w, s) && PreparerAt(w, p) == Reserved(t)
    ensures var outcome := TransitionThread(s, t, Idle, Running, now); var w' := Next(w, Mark(p, true));
      && Follows(w', s, outcome)
      && PreparerAt(w', p) == (if outcome.Ok? then Marked(t) else Gone)
  {
    MovedThread(s, t, Idle, Running, now);
  }

  /** The idle write of the clean-up: nothing to do unless the thread is running. */
  function MarkIdle(s: StoreState, t: ThreadId, now: Timestamp): Outcome {
    if t !in s.threads then Err(NotFound(ThreadEntity, t))
    else if s.threads[t].status == Running then TransitionThread(s, t, Running, Idle, now)
    else Ok(s)
  }

  lemma RestIsMarkIdle(w: World, s: StoreState, t: ThreadId, now: Timestamp)
    requires Shows(w, s)
    ensures Follows(Rested(w, t, true), s, MarkIdle(s, t, now))
    ensures t in s.threads ==> MarkIdle(s, t, now).Ok? && !IsRunning(Rested(w, t, true), t)
  {
    MovedThread(s, t, Running, Idle, now);
  }

  /** The clean-ups of a preparer and of an executor both are that write. */
  lemma UnmarkIsMarkIdle(w: World, s: StoreState, p: nat, t: ThreadId, now: Timestamp)
    requires Shows(w, s) && PreparerAt(w, p) == Undoing(t)
    ensures Follows(Next(w, Unmark(p, true)), s, MarkIdle(s, t, now))
  {
    RestIsMarkIdle(w, s, t, now);
  }

  lemma GoIdleIsMarkIdle(w: World, s: StoreState, e: nat, now: Timestamp)
    requires Shows(w, s) && e in w.executors && w.executors[e].Finished?
    ensures Follows(Next(w, GoIdle(e, true)), s, MarkIdle(s, w.executors[e].thread, now))
  {
    RestIsMarkIdle(w, s, w.executors[e].thread, now);
  }

  /** A caller wins the turn exactly if the store takes its transition. */
  lemma ClaimIsTransition(w: World, s: StoreState, e: nat, u: TurnId, now: Timestamp)
    requires Shows(w, s) && e !in w.executors
    ensures var outcome := TransitionTurn(s, u, Queued, TurnRunning, now); var w' := Next(w, Claim(e, u));
      && Follows(w', s, outcome)
      && e in w'.executors
      && w'.executors[e] == (if outcome.Ok? then Working(u, s.turns[u].threadId) else Outraced(u))
  {
    MovedTurnState(s, u, Queued, TurnRunning, now);
  }

  /** The final status of a running turn is always taken, and so is the error text after it. */
  lemma FinishIsTransition(w: World, s: StoreState, e: nat, ending: Ending, now: Timestamp)
    requires Inv(w) && Shows(w, s) && e in w.executors && w.executors[e].Working?
    requires !ending.Unwritten? && LegalEnding(ending)
    ensures var u := w.executors[e].turn;
      var outcome := TransitionTurn(s, u, TurnRunning, ending.status, now);
      outcome.Ok? && Shows(Next(w, Finish(e, ending)), outcome.value)
  {
    var x := w.executors[e];
    assert ThreadOk(w, x.thread);
    MovedTurnState(s, x.turn, TurnRunning, ending.status, now);
  }

  lemma ErrorTextIsTaken(s: StoreState, u: TurnId, error: Option<string>)
    requires TurnsKeyed(s.turns) && TurnsOk(s) && u in s.turns
    ensures var t := s.turns[u].(error := error); UpdateTurn(s, t) == Ok(s.(turns := s.turns[u := t]))
  {
    assert TurnOk(s, s.turns[u]);
  }

  lemma ErrorTextIsInvisible(w: World, s: StoreState, u: TurnId, error: Option<string>)
    requires Shows(w, s) && Consistent(s) && u in s.turns
    ensures var outcome := UpdateTurn(s, s.turns[u].(error := error)); outcome.Ok? && Shows(w, outcome.value)
  {
    ErrorTextIsTaken(s, u, error);
    SameStates(s.turns, u, s.turns[u].(error := error), s);
  }

  lemma SameStates(turns: map<TurnId, Turn>, u: TurnId, t: Turn, s: StoreState)
    requires s.turns == turns && u in turns && t.threadId == turns[u].threadId && t.status == turns[u].status
    ensures TurnStates(s.(turns := turns[u := t])) == TurnStates(s)
    ensures ThreadStatuses(s.(turns := turns[u := t])) == ThreadStatuses(s)
  {
  }

  lemma InsertedInput(s: StoreState, input: Message, turn: Turn, added: seq<Artifact>)
    requires InsertTurnInput(s, input, turn, added).Ok?
    ensures var r := InsertTurnInput(s, input, turn, added).value;
      && turn.id !in s.turns && r.turns == s.turns[turn.id := turn]
      && r.threads == Touched(s.threads, input.threadId, input.createdAt)
  {
  }

  lemma InsertedStates(s: StoreState, r: StoreState, turn: Turn, at: Timestamp, t: ThreadId)
    requires r.turns == s.turns[turn.id := turn] && r.threads == Touched(s.threads, t, at)
    ensures ThreadStatuses(r) == ThreadStatuses(s)
    ensures TurnStates(r) == TurnStates(s)[turn.id := TurnState(turn.threadId, turn.status)]
  {
  }

  lemma EnqueueShows(w: World, s: StoreState, r: StoreState, p: nat, turn: Turn)
    requires Shows(w, s) && PreparerAt(w, p) == Marked(turn.threadId) && turn.id !in s.turns
    requires ThreadStatuses(r) == ThreadStatuses(s)
    requires TurnStates(r) == TurnStates(s)[turn.id := TurnState(turn.threadId, Queued)]
    ensures Shows(Next(w, Enqueue(p, turn.id)), r)
  {
  }

  /** The queued turn of a preparer that has marked its thread. */
  lemma EnqueueIsInsertion(w: World, s: StoreState, p: nat, input: Message, turn: Turn, added: seq<Artifact>)
    requires Shows(w, s) && PreparerAt(w, p) == Marked(turn.threadId) && turn.status == Queued
    requires InsertTurnInput(s, input, turn, added).Ok?
    ensures Shows(Next(w, Enqueue(p, turn.id)), InsertTurnInput(s, input, turn, added).value)
  {
    InsertedInput(s, input, turn, added);
    var r := InsertTurnInput(s, input, turn, added).value;
    InsertedStates(s, r, turn, input.createdAt, input.threadId);
    EnqueueShows(w, s, r, p, turn);
  }

  // ---------------------------------------------------------------------------------------------
  // Crash and restart

  /** The machine after the server has stopped in any state and recovered what the store then held. */
  function Restarted(s: StoreState, now: Timestamp): World {
    var r := TurnRecovery.RecoveredTurns(s, now);
    Started(ThreadStatuses(r), TurnStates(r))
  }

  /**
   Wherever a run stops, recovery leads to a state in which runs start, so all their theorems hold
   again; turns that were given up, like all unfinished ones, have failed by then.
   */
  lemma RestartClosesTheLoop(w: World, s: StoreState, now: Timestamp)
    requires Shows(w, s)
    ensures var r := TurnRecovery.RecoveredTurns(s, now);
      && Recovered(ThreadStatuses(r), TurnStates(r))
      && Inv(Restarted(s, now))
      && (forall u, t | UnfinishedIn(w, u, t) :: Restarted(s, now).turns[u] == TurnState(t, TurnFailed))
  {
    var r := TurnRecovery.RecoveredTurns(s, now);
    StartedInv(ThreadStatuses(r), TurnStates(r));
  }
}
