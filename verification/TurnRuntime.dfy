/**
 Turn ownership as a machine: any number of callers prepare and execute turns at the same time, and
 any write may fail. A set of reserved threads, compare-and-set transitions in the store, and the order
 of the last steps keep one unfinished turn per thread, except for turns whose final status was lost.
 */
module TurnRuntime {
  import opened Prelude
  import opened Domain
  import opened StepMachines

  datatype Preparer =
    | Seen(thread: ThreadId, status: ThreadStatus)
    | Reserved(thread: ThreadId)
    | Marked(thread: ThreadId)
    | Undoing(thread: ThreadId)
    | Unmarked(thread: ThreadId, rested: bool)
    | Gone
  {
    predicate Concerns(t: ThreadId) { !Seen? && !Gone? && thread == t }
  }

  /** The final writes of a turn: its status and, after it, its error text. */
  datatype Ending =
    | Reported(status: TurnStatus)
    | Unreported(status: TurnStatus)
    | Unwritten

  datatype Executor =
    | Working(turn: TurnId, thread: ThreadId)
    | Finished(turn: TurnId, thread: ThreadId, ending: Ending)
    | Idled(turn: TurnId, thread: ThreadId, ending: Ending, rested: bool)
    | Released(turn: TurnId, ending: Ending, rested: bool)
    | Told(turn: TurnId, status: TurnStatus)
    | Outraced(turn: TurnId)
  {
    predicate Concerns(t: ThreadId) { (Working? || Finished? || Idled?) && thread == t }
  }

  datatype TurnState = TurnState(thread: ThreadId, status: TurnStatus)

  /** Who is responsible for a reserved thread. */
  datatype Holder = ByPreparer(p: nat) | ByTurn(turn: TurnId) | ByExecutor(e: nat)

  /** What an outside observer can see, in order. */
  datatype Observation =
    | TurnEnded(turn: TurnId, status: TurnStatus)
    | ThreadIdled(turn: TurnId)
    | TerminalEvent(turn: TurnId, status: TurnStatus)

  /**
   The last five fields are bookkeeping that no step looks at: the holder of each reserved thread, the
   caller that won each turn, the turns released while still running because their final status could
   not be written, the threads released while still marked running, and what could be observed.
   */
  datatype World = World(
    threads: map<ThreadId, ThreadStatus>,
    turns: map<TurnId, TurnState>,
    active: set<ThreadId>,
    preparers: map<nat, Preparer>,
    executors: map<nat, Executor>,
    holder: map<ThreadId, Holder>,
    winner: map<TurnId, nat>,
    abandoned: set<TurnId>,
    unrested: set<ThreadId>,
    seen: seq<Observation>)

  datatype Action =
    | CreateThread(thread: ThreadId)
    | Archive(thread: ThreadId)
    | Look(p: nat, thread: ThreadId)
    | Reserve(p: nat)
    | Mark(p: nat, written: bool)
    | Enqueue(p: nat, turn: TurnId)
    | EnqueueFails(p: nat)
    | Unmark(p: nat, written: bool)
    | LetGo(p: nat)
    | Claim(e: nat, turn: TurnId)
    | Finish(e: nat, ending: Ending)
    | GoIdle(e: nat, written: bool)
    | Release(e: nat)
    | Tell(e: nat)
  {
    predicate ByAnExecutor() { Claim? || Finish? || GoIdle? || Release? || Tell? }
  }

  // ---------------------------------------------------------------------------------------------
  // Steps

  function PreparerAt(w: World, p: nat): Preparer { if p in w.preparers then w.preparers[p] else Gone }

  predicate IsRunning(w: World, t: ThreadId) { t in w.threads && w.threads[t] == Running }

  function Moved(w: World, p: nat, x: Preparer): World { w.(preparers := w.preparers[p := x]) }

  function WithStatus(w: World, t: ThreadId, status: ThreadStatus): World { w.(threads := w.threads[t := status]) }

  function Held(w: World, t: ThreadId, h: Holder): World { w.(holder := w.holder[t := h]) }

  /** The reservation ends; a thread that is still marked running stays so. */
  function Freed(w: World, t: ThreadId): World {
    w.(active := w.active - {t}, holder := w.holder - {t},
       unrested := if IsRunning(w, t) then w.unrested + {t} else w.unrested)
  }

  /** The thread is made idle if it is running and the write succeeds. */
  function Rested(w: World, t: ThreadId, written: bool): World {
    if IsRunning(w, t) && written then WithStatus(w, t, Idle) else w
  }

  function Taken(w: World, p: nat, t: ThreadId): World {
    Held(Moved(w, p, Reserved(t)), t, ByPreparer(p)).(active := w.active + {t})
  }

  /** The reservation looks at the status read earlier and at the set, under one lock. */
  function Reservation(w: World, p: nat): World {
    match PreparerAt(w, p)
    case Seen(t, status) => if status == Running || t in w.active then Moved(w, p, Gone) else Taken(w, p, t)
    case _ => w
  }

  /** Compare-and-set from Idle to Running; when it fails the reservation is given back. */
  function Marking(w: World, p: nat, written: bool): World {
    match PreparerAt(w, p)
    case Reserved(t) =>
      if written && t in w.threads && w.threads[t] == Idle then WithStatus(Moved(w, p, Marked(t)), t, Running)
      else Freed(Moved(w, p, Gone), t)
    case _ => w
  }

  function Enqueueing(w: World, p: nat, turn: TurnId): World {
    match PreparerAt(w, p)
    case Marked(t) =>
      if turn in w.turns then w
      else Held(Moved(w, p, Gone), t, ByTurn(turn)).(turns := w.turns[turn := TurnState(t, Queued)])
    case _ => w
  }

  function PreparerStep(w: World, a: Action): World {
    match a
    case Look(p, t) =>
      if p !in w.preparers && t in w.threads && w.threads[t] != Archived then Moved(w, p, Seen(t, w.threads[t])) else w
    case Reserve(p) => Reservation(w, p)
    case Mark(p, written) => Marking(w, p, written)
    case Enqueue(p, turn) => Enqueueing(w, p, turn)
    case EnqueueFails(p) => if PreparerAt(w, p).Marked? then Moved(w, p, Undoing(w.preparers[p].thread)) else w
    case Unmark(p, written) =>
      if PreparerAt(w, p).Undoing? then
        var t := w.preparers[p].thread;
        var w' := Rested(w, t, written);
        Moved(w', p, Unmarked(t, !IsRunning(w', t)))
      else w
    case LetGo(p) => if PreparerAt(w, p).Unmarked? then Freed(Moved(w, p, Gone), w.preparers[p].thread) else w
    case _ => w
  }

  function Advanced(w: World, e: nat, x: Executor): World { w.(executors := w.executors[e := x]) }

  /** Compare-and-set from Queued to Running: of all callers one wins, the others do nothing more. */
  function Claiming(w: World, e: nat, turn: TurnId): World {
    if e in w.executors then w
    else if turn in w.turns && w.turns[turn].status == Queued then
      var t := w.turns[turn].thread;
      Held(Advanced(w, e, Working(turn, t)), t, ByExecutor(e)).(
        turns := w.turns[turn := TurnState(t, TurnRunning)], winner := w.winner[turn := e])
    else Advanced(w, e, Outraced(turn))
  }

  predicate LegalEnding(ending: Ending) { ending.Unwritten? || LegalTurnTransition(TurnRunning, ending.status) }

  function Finishing(w: World, e: nat, ending: Ending): World
    requires e in w.executors && w.executors[e].Working?
  {
    var x := w.executors[e];
    var w' := Advanced(w, e, Finished(x.turn, x.thread, ending));
    if ending.Unwritten? then w'
    else
      w'.(turns := w.turns[x.turn := TurnState(x.thread, ending.status)],
          seen := w.seen + [TurnEnded(x.turn, ending.status)])
  }

  function GoingIdle(w: World, e: nat, written: bool): World
    requires e in w.executors && w.executors[e].Finished?
  {
    var x := w.executors[e];
    var w' := Rested(w, x.thread, written);
    var rested := !IsRunning(w', x.thread);
    Advanced(w', e, Idled(x.turn, x.thread, x.ending, rested)).(
      seen := if rested then w.seen + [ThreadIdled(x.turn)] else w.seen)
  }

  /** The thread is released whatever failed before. */
  function Releasing(w: World, e: nat): World
    requires e in w.executors && w.executors[e].Idled?
  {
    var x := w.executors[e];
    Freed(Advanced(w, e, Released(x.turn, x.ending, x.rested)), x.thread).(
      abandoned := if x.ending.Unwritten? then w.abandoned + {x.turn} else w.abandoned)
  }

  /** The terminal event is emitted only when all final writes succeeded. */
  function Telling(w: World, e: nat): World
    requires e in w.executors && w.executors[e].Released?
  {
    var x := w.executors[e];
    if x.ending.Reported? && x.rested then
      Advanced(w, e, Told(x.turn, x.ending.status)).(seen := w.seen + [TerminalEvent(x.turn, x.ending.status)])
    else w
  }

  function ExecutorStep(w: World, a: Action): World {
    match a
    case Claim(e, turn) => Claiming(w, e, turn)
    case Finish(e, ending) =>
      if e in w.executors && w.executors[e].Working? && LegalEnding(ending) then Finishing(w, e, ending) else w
    case GoIdle(e, written) => if e in w.executors && w.executors[e].Finished? then GoingIdle(w, e, written) else w
    case Release(e) => if e in w.executors && w.executors[e].Idled? then Releasing(w, e) else w
    case Tell(e) => if e in w.executors && w.executors[e].Released? then Telling(w, e) else w
    case _ => w
  }

  function ThreadStep(w: World, a: Action): World {
    match a
    case CreateThread(t) => if t in w.threads then w else WithStatus(w, t, Idle)
    case Archive(t) => if t in w.threads && w.threads[t] == Idle then WithStatus(w, t, Archived) else w
    case _ => w
  }

  function Next(w: World, a: Action): World {
    if a.ByAnExecutor() then ExecutorStep(w, a)
    else if a.CreateThread? || a.Archive? then ThreadStep(w, a)
    else PreparerStep(w, a)
  }

  function Run(w: World, actions: seq<Action>): World { Steps(Next, w, actions) }

  /** A server that has just recovered: nothing is unfinished, no thread is running, nobody is at work. */
  predicate Recovered(threads: map<ThreadId, ThreadStatus>, turns: map<TurnId, TurnState>) {
    && (forall t | t in threads :: threads[t] != Running)
    && (forall u | u in turns :: !turns[u].status.Unfinished())
  }

  function Started(threads: map<ThreadId, ThreadStatus>, turns: map<TurnId, TurnState>): World {
    World(threads, turns, {}, map[], map[], map[], map[], {}, {}, [])
  }

  // ---------------------------------------------------------------------------------------------
  // Invariant, thread by thread

  predicate Holds(w: World, t: ThreadId, h: Holder) { t in w.holder && w.holder[t] == h }

  /** The turn has the status its executor wrote, or is still running because nothing was written. */
  predicate EndedAs(w: World, u: TurnId, t: ThreadId, ending: Ending) {
    && u in w.turns && u !in w.abandoned
    && (if ending.Unwritten? then w.turns[u] == TurnState(t, TurnRunning)
        else w.turns[u] == TurnState(t, ending.status) && !ending.status.Unfinished())
  }

  predicate PreparerOk(w: World, t: ThreadId, x: Preparer) {
    match x
    case Reserved(t') => t' == t && (IsRunning(w, t) ==> t in w.unrested)
    case Marked(t') => t' == t && IsRunning(w, t) && t !in w.unrested
    case Undoing(t') => t' == t && IsRunning(w, t) && t !in w.unrested
    case Unmarked(t', rested) => t' == t && IsRunning(w, t) == !rested && t !in w.unrested
    case _ => false
  }

  predicate ExecutorOk(w: World, t: ThreadId, x: Executor) {
    && x.Concerns(t) && t in w.threads && t !in w.unrested
    && match x {
         case Working(u, _) => EndedAs(w, u, t, Unwritten) && IsRunning(w, t)
         case Finished(u, _, ending) => EndedAs(w, u, t, ending) && IsRunning(w, t)
         case Idled(u, _, ending, rested) => EndedAs(w, u, t, ending) && IsRunning(w, t) == !rested
         case _ => false
       }
  }

  /** The holder of a thread is at a point where holding it makes sense, and says whether it is running. */
  predicate HolderOk(w: World, t: ThreadId)
    requires t in w.holder
  {
    match w.holder[t]
    case ByPreparer(p) => p in w.preparers && PreparerOk(w, t, w.preparers[p])
    case ByTurn(u) => u in w.turns && w.turns[u] == TurnState(t, Queued) && IsRunning(w, t) && t !in w.unrested
    case ByExecutor(e) => e in w.executors && ExecutorOk(w, t, w.executors[e])
  }

  /** An executor that has not written the final status of this turn. */
  predicate RunsTurn(x: Executor, u: TurnId) {
    match x
    case Working(v, _) => v == u
    case Finished(v, _, ending) => v == u && ending.Unwritten?
    case Idled(v, _, ending, _) => v == u && ending.Unwritten?
    case _ => false
  }

  /** A queued turn holds its thread itself, a running one is abandoned or run by the holder of its thread. */
  predicate TurnHolds(w: World, u: TurnId)
    requires u in w.turns
  {
    var t := w.turns[u].thread;
    && (w.turns[u].status == Queued ==> Holds(w, t, ByTurn(u)))
    && (w.turns[u].status == TurnRunning && u !in w.abandoned ==>
        && t in w.holder && w.holder[t].ByExecutor?
        && w.holder[t].e in w.executors && RunsTurn(w.executors[w.holder[t].e], u))
    && (u in w.abandoned ==> w.turns[u].status == TurnRunning)
  }

  predicate ThreadOk(w: World, t: ThreadId) {
    && (t in w.holder <==> t in w.active)
    && (t in w.holder ==> HolderOk(w, t))
    && (IsRunning(w, t) ==> t in w.holder || t in w.unrested)
    && (t in w.unrested ==> IsRunning(w, t))
    && (forall p | p in w.preparers && w.preparers[p].Concerns(t) :: Holds(w, t, ByPreparer(p)))
    && (forall e | e in w.executors && w.executors[e].Concerns(t) :: Holds(w, t, ByExecutor(e)))
    && (forall u | u in w.turns && w.turns[u].thread == t :: TurnHolds(w, u))
  }

  ghost predicate Inv(w: World) {
    && (forall t :: ThreadOk(w, t))
    && w.abandoned <= w.turns.Keys
  }

  lemma StartedInv(threads: map<ThreadId, ThreadStatus>, turns: map<TurnId, TurnState>)
    requires Recovered(threads, turns)
    ensures Inv(Started(threads, turns))
  {
  }

  /** Nothing that concerns the thread differs between the two worlds. */
  predicate SameFor(w: World, w': World, t: ThreadId) {
    && (t in w.active <==> t in w'.active) && (t in w.unrested <==> t in w'.unrested)
    && (t in w.holder <==> t in w'.holder) && (t in w.holder ==> w'.holder[t] == w.holder[t])
    && IsRunning(w, t) == IsRunning(w', t) && (t in w.threads ==> t in w'.threads)
    && (forall p | p in w.preparers && w.preparers[p].Concerns(t) :: PreparerAt(w', p) == w.preparers[p])
    && (forall p | p in w'.preparers && w'.preparers[p].Concerns(t) :: PreparerAt(w, p) == w'.preparers[p])
    && (forall e | e in w.executors && w.executors[e].Concerns(t) ::
          e in w'.executors && w'.executors[e] == w.executors[e])
    && (forall e | e in w'.executors && w'.executors[e].Concerns(t) ::
          e in w.executors && w'.executors[e] == w.executors[e])
    && (forall u | u in w.turns && w.turns[u].thread == t :: u in w'.turns && SameTurn(w, w', u))
    && (forall u | u in w'.turns && w'.turns[u].thread == t :: u in w.turns && SameTurn(w, w', u))
  }

  predicate SameTurn(w: World, w': World, u: TurnId)
    requires u in w.turns && u in w'.turns
  {
    w'.turns[u] == w.turns[u] && (u in w'.abandoned <==> u in w.abandoned)
  }

  lemma SameForKeeps(w: World, w': World, t: ThreadId)
    requires ThreadOk(w, t) && SameFor(w, w', t)
    ensures ThreadOk(w', t)
  {
  }

  /** A step about one thread: it has to be checked there, everywhere else nothing changes. */
  lemma OneThreadKeeps(w: World, w': World, t0: ThreadId)
    requires Inv(w) && ThreadOk(w', t0) && w'.abandoned <= w'.turns.Keys
    requires forall t | t != t0 :: SameFor(w, w', t)
    ensures Inv(w')
  {
    forall t
      ensures ThreadOk(w', t)
    {
      if t != t0 {
        SameForKeeps(w, w', t);
      }
    }
  }

  /** A step nobody is concerned by. */
  lemma NoThreadKeeps(w: World, w': World)
    requires Inv(w) && w'.abandoned <= w'.turns.Keys
    requires forall t :: SameFor(w, w', t)
    ensures Inv(w')
  {
    forall t
      ensures ThreadOk(w', t)
    {
      SameForKeeps(w, w', t);
    }
  }

  // ---------------------------------------------------------------------------------------------
  // Each step keeps it

  lemma ThreadStepKeeps(w: World, a: Action)
    requires Inv(w) && (a.CreateThread? || a.Archive?)
    ensures Inv(ThreadStep(w, a))
  {
    NoThreadKeeps(w, ThreadStep(w, a));
  }

  lemma LookKeeps(w: World, p: nat, t: ThreadId)
    requires Inv(w)
    ensures Inv(PreparerStep(w, Look(p, t)))
  {
    NoThreadKeeps(w, PreparerStep(w, Look(p, t)));
  }

  lemma TakenKeeps(w: World, p: nat, t: ThreadId)
    requires Inv(w) && PreparerAt(w, p).Seen? && t !in w.active
    ensures Inv(Taken(w, p, t))
  {
    assert ThreadOk(w, t);
    TakenElsewhere(w, p, t);
    OneThreadKeeps(w, Taken(w, p, t), t);
  }

  lemma TakenElsewhere(w: World, p: nat, t: ThreadId)
    requires PreparerAt(w, p).Seen?
    ensures forall t' | t' != t :: SameFor(w, Taken(w, p, t), t')
  {
  }

  lemma RefusedKeeps(w: World, p: nat)
    requires Inv(w) && PreparerAt(w, p).Seen?
    ensures Inv(Moved(w, p, Gone))
  {
    NoThreadKeeps(w, Moved(w, p, Gone));
  }

  lemma ReserveKeeps(w: World, p: nat)
    requires Inv(w)
    ensures Inv(Reservation(w, p))
  {
    var x := PreparerAt(w, p);
    if x.Seen? {
      if x.status == Running || x.thread in w.active {
        RefusedKeeps(w, p);
      } else {
        TakenKeeps(w, p, x.thread);
      }
    }
  }

  lemma MarkKeeps(w: World, p: nat, written: bool)
    requires Inv(w)
    ensures Inv(Marking(w, p, written))
  {
    var x := PreparerAt(w, p);
    if x.Reserved? {
      if written && x.thread in w.threads && w.threads[x.thread] == Idle {
        MarkedKeeps(w, p, x.thread);
      } else {
        GivenBackKeeps(w, p, x.thread);
      }
    }
  }

  lemma MarkedKeeps(w: World, p: nat, t: ThreadId)
    requires Inv(w) && PreparerAt(w, p) == Reserved(t) && t in w.threads && w.threads[t] == Idle
    ensures Inv(WithStatus(Moved(w, p, Marked(t)), t, Running))
  {
    assert ThreadOk(w, t);
    OneThreadKeeps(w, WithStatus(Moved(w, p, Marked(t)), t, Running), t);
  }

  lemma GivenBackKeeps(w: World, p: nat, t: ThreadId)
    requires Inv(w) && PreparerAt(w, p) == Reserved(t)
    ensures Inv(Freed(Moved(w, p, Gone), t))
  {
    assert ThreadOk(w, t);
    OneThreadKeeps(w, Freed(Moved(w, p, Gone), t), t);
  }

  lemma EnqueueKeeps(w: World, p: nat, turn: TurnId)
    requires Inv(w)
    ensures Inv(Enqueueing(w, p, turn))
  {
    var x := PreparerAt(w, p);
    if x.Marked? && turn !in w.turns {
      assert ThreadOk(w, x.thread);
      OneThreadKeeps(w, Enqueueing(w, p, turn), x.thread);
    }
  }

  lemma EnqueueFailsKeeps(w: World, p: nat)
    requires Inv(w) && PreparerAt(w, p).Marked?
    ensures Inv(PreparerStep(w, EnqueueFails(p)))
  {
    var t := w.preparers[p].thread;
    assert ThreadOk(w, t);
    OneThreadKeeps(w, Moved(w, p, Undoing(t)), t);
  }

  lemma UnmarkKeeps(w: World, p: nat, written: bool)
    requires Inv(w) && PreparerAt(w, p).Undoing?
    ensures Inv(PreparerStep(w, Unmark(p, written)))
  {
    var t := w.preparers[p].thread;
    assert ThreadOk(w, t);
    if written {
      UnmarkedKeeps(w, p, t);
    } else {
      StuckKeeps(w, p, t);
    }
  }

  lemma UnmarkedKeeps(w: World, p: nat, t: ThreadId)
    requires Inv(w) && PreparerAt(w, p) == Undoing(t)
    ensures Inv(Moved(WithStatus(w, t, Idle), p, Unmarked(t, true)))
  {
    assert ThreadOk(w, t);
    OneThreadKeeps(w, Moved(WithStatus(w, t, Idle), p, Unmarked(t, true)), t);
  }

  lemma StuckKeeps(w: World, p: nat, t: ThreadId)
    requires Inv(w) && PreparerAt(w, p) == Undoing(t)
    ensures Inv(Moved(w, p, Unmarked(t, false)))
  {
    assert ThreadOk(w, t);
    OneThreadKeeps(w, Moved(w, p, Unmarked(t, false)), t);
  }

  lemma LetGoKeeps(w: World, p: nat)
    requires Inv(w) && PreparerAt(w, p).Unmarked?
    ensures Inv(PreparerStep(w, LetGo(p)))
  {
    var t := w.preparers[p].thread;
    assert ThreadOk(w, t);
    OneThreadKeeps(w, Freed(Moved(w, p, Gone), t), t);
  }

  lemma ClaimKeeps(w: World, e: nat, turn: TurnId)
    requires Inv(w) && e !in w.executors && turn in w.turns && w.turns[turn].status == Queued
    ensures Inv(Claiming(w, e, turn))
  {
    assert ThreadOk(w, w.turns[turn].thread);
    OneThreadKeeps(w, Claiming(w, e, turn), w.turns[turn].thread);
  }

  lemma OutracedKeeps(w: World, e: nat, turn: TurnId)
    requires Inv(w) && e !in w.executors
    ensures Inv(Advanced(w, e, Outraced(turn)))
  {
    NoThreadKeeps(w, Advanced(w, e, Outraced(turn)));
  }

  lemma FinishKeeps(w: World, e: nat, ending: Ending)
    requires Inv(w) && e in w.executors && w.executors[e].Working? && LegalEnding(ending)
    ensures Inv(Finishing(w, e, ending))
  {
    assert ThreadOk(w, w.executors[e].thread);
    OneThreadKeeps(w, Finishing(w, e, ending), w.executors[e].thread);
  }

  lemma GoIdleKeeps(w: World, e: nat, written: bool)
    requires Inv(w) && e in w.executors && w.executors[e].Finished?
    ensures Inv(GoingIdle(w, e, written))
  {
    assert ThreadOk(w, w.executors[e].thread);
    OneThreadKeeps(w, GoingIdle(w, e, written), w.executors[e].thread);
  }

  lemma ReleaseKeeps(w: World, e: nat)
    requires Inv(w) && e in w.executors && w.executors[e].Idled?
    ensures Inv(Releasing(w, e))
  {
    assert ThreadOk(w, w.executors[e].thread);
    OneThreadKeeps(w, Releasing(w, e), w.executors[e].thread);
  }

  lemma TellKeeps(w: World, e: nat)
    requires Inv(w) && e in w.executors && w.executors[e].Released?
    ensures Inv(Telling(w, e))
  {
    NoThreadKeeps(w, Telling(w, e));
  }

  lemma UndoKeeps(w: World, a: Action)
    requires Inv(w) && (a.EnqueueFails? || a.Unmark? || a.LetGo?) && PreparerStep(w, a) != w
    ensures Inv(PreparerStep(w, a))
  {
    if a.EnqueueFails? {
      EnqueueFailsKeeps(w, a.p);
    } else if a.Unmark? {
      UnmarkKeeps(w, a.p, a.written);
    } else {
      LetGoKeeps(w, a.p);
    }
  }

  lemma PreparerKeeps(w: World, a: Action)
    requires Inv(w)
    ensures Inv(PreparerStep(w, a))
  {
    if a.Look? {
      LookKeeps(w, a.p, a.thread);
    } else if a.Reserve? {
      ReserveKeeps(w, a.p);
    } else if a.Mark? {
      MarkKeeps(w, a.p, a.written);
    } else if a.Enqueue? {
      EnqueueKeeps(w, a.p, a.turn);
    } else if a.EnqueueFails? || a.Unmark? || a.LetGo? {
      if PreparerStep(w, a) != w {
        UndoKeeps(w, a);
      }
    }
  }

  lemma ExecutorKeeps(w: World, a: Action)
    requires Inv(w)
    ensures Inv(ExecutorStep(w, a))
  {
    if a.Claim? {
      if a.e !in w.executors {
        if a.turn in w.turns && w.turns[a.turn].status == Queued {
          ClaimKeeps(w, a.e, a.turn);
        } else {
          OutracedKeeps(w, a.e, a.turn);
        }
      }
    } else if a.ByAnExecutor() && ExecutorStep(w, a) != w {
      if a.Finish? {
        FinishKeeps(w, a.e, a.ending);
      } else if a.GoIdle? {
        GoIdleKeeps(w, a.e, a.written);
      } else if a.Release? {
        ReleaseKeeps(w, a.e);
      } else {
        TellKeeps(w, a.e);
      }
    }
  }

  lemma NextKeeps(w: World, a: Action)
    requires Inv(w)
    ensures Inv(Next(w, a))
  {
    if a.ByAnExecutor() {
      ExecutorKeeps(w, a);
    } else if a.CreateThread? || a.Archive? {
      ThreadStepKeeps(w, a);
    } else {
      PreparerKeeps(w, a);
    }
  }

  lemma {:induction false} RunKeeps(w: World, actions: seq<Action>)
    requires Inv(w)
    ensures Inv(Run(w, actions))
    decreases |actions|
  {
    if actions != [] {
      NextKeeps(w, actions[0]);
      RunKeeps(Next(w, actions[0]), actions[1..]);
    }
  }

  // ---------------------------------------------------------------------------------------------
  // What the invariant means

  predicate UnfinishedIn(w: World, u: TurnId, t: ThreadId) {
    u in w.turns && w.turns[u].thread == t && w.turns[u].status.Unfinished()
  }

  /** The step that gives up on a turn: its final status could not be written and its thread is released. */
  predicate GivesUp(w: World, a: Action, u: TurnId) {
    && a.Release? && a.e in w.executors && w.executors[a.e].Idled? && w.executors[a.e].turn == u
    && w.executors[a.e].ending.Unwritten?
  }

  /** The holder of the thread has still to release it, after which the turn is given up. */
  predicate AboutToGiveUp(w: World, t: ThreadId, u: TurnId) {
    t in w.holder && w.holder[t].ByExecutor? && GivesUp(w, Release(w.holder[t].e), u)
  }

  /**
   In every run an unfinished turn keeps its thread reserved, and running until it is about to be given
   up; of two unfinished turns of a thread one was given up before.
   */
  lemma OneUnfinishedTurnPerThread(threads: map<ThreadId, ThreadStatus>, turns: map<TurnId, TurnState>,
                                   actions: seq<Action>, t: ThreadId, u: TurnId, v: TurnId)
    requires Recovered(threads, turns)
    ensures var w := Run(Started(threads, turns), actions);
      && (UnfinishedIn(w, u, t) && u !in w.abandoned ==>
            t in w.active && (IsRunning(w, t) || AboutToGiveUp(w, t, u)))
      && (UnfinishedIn(w, u, t) && UnfinishedIn(w, v, t) && u != v ==> u in w.abandoned || v in w.abandoned)
  {
    StartedInv(threads, turns);
    RunKeeps(Started(threads, turns), actions);
    var w := Run(Started(threads, turns), actions);
    assert ThreadOk(w, t);
    if UnfinishedIn(w, u, t) {
      assert TurnHolds(w, u);
    }
    if UnfinishedIn(w, v, t) {
      assert TurnHolds(w, v);
    }
  }

  lemma AbandonedByRelease(w: World, a: Action, u: TurnId)
    ensures u in Next(w, a).abandoned <==> u in w.abandoned || GivesUp(w, a, u)
  {
  }

  predicate GivenUpAt(w: World, actions: seq<Action>, i: nat, u: TurnId)
    requires i < |actions|
  {
    GivesUp(Run(w, actions[..i]), actions[i], u)
  }

  /** The abandoned turns are exactly those that some step of the run gave up on. */
  lemma {:induction false} AbandonedIsGivenUp(w: World, actions: seq<Action>, u: TurnId)
    requires w.abandoned == {}
    ensures u in Run(w, actions).abandoned <==> exists i :: 0 <= i < |actions| && GivenUpAt(w, actions, i, u)
    decreases |actions|
  {
    if actions != [] {
      var n := |actions| - 1;
      var first := actions[..n];
      assert actions == first + [actions[n]];
      StepsExtend(Next, w, first, actions[n]);
      AbandonedIsGivenUp(w, first, u);
      AbandonedByRelease(Run(w, first), actions[n], u);
      forall i | 0 <= i < n
        ensures GivenUpAt(w, actions, i, u) <==> GivenUpAt(w, first, i, u)
      {
        assert first[..i] == actions[..i];
      }
      assert GivenUpAt(w, actions, n, u) <==> GivesUp(Run(w, first), actions[n], u);
    }
  }

  /** A reservation is ended by its holder alone, and only when nothing but given-up turns is unfinished. */
  lemma OnlyTheHolderReleases(w: World, a: Action, t: ThreadId)
    requires Inv(w) && t in w.active && t !in Next(w, a).active
    ensures a.Mark? || a.LetGo? || a.Release?
    ensures Holds(w, t, if a.Release? then ByExecutor(a.e) else ByPreparer(a.p))
    ensures forall u | UnfinishedIn(w, u, t) :: u in Next(w, a).abandoned
  {
    assert ThreadOk(w, t);
    if a.Release? {
      assert w.executors[a.e].thread == t;
    } else {
      assert w.preparers[a.p].thread == t;
    }
    forall u | UnfinishedIn(w, u, t)
      ensures u in Next(w, a).abandoned
    {
      assert TurnHolds(w, u);
    }
  }
}
