/**
 Admission of managed processes: any number of starts run at the same time as processes end, records
 are deleted and a shutdown begins. One lock serialises origin check, quota check and registration.
 */
module Admission {
  import opened Prelude
  import opened StepMachines

  /** `spec` stands for everything the fingerprint covers; equal fingerprints mean equal specs. */
  datatype Request = Request(thread: nat, origin: nat, spec: nat)

  datatype Record = Record(thread: nat, origin: nat, spec: nat, active: bool)

  datatype Limits = Limits(total: nat, perThread: nat)

  datatype Reply = Existing(id: nat) | Started(id: nat) | Refused

  datatype Starter =
    | Entered(request: Request)
    | Locked(request: Request)
    | Admitted(request: Request)
    | Launching(request: Request, id: nat)
    | Answered(request: Request, reply: Reply)

  datatype LockOwner = Nobody | ByStarter(i: nat) | ByShutdown

  datatype Shutdown = Open | Flagged | Barrier | Taken(list: set<nat>)

  datatype Fact = Spawned(id: nat, origin: nat) | Deleted(id: nat)

  /**
   `handles` are the processes this server knows an actor or an outcome of. `history` is bookkeeping
   that no step looks at: the spawns and the deletions so far, in order.
   */
  datatype World = World(
    records: map<nat, Record>,
    handles: set<nat>,
    history: seq<Fact>,
    starters: map<nat, Starter>,
    lock: LockOwner,
    shutdown: Shutdown)

  datatype Action =
    | Arrive(i: nat, request: Request)
    | TakeLock(i: nat)
    | Decide(i: nat)
    | Insert(i: nat, id: nat, stored: bool)
    | Launched(i: nat, up: bool)
    | ProcessEnds(id: nat)
    | DeleteRecord(id: nat)
    | RaiseFlag
    | ShutdownLocks
    | TakeList

  // ---------------------------------------------------------------------------------------------
  // Steps

  function Active(records: map<nat, Record>): set<nat> { set id | id in records && records[id].active }

  function ActiveIn(records: map<nat, Record>, thread: nat): set<nat> {
    set id | id in records && records[id].active && records[id].thread == thread
  }

  predicate KnownOrigin(records: map<nat, Record>, origin: nat) {
    exists id :: id in records && records[id].origin == origin
  }

  predicate OriginsDistinct(records: map<nat, Record>) {
    forall a, b | a in records && b in records && records[a].origin == records[b].origin :: a == b
  }

  ghost function RecordOf(records: map<nat, Record>, origin: nat): nat
    requires KnownOrigin(records, origin)
  {
    var id :| id in records && records[id].origin == origin; id
  }

  predicate Matches(r: Record, q: Request) { r.thread == q.thread && r.spec == q.spec }

  /** Same parameters and known here, or ended: the old process; everything else conflicts. */
  ghost function ReuseReply(w: World, q: Request): Reply
    requires KnownOrigin(w.records, q.origin)
  {
    var id := RecordOf(w.records, q.origin);
    if !Matches(w.records[id], q) then Refused
    else if id in w.handles || !w.records[id].active then Existing(id)
    else Refused
  }

  predicate WithinLimits(w: World, limits: Limits, q: Request) {
    |Active(w.records)| < limits.total && |ActiveIn(w.records, q.thread)| < limits.perThread
  }

  /** Under the lock: shutdown is checked again, then the origin, then both quotas. */
  ghost function Decided(w: World, limits: Limits, i: nat): World
    requires i in w.starters && w.starters[i].Locked?
  {
    var q := w.starters[i].request;
    if w.shutdown != Open then w.(starters := w.starters[i := Answered(q, Refused)], lock := Nobody)
    else if KnownOrigin(w.records, q.origin) then
      var reply := ReuseReply(w, q);
      w.(starters := w.starters[i := Answered(q, reply)], lock := Nobody,
         handles := if reply.Existing? then w.handles + {reply.id} else w.handles)
    else if !WithinLimits(w, limits, q) then w.(starters := w.starters[i := Answered(q, Refused)], lock := Nobody)
    else w.(starters := w.starters[i := Admitted(q)])
  }

  /** The record is inserted, the actor registered and spawned; the store refuses a duplicate. */
  function Inserted(w: World, i: nat, id: nat, stored: bool): World
    requires i in w.starters && w.starters[i].Admitted?
  {
    var q := w.starters[i].request;
    if !stored || id in w.records || KnownOrigin(w.records, q.origin) then
      w.(starters := w.starters[i := Answered(q, Refused)], lock := Nobody)
    else
      w.(records := w.records[id := Record(q.thread, q.origin, q.spec, true)],
         handles := w.handles + {id}, history := w.history + [Spawned(id, q.origin)],
         starters := w.starters[i := Launching(q, id)])
  }

  predicate At(w: World, i: nat) { i in w.starters && w.lock == ByStarter(i) }

  ghost function Next(w: World, limits: Limits, a: Action): World {
    match a
    case Arrive(i, q) =>
      if i in w.starters then w
      else if w.shutdown != Open then w.(starters := w.starters[i := Answered(q, Refused)])
      else w.(starters := w.starters[i := Entered(q)])
    case TakeLock(i) =>
      if i in w.starters && w.starters[i].Entered? && w.lock == Nobody then
        w.(starters := w.starters[i := Locked(w.starters[i].request)], lock := ByStarter(i))
      else w
    case Decide(i) => if At(w, i) && w.starters[i].Locked? then Decided(w, limits, i) else w
    case Insert(i, id, stored) =>
      if At(w, i) && w.starters[i].Admitted? then Inserted(w, i, id, stored) else w
    case Launched(i, up) =>
      if At(w, i) && w.starters[i].Launching? then
        var reply := if up then Started(w.starters[i].id) else Refused;
        w.(starters := w.starters[i := Answered(w.starters[i].request, reply)], lock := Nobody)
      else w
    case ProcessEnds(id) =>
      if id in w.records then w.(records := w.records[id := w.records[id].(active := false)]) else w
    case DeleteRecord(id) =>
      if id in w.records && !w.records[id].active then
        w.(records := w.records - {id}, history := w.history + [Deleted(id)])
      else w
    case RaiseFlag => if w.shutdown == Open then w.(shutdown := Flagged) else w
    case ShutdownLocks =>
      if w.shutdown == Flagged && w.lock == Nobody then w.(shutdown := Barrier, lock := ByShutdown) else w
    case TakeList =>
      if w.shutdown == Barrier && w.lock == ByShutdown then w.(shutdown := Taken(Active(w.records)), lock := Nobody)
      else w
  }

  ghost function Run(w: World, limits: Limits, actions: seq<Action>): World {
    Steps(Under(limits), w, actions)
  }

  ghost function Under(limits: Limits): (World, Action) -> World { (w, a) => Next(w, limits, a) }

  /** A server that has recovered: no record is active. */
  function Booted(records: map<nat, Record>, handles: set<nat>): World {
    World(records, handles, [], map[], Nobody, Open)
  }

  // ---------------------------------------------------------------------------------------------
  // What every step keeps

  predicate HoldsLock(s: Starter) { s.Locked? || s.Admitted? || s.Launching? }

  predicate LockOk(w: World) {
    && (forall i | i in w.starters && HoldsLock(w.starters[i]) :: w.lock == ByStarter(i))
    && (w.shutdown.Barrier? ==> w.lock == ByShutdown)
    && (w.lock == ByShutdown ==> w.shutdown.Barrier?)
  }

  predicate Quota(w: World, limits: Limits) {
    && |Active(w.records)| <= limits.total
    && (forall id | id in w.records && w.records[id].active ::
      |ActiveIn(w.records, w.records[id].thread)| <= limits.perThread)
  }

  predicate AdmittedOk(w: World, limits: Limits) {
    forall i | i in w.starters && w.starters[i].Admitted? ::
      WithinLimits(w, limits, w.starters[i].request) && !KnownOrigin(w.records, w.starters[i].request.origin)
      && !w.shutdown.Taken?
  }

  predicate DeletedWithin(history: seq<Fact>, id: nat, from: nat, to: nat) {
    exists m :: from < m < to <= |history| && history[m] == Deleted(id)
  }

  /** What was spawned still has its record, unless that was deleted later. */
  predicate SpawnKept(w: World, j: nat)
    requires j < |w.history| && w.history[j].Spawned?
  {
    var s := w.history[j];
    (s.id in w.records && w.records[s.id].origin == s.origin) || DeletedWithin(w.history, s.id, j, |w.history|)
  }

  predicate SameWork(a: Fact, b: Fact) { a.Spawned? && b.Spawned? && (a.origin == b.origin || a.id == b.id) }

  /** Nothing is spawned again before its record was deleted. */
  predicate NoRepeats(history: seq<Fact>) {
    forall j, k | 0 <= j < k < |history| && SameWork(history[j], history[k]) ::
      DeletedWithin(history, history[j].id, j, k)
  }

  predicate SpawnsOk(w: World) {
    && OriginsDistinct(w.records)
    && (forall j | 0 <= j < |w.history| && w.history[j].Spawned? :: SpawnKept(w, j))
    && NoRepeats(w.history)
  }

  predicate ListOk(w: World) {
    w.shutdown.Taken? ==>
      && Active(w.records) <= w.shutdown.list
      && (forall i | i in w.starters :: !w.starters[i].Admitted?)
  }

  predicate Inv(w: World, limits: Limits) {
    LockOk(w) && Quota(w, limits) && AdmittedOk(w, limits) && OriginsDistinct(w.records) && ListOk(w)
  }

  lemma FewerActive(before: map<nat, Record>, after: map<nat, Record>, thread: nat)
    requires forall id | id in after ::
      id in before && after[id].thread == before[id].thread && (after[id].active ==> before[id].active)
    ensures |Active(after)| <= |Active(before)|
    ensures |ActiveIn(after, thread)| <= |ActiveIn(before, thread)|
  {
    Smaller(Active(after), Active(before));
    Smaller(ActiveIn(after, thread), ActiveIn(before, thread));
  }

  lemma {:induction false} Smaller(a: set<nat>, b: set<nat>)
    requires a <= b
    ensures |a| <= |b|
  {
    if a != {} {
      var x :| x in a;
      Smaller(a - {x}, b - {x});
    }
  }

  /** Ends and deletions only make room. */
  lemma EndingKeeps(w: World, limits: Limits, records: map<nat, Record>)
    requires Inv(w, limits)
    requires forall id | id in records ::
      id in w.records && records[id] == w.records[id].(active := records[id].active)
        && (records[id].active ==> w.records[id].active)
    ensures Inv(w.(records := records), limits)
  {
    forall thread: nat {
      FewerActive(w.records, records, thread);
    }
    FewerActive(w.records, records, 0);
  }

  lemma OneMoreActive(records: map<nat, Record>, id: nat, r: Record, thread: nat)
    requires id !in records && r.active
    ensures var more := records[id := r];
      && |Active(more)| == |Active(records)| + 1
      && |ActiveIn(more, thread)| == |ActiveIn(records, thread)| + (if thread == r.thread then 1 else 0)
  {
    ActiveGrows(records, id, r, thread);
    OneMore(Active(records), id);
    OneMore(ActiveIn(records, thread), id);
  }

  lemma ActiveGrows(records: map<nat, Record>, id: nat, r: Record, thread: nat)
    requires id !in records && r.active
    ensures Active(records[id := r]) == Active(records) + {id}
    ensures ActiveIn(records[id := r], thread) ==
      if thread == r.thread then ActiveIn(records, thread) + {id} else ActiveIn(records, thread)
  {
  }

  lemma OneMore(s: set<nat>, x: nat)
    requires x !in s
    ensures |s + {x}| == |s| + 1
  {
  }

  lemma InsertKeeps(w: World, limits: Limits, i: nat, id: nat, stored: bool)
    requires Inv(w, limits) && At(w, i) && w.starters[i].Admitted?
    ensures Inv(Inserted(w, i, id, stored), limits)
  {
    var q := w.starters[i].request;
    var w' := Inserted(w, i, id, stored);
    if w'.records != w.records {
      forall t: nat {
        OneMoreActive(w.records, id, Record(q.thread, q.origin, q.spec, true), t);
      }
    }
  }

  lemma DecideKeeps(w: World, limits: Limits, i: nat)
    requires Inv(w, limits) && At(w, i) && w.starters[i].Locked?
    ensures Inv(Decided(w, limits, i), limits)
  {
  }

  lemma NextKeeps(w: World, limits: Limits, a: Action)
    requires Inv(w, limits)
    ensures Inv(Next(w, limits, a), limits)
  {
    match a
    case Decide(i) => if At(w, i) && w.starters[i].Locked? { DecideKeeps(w, limits, i); }
    case Insert(i, id, stored) =>
      if At(w, i) && w.starters[i].Admitted? { InsertKeeps(w, limits, i, id, stored); }
    case ProcessEnds(_) => EndingKeeps(w, limits, Next(w, limits, a).records);
    case DeleteRecord(_) => EndingKeeps(w, limits, Next(w, limits, a).records);
    case _ =>
  }

  lemma {:induction false} RunKeeps(w: World, limits: Limits, actions: seq<Action>)
    requires Inv(w, limits)
    ensures Inv(Run(w, limits, actions), limits)
    decreases |actions|
  {
    if actions != [] {
      NextKeeps(w, limits, actions[0]);
      RunKeeps(Next(w, limits, actions[0]), limits, actions[1..]);
    }
  }

  lemma BootedInv(records: map<nat, Record>, handles: set<nat>, limits: Limits)
    requires OriginsDistinct(records) && forall id | id in records :: !records[id].active
    ensures Inv(Booted(records, handles), limits)
  {
    assert Active(records) == {};
  }

  // ---------------------------------------------------------------------------------------------
  // What that means

  /** Never more active processes than allowed, in all and in every thread, and never two records of one origin. */
  lemma LimitsHold(records: map<nat, Record>, handles: set<nat>, limits: Limits, actions: seq<Action>, thread: nat)
    requires OriginsDistinct(records) && forall id | id in records :: !records[id].active
    ensures var w := Run(Booted(records, handles), limits, actions);
      && |Active(w.records)| <= limits.total
      && |ActiveIn(w.records, thread)| <= limits.perThread
      && OriginsDistinct(w.records)
  {
    BootedInv(records, handles, limits);
    RunKeeps(Booted(records, handles), limits, actions);
    var w := Run(Booted(records, handles), limits, actions);
    if ActiveIn(w.records, thread) != {} {
      var id :| id in ActiveIn(w.records, thread);
      assert w.records[id].active && w.records[id].thread == thread;
    }
  }

  /** Once shutdown has taken its list, the list covers every process that is active then or later. */
  lemma ShutdownListIsComplete(records: map<nat, Record>, handles: set<nat>, limits: Limits, actions: seq<Action>)
    requires OriginsDistinct(records) && forall id | id in records :: !records[id].active
    requires Run(Booted(records, handles), limits, actions).shutdown.Taken?
    ensures var w := Run(Booted(records, handles), limits, actions);
      Active(w.records) <= w.shutdown.list
  {
    BootedInv(records, handles, limits);
    RunKeeps(Booted(records, handles), limits, actions);
  }

  // ---------------------------------------------------------------------------------------------
  // Nothing is started twice

  lemma DeletedStays(history: seq<Fact>, f: Fact, id: nat, from: nat, to: nat)
    requires DeletedWithin(history, id, from, to)
    ensures DeletedWithin(history + [f], id, from, to)
  {
    var m :| from < m < to && history[m] == Deleted(id);
    assert (history + [f])[m] == Deleted(id);
  }

  lemma DeletionIsKept(w: World, id: nat)
    requires SpawnsOk(w) && id in w.records
    ensures SpawnsOk(w.(records := w.records - {id}, history := w.history + [Deleted(id)]))
  {
    var w' := w.(records := w.records - {id}, history := w.history + [Deleted(id)]);
    var n := |w.history|;
    assert w'.history[n] == Deleted(id);
    forall j | 0 <= j < n + 1 && w'.history[j].Spawned?
      ensures SpawnKept(w', j)
    {
      assert w'.history[j] == w.history[j] && SpawnKept(w, j);
      if DeletedWithin(w.history, w.history[j].id, j, n) {
        DeletedStays(w.history, Deleted(id), w.history[j].id, j, n);
      }
    }
    RepeatsOnlyAtEnd(w.history, Deleted(id));
  }

  lemma RepeatsOnlyAtEnd(history: seq<Fact>, f: Fact)
    requires NoRepeats(history)
    requires forall j | 0 <= j < |history| && SameWork(history[j], f) ::
      DeletedWithin(history, history[j].id, j, |history|)
    ensures NoRepeats(history + [f])
  {
    var more := history + [f];
    forall j, k | 0 <= j < k < |more| && SameWork(more[j], more[k])
      ensures DeletedWithin(more, more[j].id, j, k)
    {
      assert more[j] == history[j] && (k < |history| ==> more[k] == history[k]);
      DeletedStays(history, f, history[j].id, j, k);
    }
  }

  /** A spawn is recorded only when its origin has no record, so everything spawned for it before was deleted. */
  lemma SpawnIsKept(w: World, id: nat, r: Record)
    requires SpawnsOk(w) && id !in w.records && !KnownOrigin(w.records, r.origin)
    ensures SpawnsOk(w.(records := w.records[id := r], history := w.history + [Spawned(id, r.origin)]))
  {
    var f := Spawned(id, r.origin);
    var w' := w.(records := w.records[id := r], history := w.history + [f]);
    var n := |w.history|;
    forall j | 0 <= j < n + 1 && w'.history[j].Spawned?
      ensures SpawnKept(w', j)
    {
      if j < n {
        assert w'.history[j] == w.history[j] && SpawnKept(w, j);
        if DeletedWithin(w.history, w.history[j].id, j, n) {
          DeletedStays(w.history, f, w.history[j].id, j, n);
        }
      }
    }
    forall j | 0 <= j < n && SameWork(w.history[j], f)
      ensures DeletedWithin(w.history, w.history[j].id, j, n)
    {
      assert SpawnKept(w, j);
    }
    RepeatsOnlyAtEnd(w.history, f);
  }

  /** Steps that leave ids and origins of the records alone. */
  lemma HistoryKept(w: World, w': World)
    requires SpawnsOk(w) && w'.history == w.history && w'.records.Keys == w.records.Keys
    requires forall id | id in w.records :: w'.records[id].origin == w.records[id].origin
    ensures SpawnsOk(w')
  {
    forall j | 0 <= j < |w'.history| && w'.history[j].Spawned?
      ensures SpawnKept(w', j)
    {
      assert SpawnKept(w, j);
    }
  }

  lemma NextKeepsSpawns(w: World, limits: Limits, a: Action)
    requires SpawnsOk(w)
    ensures SpawnsOk(Next(w, limits, a))
  {
    var w' := Next(w, limits, a);
    if w'.history == w.history {
      HistoryKept(w, w');
    } else if a.DeleteRecord? {
      DeletionIsKept(w, a.id);
    } else {
      var q := w.starters[a.i].request;
      var r := Record(q.thread, q.origin, q.spec, true);
      SpawnIsKept(w, a.id, r);
      HistoryKept(w.(records := w.records[a.id := r], history := w.history + [Spawned(a.id, r.origin)]), w');
    }
  }

  lemma {:induction false} RunKeepsSpawns(w: World, limits: Limits, actions: seq<Action>)
    requires SpawnsOk(w)
    ensures SpawnsOk(Run(w, limits, actions))
    decreases |actions|
  {
    if actions != [] {
      NextKeepsSpawns(w, limits, actions[0]);
      RunKeepsSpawns(Next(w, limits, actions[0]), limits, actions[1..]);
    }
  }

  /** However starts, ends and deletions interleave, between two spawns of one origin the first record was deleted. */
  lemma OneSpawnPerOrigin(records: map<nat, Record>, handles: set<nat>, limits: Limits, actions: seq<Action>,
                          j: nat, k: nat)
    requires OriginsDistinct(records)
    requires var history := Run(Booted(records, handles), limits, actions).history;
      j < k < |history| && history[j].Spawned? && history[k].Spawned? && history[j].origin == history[k].origin
    ensures var history := Run(Booted(records, handles), limits, actions).history;
      DeletedWithin(history, history[j].id, j, k)
  {
    RunKeepsSpawns(Booted(records, handles), limits, actions);
    var history := Run(Booted(records, handles), limits, actions).history;
    assert SameWork(history[j], history[k]);
  }

  /** What a start is told whose origin has the record `id`. */
  function ReplyFor(w: World, q: Request, id: nat): Reply
    requires id in w.records
  {
    if Matches(w.records[id], q) && (id in w.handles || !w.records[id].active) then Existing(id) else Refused
  }

  lemma ReusedOriginIsAnswered(w: World, limits: Limits, i: nat, id: nat)
    requires OriginsDistinct(w.records) && At(w, i) && w.starters[i].Locked?
    requires id in w.records && w.records[id].origin == w.starters[i].request.origin
    ensures var q := w.starters[i].request; var w' := Next(w, limits, Decide(i));
      && w'.records == w.records && w'.history == w.history
      && w'.starters[i] == Answered(q, if w.shutdown == Open then ReplyFor(w, q, id) else Refused)
  {
    assert RecordOf(w.records, w.starters[i].request.origin) == id;
  }

  lemma {:induction false} AnswersStay(w: World, limits: Limits, actions: seq<Action>, i: nat)
    requires i in w.starters && w.starters[i].Answered?
    ensures var w' := Run(w, limits, actions); i in w'.starters && w'.starters[i] == w.starters[i]
    decreases |actions|
  {
    if actions != [] {
      AnswersStay(Next(w, limits, actions[0]), limits, actions[1..], i);
    }
  }

  /**
   In every run, a start that is decided while its origin has a record gets that very process or a
   refusal for good, whatever happens before and after: the process if the parameters are the same
   and it is known here or over. The decision inserts and spawns nothing.
   */
  lemma ReusedOriginIsIdempotent(records: map<nat, Record>, handles: set<nat>, limits: Limits,
                                 before: seq<Action>, after: seq<Action>, i: nat, id: nat)
    requires OriginsDistinct(records) && forall id | id in records :: !records[id].active
    requires var w := Run(Booted(records, handles), limits, before);
      && At(w, i) && w.starters[i].Locked?
      && id in w.records && w.records[id].origin == w.starters[i].request.origin
    ensures var w := Run(Booted(records, handles), limits, before); var q := w.starters[i].request;
      var w' := Next(w, limits, Decide(i));
      var end := Run(Booted(records, handles), limits, before + [Decide(i)] + after);
      && w'.records == w.records && w'.history == w.history
      && i in end.starters
      && end.starters[i] == Answered(q, if w.shutdown == Open then ReplyFor(w, q, id) else Refused)
  {
    var boot := Booted(records, handles);
    BootedInv(records, handles, limits);
    RunKeeps(boot, limits, before);
    var w := Run(boot, limits, before);
    ReusedOriginIsAnswered(w, limits, i, id);
    StepsExtend(Under(limits), boot, before, Decide(i));
    StepsJoin(Under(limits), boot, before + [Decide(i)], after);
    AnswersStay(Next(w, limits, Decide(i)), limits, after, i);
  }

  // ---------------------------------------------------------------------------------------------
  // Answers and spawns

  predicate SpawnedAs(history: seq<Fact>, id: nat, origin: nat) {
    exists m :: 0 <= m < |history| && history[m] == Spawned(id, origin)
  }

  predicate AnswerOk(w: World, i: nat)
    requires i in w.starters
  {
    match w.starters[i]
    case Launching(q, id) => SpawnedAs(w.history, id, q.origin)
    case Answered(q, Started(id)) => SpawnedAs(w.history, id, q.origin)
    case _ => true
  }

  predicate AnswersOk(w: World) { forall i | i in w.starters :: AnswerOk(w, i) }

  lemma NextKeepsAnswers(w: World, limits: Limits, a: Action)
    requires AnswersOk(w)
    ensures AnswersOk(Next(w, limits, a))
  {
    var w' := Next(w, limits, a);
    assert w.history <= w'.history;
    forall i | i in w'.starters
      ensures AnswerOk(w', i)
    {
      if i in w.starters {
        assert AnswerOk(w, i);
      }
      if w'.starters[i].Launching? && !(i in w.starters && w.starters[i].Launching?) {
        assert w'.history[|w'.history| - 1] == Spawned(w'.starters[i].id, w'.starters[i].request.origin);
      }
    }
  }

  lemma {:induction false} RunKeepsAnswers(w: World, limits: Limits, actions: seq<Action>)
    requires AnswersOk(w)
    ensures AnswersOk(Run(w, limits, actions))
    decreases |actions|
  {
    if actions != [] {
      NextKeepsAnswers(w, limits, actions[0]);
      RunKeepsAnswers(Next(w, limits, actions[0]), limits, actions[1..]);
    }
  }

  /** Two starts of one origin that are told of different new processes: the record of one was deleted. */
  lemma StartedTwice(records: map<nat, Record>, handles: set<nat>, limits: Limits, actions: seq<Action>,
                     p: Request, q: Request, a: nat, b: nat, i: nat, j: nat)
    requires OriginsDistinct(records) && p.origin == q.origin && a != b
    requires var starters := Run(Booted(records, handles), limits, actions).starters;
      && i in starters && starters[i] == Answered(p, Started(a))
      && j in starters && starters[j] == Answered(q, Started(b))
    ensures var history := Run(Booted(records, handles), limits, actions).history;
      exists m | 0 <= m < |history| :: history[m] == Deleted(a) || history[m] == Deleted(b)
  {
    var w := Run(Booted(records, handles), limits, actions);
    RunKeepsAnswers(Booted(records, handles), limits, actions);
    assert AnswerOk(w, i) && AnswerOk(w, j);
    var m :| 0 <= m < |w.history| && w.history[m] == Spawned(a, p.origin);
    var n :| 0 <= n < |w.history| && w.history[n] == Spawned(b, p.origin);
    if m < n {
      OneSpawnPerOrigin(records, handles, limits, actions, m, n);
    } else {
      OneSpawnPerOrigin(records, handles, limits, actions, n, m);
    }
  }
}
