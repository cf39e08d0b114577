/**
 The commit protocol of the file-backed store as a machine: fork, apply, validate, write a temporary
 file, rename it, sync the directory, publish. A write may fail and the program or the machine may
 stop between any two of these. The protocol only needs a few laws of the states it keeps.
 */
module CommitProtocol {
  import opened Prelude
  import opened StepMachines

  /** States S, their file form J, and mutations M. */
  datatype Model<!S, !J, !M> = Model(
    initial: S,
    valid: S -> bool,
    apply: (S, M) -> Option<S>,
    normal: S -> S,
    save: S -> J,
    load: J -> Option<S>,
    outdated: J -> bool)

  ghost predicate Lawful<S(!new), J(!new), M(!new)>(k: Model<S, J, M>) {
    && k.valid(k.initial) && k.normal(k.initial) == k.initial
    && (forall j :: k.load(j).Some? ==> k.valid(k.load(j).value) && k.normal(k.load(j).value) == k.load(j).value)
    && (forall s :: k.valid(s) ==> k.load(k.save(s)) == Some(k.normal(s)))
  }

  datatype Content<J> = Missing | Snapshot(json: J)

  /** What opening the store on this content starts from; None when opening fails. */
  function Loads<S, J, M>(k: Model<S, J, M>, c: Content<J>): Option<S> {
    match c
    case Missing => Some(k.initial)
    case Snapshot(j) => k.load(j)
  }

  predicate NeedsWrite<S, J, M>(k: Model<S, J, M>, c: Content<J>) {
    match c
    case Missing => true
    case Snapshot(j) => k.outdated(j)
  }

  datatype Change<M> = Did(mutation: M) | Reloaded

  /** The state after accepted mutations and reloads; None if one of the mutations is refused. */
  function Replay<S, J, M>(k: Model<S, J, M>, s: S, trail: seq<Change<M>>): Option<S>
    decreases |trail|
  {
    if trail == [] then Some(s)
    else
      var before := Replay(k, s, trail[..|trail| - 1]);
      if before.None? then None
      else
        match trail[|trail| - 1]
        case Did(m) => k.apply(before.value, m)
        case Reloaded => Some(k.normal(before.value))
  }

  /**
   A content the file has or may fall back to. `state` and `trail` are bookkeeping: the state it
   was written from and how that state came from the last acknowledged one.
   */
  datatype Version<S, J, M> = Version(content: Content<J>, state: S, trail: seq<Change<M>>)

  datatype Stage = Writing | Renamed

  datatype Commit<S, J, M> = Commit(candidate: S, json: J, stage: Stage, trail: seq<Change<M>>)

  datatype Phase<S, J, M> =
    | Closed
    | Opening(write: Commit<S, J, M>)
    | Ready
    | Committing(write: Commit<S, J, M>, mutation: M)

  /**
   `file` is what the path holds now; `survivors` lists what it may hold after a power loss, which
   is more than one content from a rename until the directory is synced. `memory` is published to
   readers in phases Ready and Committing. `acked` is the state of the last successful operation.
   */
  datatype World<S, J, M> = World(
    memory: S,
    trail: seq<Change<M>>,
    phase: Phase<S, J, M>,
    file: Version<S, J, M>,
    survivors: seq<Version<S, J, M>>,
    acked: S)

  datatype Action<M> =
    | Open
    | Mutate(mutation: M)
    | Proceed
    | Fail
    | Stop
    | PowerLoss(survivor: nat)

  predicate Published<S, J, M>(w: World<S, J, M>) { w.phase.Ready? || w.phase.Committing? }

  // ---------------------------------------------------------------------------------------------
  // Steps

  function Opened<S, J, M>(k: Model<S, J, M>, w: World<S, J, M>): World<S, J, M>
    requires w.phase.Closed?
  {
    var loaded := Loads(k, w.file.content);
    if loaded.None? then w
    else
      var trail := w.file.trail + [Reloaded];
      if !NeedsWrite(k, w.file.content) then w.(phase := Ready, memory := loaded.value, trail := trail)
      else if k.valid(loaded.value) then
        w.(phase := Opening(Commit(loaded.value, k.save(loaded.value), Writing, trail)))
      else w
  }

  /** A mutation that its own checks or the validation of the whole refuse changes nothing. */
  function Mutated<S, J, M>(k: Model<S, J, M>, w: World<S, J, M>, m: M): World<S, J, M>
    requires w.phase.Ready?
  {
    var outcome := k.apply(w.memory, m);
    if outcome.None? || !k.valid(outcome.value) then w
    else w.(phase := Committing(Commit(outcome.value, k.save(outcome.value), Writing, w.trail + [Did(m)]), m))
  }

  function RenamedOver<S, J, M>(w: World<S, J, M>, c: Commit<S, J, M>): World<S, J, M> {
    var file := Version(Snapshot(c.json), c.candidate, c.trail);
    w.(file := file, survivors := w.survivors + [file])
  }

  /** The directory is synced: only this content is left, and the operation has succeeded. */
  function Acknowledged<S, J, M>(w: World<S, J, M>, c: Commit<S, J, M>): World<S, J, M> {
    var file := Version(Snapshot(c.json), c.candidate, []);
    World(c.candidate, [], Ready, file, [file], c.candidate)
  }

  function Proceeded<S, J, M>(w: World<S, J, M>): World<S, J, M> {
    match w.phase
    case Opening(c) =>
      if c.stage == Writing then RenamedOver(w, c).(phase := Opening(c.(stage := Renamed))) else Acknowledged(w, c)
    case Committing(c, m) =>
      if c.stage == Writing then RenamedOver(w, c).(phase := Committing(c.(stage := Renamed), m))
      else Acknowledged(w, c)
    case _ => w
  }

  function Failed<S, J, M>(w: World<S, J, M>): World<S, J, M> {
    match w.phase
    case Opening(_) => w.(phase := Closed)
    case Committing(_, _) => w.(phase := Ready)
    case _ => w
  }

  function Next<S, J, M>(k: Model<S, J, M>, w: World<S, J, M>, a: Action<M>): World<S, J, M> {
    match a
    case Open => if w.phase.Closed? then Opened(k, w) else w
    case Mutate(m) => if w.phase.Ready? then Mutated(k, w, m) else w
    case Proceed => Proceeded(w)
    case Fail => Failed(w)
    case Stop => w.(phase := Closed)
    case PowerLoss(i) =>
      if i < |w.survivors| then w.(phase := Closed, file := w.survivors[i], survivors := [w.survivors[i]]) else w
  }

  function Run<S, J, M>(k: Model<S, J, M>, w: World<S, J, M>, actions: seq<Action<M>>): World<S, J, M> {
    Steps((v: World<S, J, M>, a: Action<M>) => Next(k, v, a), w, actions)
  }

  function Start<S, J, M>(k: Model<S, J, M>, c: Content<J>): World<S, J, M>
    requires Loads(k, c).Some?
  {
    var s := Loads(k, c).value;
    var file := Version(c, s, []);
    World(s, [], Closed, file, [file], s)
  }

  // ---------------------------------------------------------------------------------------------
  // What every step keeps

  /** The content loads, to the state it was written from, which comes from the acknowledged one. */
  predicate Sound<S(==), J, M>(k: Model<S, J, M>, acked: S, v: Version<S, J, M>) {
    && k.valid(v.state)
    && Loads(k, v.content) == Some(k.normal(v.state))
    && Replay(k, acked, v.trail) == Some(v.state)
  }

  /** The file holds this state, or the outcome of one more mutation of it. */
  ghost predicate HoldsOrAhead<S, J, M(!new)>(k: Model<S, J, M>, memory: S, v: Version<S, J, M>) {
    || Loads(k, v.content) == Some(k.normal(memory))
    || exists m :: k.apply(memory, m) == Some(v.state)
  }

  ghost predicate CommitOk<S, J, M>(k: Model<S, J, M>, w: World<S, J, M>, c: Commit<S, J, M>) {
    && k.valid(c.candidate)
    && c.json == k.save(c.candidate)
    && Replay(k, w.acked, c.trail) == Some(c.candidate)
    && (c.stage == Renamed ==> w.file == Version(Snapshot(c.json), c.candidate, c.trail))
  }

  ghost predicate MemoryOk<S, J, M(!new)>(k: Model<S, J, M>, w: World<S, J, M>) {
    && k.valid(w.memory)
    && Replay(k, w.acked, w.trail) == Some(w.memory)
    && HoldsOrAhead(k, w.memory, w.file)
  }

  ghost predicate PhaseOk<S, J, M(!new)>(k: Model<S, J, M>, w: World<S, J, M>) {
    match w.phase
    case Closed => true
    case Opening(c) => CommitOk(k, w, c)
    case Ready => MemoryOk(k, w)
    case Committing(c, m) => MemoryOk(k, w) && CommitOk(k, w, c) && k.apply(w.memory, m) == Some(c.candidate)
  }

  ghost predicate Inv<S, J, M(!new)>(k: Model<S, J, M>, w: World<S, J, M>) {
    && (forall i | 0 <= i < |w.survivors| :: Sound(k, w.acked, w.survivors[i]))
    && w.survivors != [] && w.file == w.survivors[|w.survivors| - 1]
    && Sound(k, w.acked, w.file)
    && PhaseOk(k, w)
  }

  lemma ReplayExtends<S, J, M>(k: Model<S, J, M>, s: S, trail: seq<Change<M>>, c: Change<M>)
    ensures Replay(k, s, trail + [c]) ==
      if Replay(k, s, trail).None? then None
      else match c
        case Did(m) => k.apply(Replay(k, s, trail).value, m)
        case Reloaded => Some(k.normal(Replay(k, s, trail).value))
  {
    assert (trail + [c])[..|trail|] == trail;
  }

  lemma StartInv<S(!new), J(!new), M(!new)>(k: Model<S, J, M>, c: Content<J>)
    requires Lawful(k) && Loads(k, c).Some?
    ensures Inv(k, Start(k, c))
  {
  }

  lemma OpenKeeps<S(!new), J(!new), M(!new)>(k: Model<S, J, M>, w: World<S, J, M>)
    requires Lawful(k) && Inv(k, w) && w.phase.Closed?
    ensures Inv(k, Opened(k, w))
  {
    ReplayExtends(k, w.acked, w.file.trail, Reloaded);
  }

  /** A mutation that is accepted adds only the pending write to what the invariant says. */
  lemma PendingKeeps<S(!new), J(!new), M(!new)>(k: Model<S, J, M>, w: World<S, J, M>, w': World<S, J, M>,
                                                c: Commit<S, J, M>, m: M)
    requires Inv(k, w) && w.phase.Ready? && w' == w.(phase := Committing(c, m)) && c.stage == Writing
    requires k.valid(c.candidate) && c.json == k.save(c.candidate) && k.apply(w.memory, m) == Some(c.candidate)
    requires Replay(k, w.acked, c.trail) == Some(c.candidate)
    ensures Inv(k, w')
  {
    forall i | 0 <= i < |w'.survivors|
      ensures Sound(k, w'.acked, w'.survivors[i])
    {
      assert Sound(k, w.acked, w.survivors[i]);
    }
    assert MemoryOk(k, w') by {
      assert MemoryOk(k, w) && HoldsOrAhead(k, w'.memory, w'.file);
    }
    assert CommitOk(k, w', c);
  }

  lemma MutateKeeps<S(!new), J(!new), M(!new)>(k: Model<S, J, M>, w: World<S, J, M>, m: M)
    requires Inv(k, w) && w.phase.Ready?
    ensures Inv(k, Mutated(k, w, m))
  {
    var outcome := k.apply(w.memory, m);
    if outcome.Some? && k.valid(outcome.value) {
      var trail := w.trail + [Did(m)];
      ReplayExtends(k, w.acked, w.trail, Did(m));
      PendingKeeps(k, w, Mutated(k, w, m), Commit(outcome.value, k.save(outcome.value), Writing, trail), m);
    }
  }

  lemma ProceedKeeps<S(!new), J(!new), M(!new)>(k: Model<S, J, M>, w: World<S, J, M>)
    requires Lawful(k) && Inv(k, w)
    ensures Inv(k, Proceeded(w))
  {
    var w' := Proceeded(w);
    if (w.phase.Opening? || w.phase.Committing?) && w.phase.write.stage == Writing {
      forall i | 0 <= i < |w'.survivors|
        ensures Sound(k, w'.acked, w'.survivors[i])
      {
        if i < |w.survivors| {
          assert w'.survivors[i] == w.survivors[i];
        }
      }
    }
  }

  /** A failure after the rename leaves the file one mutation ahead of memory. */
  lemma NextKeeps<S(!new), J(!new), M(!new)>(k: Model<S, J, M>, w: World<S, J, M>, a: Action<M>)
    requires Lawful(k) && Inv(k, w)
    ensures Inv(k, Next(k, w, a))
  {
    match a
    case Open => if w.phase.Closed? { OpenKeeps(k, w); }
    case Mutate(m) => if w.phase.Ready? { MutateKeeps(k, w, m); }
    case Proceed => ProceedKeeps(k, w);
    case _ =>
  }

  lemma {:induction false} RunKeeps<S(!new), J(!new), M(!new)>(k: Model<S, J, M>, w: World<S, J, M>,
                                                               actions: seq<Action<M>>)
    requires Lawful(k) && Inv(k, w)
    ensures Inv(k, Run(k, w, actions))
    decreases |actions|
  {
    if actions != [] {
      NextKeeps(k, w, actions[0]);
      RunKeeps(k, Next(k, w, actions[0]), actions[1..]);
    }
  }

  // ---------------------------------------------------------------------------------------------
  // What that means

  /** Success: memory, file and everything that survives a power loss are the outcome. */
  lemma SuccessReachesDisk<S(!new), J(!new), M(!new)>(k: Model<S, J, M>, w: World<S, J, M>, m: M)
    requires Lawful(k) && Inv(k, w) && w.phase.Ready?
    requires k.apply(w.memory, m).Some? && k.valid(k.apply(w.memory, m).value)
    ensures var w' := Run(k, w, [Mutate(m), Proceed, Proceed]);
      && w'.phase.Ready? && w'.memory == w'.acked == k.apply(w.memory, m).value
      && Loads(k, w'.file.content) == Some(k.normal(w'.memory))
      && w'.survivors == [w'.file]
  {
    var all: seq<Action<M>> := [Mutate(m), Proceed, Proceed];
    var w1 := Next(k, w, all[0]);
    var w2 := Next(k, w1, Proceed);
    assert all[1..][0] == all[1..][1..][0] == Proceed && all[1..][1..][1..] == [];
    assert Run(k, w, all) == Run(k, w1, all[1..]) == Run(k, w2, all[1..][1..]) == Run(k, Next(k, w2, Proceed), []);
  }

  /** Failure: readers notice nothing, and the file has moved only if the rename had happened. */
  lemma FailureIsInvisible<S(!new), J(!new), M(!new)>(k: Model<S, J, M>, w: World<S, J, M>)
    requires Lawful(k) && Inv(k, w) && w.phase.Committing?
    ensures var w' := Next(k, w, Fail);
      && w'.phase.Ready? && w'.memory == w.memory && w'.acked == w.acked && w'.file == w.file
      && (w.phase.write.stage == Renamed ==>
          Loads(k, w'.file.content) == Some(k.normal(w.phase.write.candidate))
          && k.apply(w'.memory, w.phase.mutation) == Some(w.phase.write.candidate))
  {
  }

  /** What readers get to see was in the file before they could see it. */
  lemma PublishedWasOnDisk<S(!new), J(!new), M(!new)>(k: Model<S, J, M>, w: World<S, J, M>, a: Action<M>)
    requires Lawful(k) && Inv(k, w) && Published(Next(k, w, a)) && (Next(k, w, a).memory != w.memory || !Published(w))
    ensures Loads(k, w.file.content) == Some(k.normal(Next(k, w, a).memory))
  {
  }

  /** A directory sync fails after the rename of a mutation nowhere in this run. */
  predicate EverySyncSucceeds<S, J, M>(k: Model<S, J, M>, w: World<S, J, M>, actions: seq<Action<M>>)
    decreases |actions|
  {
    actions == [] ||
    (!(actions[0].Fail? && w.phase.Committing? && w.phase.write.stage == Renamed)
     && EverySyncSucceeds(k, Next(k, w, actions[0]), actions[1..]))
  }

  /** Between operations the file holds exactly what readers see. */
  predicate InStep<S(==), J, M>(k: Model<S, J, M>, w: World<S, J, M>) {
    w.phase.Ready? || (w.phase.Committing? && w.phase.write.stage == Writing) ==>
      Loads(k, w.file.content) == Some(k.normal(w.memory))
  }

  /** Only a failed directory sync lets file and memory drift apart, however often the program stops. */
  lemma {:induction false} InStepUnlessSyncFails<S(!new), J(!new), M(!new)>(
      k: Model<S, J, M>, w: World<S, J, M>, actions: seq<Action<M>>)
    requires Lawful(k) && Inv(k, w) && InStep(k, w) && EverySyncSucceeds(k, w, actions)
    ensures InStep(k, Run(k, w, actions))
    decreases |actions|
  {
    if actions != [] {
      NextKeeps(k, w, actions[0]);
      StaysInStep(k, w, actions[0]);
      InStepUnlessSyncFails(k, Next(k, w, actions[0]), actions[1..]);
    }
  }

  lemma StaysInStep<S(!new), J(!new), M(!new)>(k: Model<S, J, M>, w: World<S, J, M>, a: Action<M>)
    requires Lawful(k) && Inv(k, w) && InStep(k, w)
    requires !(a.Fail? && w.phase.Committing? && w.phase.write.stage == Renamed)
    ensures InStep(k, Next(k, w, a))
  {
  }

  /** A file that cannot be loaded is never written to, whatever is tried. */
  lemma {:induction false} UnloadableIsUntouched<S, J, M>(k: Model<S, J, M>, w: World<S, J, M>, actions: seq<Action<M>>)
    requires w.phase.Closed? && Loads(k, w.file.content).None? && w.survivors == [w.file]
    ensures Run(k, w, actions) == w
    decreases |actions|
  {
    if actions != [] {
      UnloadableIsUntouched(k, w, actions[1..]);
    }
  }
}
