/** The file-backed store: the commit protocol over store states and their snapshots. */
module JsonFiles {
  import opened Prelude
  import opened Domain
  import opened Stores
  import opened StoreOps
  import opened StoreProofs
  import opened Snapshots
  import opened SnapshotRoundTrip
  import opened CommitProtocol

  datatype Timed = Timed(mutation: Mutation, now: Timestamp)

  type StoreFile = Content<JsonSnapshot>

  function Outcome(s: StoreState, t: Timed): Option<StoreState> {
    match Apply(s, t.mutation, t.now)
    case Ok(s') => Some(s')
    case Err(_) => None
  }

  /** The file form of a state; only consistent states are ever saved. */
  ghost function Save(s: StoreState): JsonSnapshot {
    if Consistent(s) then Saved(s) else JsonSnapshot(0, [], [], [], [], [], [], [])
  }

  function Load(j: JsonSnapshot): Option<StoreState> {
    match FromSnapshot(j)
    case Ok(s) => Some(s)
    case Err(_) => None
  }

  ghost function JsonStore(): Model<StoreState, JsonSnapshot, Timed> {
    Model(
      EMPTY_STATE,
      s => Consistent(s),
      (s, t) => Outcome(s, t),
      s => DropEmptyOrders(s),
      s => Save(s),
      (j: JsonSnapshot) => Load(j),
      (j: JsonSnapshot) => j.version < SNAPSHOT_VERSION)
  }

  lemma NothingIsConsistent()
    ensures Consistent(EMPTY_STATE)
    ensures DropEmptyOrders(EMPTY_STATE) == EMPTY_STATE
  {
  }

  lemma LoadGives(j: JsonSnapshot)
    ensures Load(j).Some? ==> Consistent(Load(j).value) && DropEmptyOrders(Load(j).value) == Load(j).value
  {
    if FromSnapshot(j).Ok? {
      LoadedIsConsistent(j);
    }
  }

  lemma LoadUndoesSave(s: StoreState)
    requires Consistent(s)
    ensures Load(Save(s)) == Some(DropEmptyOrders(s))
  {
    LoadInvertsSave(s);
  }

  /** What the protocol asks of its states: the round trip and the soundness of loading. */
  lemma StoreIsLawful()
    ensures Lawful(JsonStore())
  {
    NothingIsConsistent();
    forall j: JsonSnapshot {
      LoadGives(j);
    }
    forall s: StoreState | Consistent(s) {
      LoadUndoesSave(s);
    }
  }

  /** Validation at commit accepts exactly the outcomes that are not one of the four exceptions. */
  lemma CommitRefusesTheExceptions(s: StoreState, t: Timed)
    requires Consistent(s) && Outcome(s, t).Some?
    ensures Keyed(Outcome(s, t).value)
    ensures FromState(Outcome(s, t).value).Ok? <==> !Breaks(s, t.mutation)
    ensures Consistent(Outcome(s, t).value) <==> !Breaks(s, t.mutation)
  {
    LocalChecksSuffice(s, t.mutation, t.now);
  }

  ghost predicate SurvivorOk(acked: StoreState, v: Version<StoreState, JsonSnapshot, Timed>) {
    && Loads(JsonStore(), v.content).Some?
    && Consistent(Loads(JsonStore(), v.content).value)
    && Loads(JsonStore(), v.content).value == DropEmptyOrders(v.state)
    && Replay(JsonStore(), acked, v.trail) == Some(v.state)
  }

  lemma SoundIsOk(acked: StoreState, v: Version<StoreState, JsonSnapshot, Timed>)
    requires Sound(JsonStore(), acked, v)
    ensures SurvivorOk(acked, v)
  {
    DroppingKeepsConsistent(v.state);
  }

  ghost predicate Safe(w: World<StoreState, JsonSnapshot, Timed>) {
    && SurvivorOk(w.acked, w.file)
    && (forall i | 0 <= i < |w.survivors| :: SurvivorOk(w.acked, w.survivors[i]))
    && (Published(w) ==> Consistent(w.memory) && HoldsOrAhead(JsonStore(), w.memory, w.file))
  }

  /**
   In every run, with failures and crashes anywhere: the file, and everything it may fall back to
   after a power loss, loads to a consistent state that came from the last acknowledged one by
   accepted mutations, so nothing acknowledged is lost; readers see consistent states only, and the
   file holds what they see or is one mutation ahead of it.
   */
  lemma EveryRunIsSafe(c: StoreFile, actions: seq<Action<Timed>>)
    requires Loads(JsonStore(), c).Some?
    ensures Safe(Run(JsonStore(), Start(JsonStore(), c), actions))
  {
    StoreIsLawful();
    StartInv(JsonStore(), c);
    RunKeeps(JsonStore(), Start(JsonStore(), c), actions);
    InvIsSafe(Run(JsonStore(), Start(JsonStore(), c), actions));
  }

  lemma InvIsSafe(w: World<StoreState, JsonSnapshot, Timed>)
    requires Inv(JsonStore(), w)
    ensures Safe(w)
  {
    SoundIsOk(w.acked, w.file);
    forall i | 0 <= i < |w.survivors|
      ensures SurvivorOk(w.acked, w.survivors[i])
    {
      SoundIsOk(w.acked, w.survivors[i]);
    }
  }

  /**
   A mutation on a running store either is refused and changes nothing, exactly when its checks
   fail or it is one of the four exceptions, or, with the writes succeeding, ends with memory, file
   and everything a power loss can leave holding its outcome.
   */
  lemma MutationReachesDiskOrNothing(w: World<StoreState, JsonSnapshot, Timed>, t: Timed)
    requires Inv(JsonStore(), w) && w.phase.Ready?
    ensures var k := JsonStore();
      var w' := Run(k, w, [Mutate(t), Proceed, Proceed]);
      if Outcome(w.memory, t).Some? && !Breaks(w.memory, t.mutation) then
        && w'.phase.Ready? && w'.memory == w'.acked == Outcome(w.memory, t).value
        && Loads(k, w'.file.content) == Some(DropEmptyOrders(w'.memory))
        && w'.survivors == [w'.file]
      else w' == w
  {
    var k := JsonStore();
    StoreIsLawful();
    if Outcome(w.memory, t).Some? {
      CommitRefusesTheExceptions(w.memory, t);
    }
    if Outcome(w.memory, t).Some? && !Breaks(w.memory, t.mutation) {
      SuccessReachesDisk(k, w, t);
    } else {
      RefusedRun(k, w, t);
    }
  }

  lemma RefusedRun(k: Model<StoreState, JsonSnapshot, Timed>, w: World<StoreState, JsonSnapshot, Timed>, t: Timed)
    requires w.phase.Ready? && Mutated(k, w, t) == w
    ensures Run(k, w, [Mutate(t), Proceed, Proceed]) == w
  {
    var all: seq<Action<Timed>> := [Mutate(t), Proceed, Proceed];
    assert all[1..][0] == all[1..][1..][0] == Proceed && all[1..][1..][1..] == [];
    assert Run(k, w, all) == Run(k, w, all[1..]) == Run(k, w, all[1..][1..]) == Run(k, w, []);
  }
}
