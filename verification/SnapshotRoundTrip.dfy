/** Loading inverts saving, saved files are canonical, and migration happens once. */
module SnapshotRoundTrip {
  import opened Prelude
  import opened Domain
  import opened Stores
  import opened StoreOps
  import opened StoreProofs
  import opened Snapshots
  import opened SnapshotProofs

  /** The same state without the lists that name nothing. */
  function DropEmptyOrders(s: StoreState): StoreState {
    s.(messageOrder := NonEmpty(s.messageOrder), turnOrder := NonEmpty(s.turnOrder))
  }

  lemma NonEmptyOrderOk(threads: set<ThreadId>, order: map<ThreadId, seq<nat>>, owner: map<nat, ThreadId>)
    requires OrderOk(threads, order, owner)
    ensures OrderOk(threads, NonEmpty(order), owner)
  {
    forall id | id in owner
      ensures owner[id] in NonEmpty(order) && id in NonEmpty(order)[owner[id]]
    {
      assert id in order[owner[id]];
    }
  }

  lemma DroppingKeepsConsistent(s: StoreState)
    requires Consistent(s)
    ensures Consistent(DropEmptyOrders(s))
  {
    NonEmptyOrderOk(s.threads.Keys, s.messageOrder, MessageOwners(s.messages));
    NonEmptyOrderOk(s.threads.Keys, s.turnOrder, TurnOwners(s.turns));
    LinksExtend(s, DropEmptyOrders(s));
  }

  // ---------------------------------------------------------------------------------------------
  // Each list reloads to the map it was saved from

  lemma ProjectsReload(m: map<ProjectId, Project>)
    requires ProjectsKeyed(m)
    ensures Filed(ProjectPairs(ByCreation(m, ProjectTimes(m))), map[]) == Some(m)
  {
    SortedEnumerates(m, ProjectTimes(m));
    KeyedListing(ProjectPairs(ByCreation(m, ProjectTimes(m))), SortedIds(ProjectTimes(m)), m);
  }

  lemma ThreadsReload(m: map<ThreadId, Thread>)
    requires ThreadsKeyed(m)
    ensures Filed(ThreadPairs(ByCreation(m, ThreadTimes(m)), SNAPSHOT_VERSION), map[]) == Some(m)
  {
    SortedEnumerates(m, ThreadTimes(m));
    KeyedListing(ThreadPairs(ByCreation(m, ThreadTimes(m)), SNAPSHOT_VERSION), SortedIds(ThreadTimes(m)), m);
  }

  lemma WorkspacesReload(m: map<WorkspaceId, Workspace>, threads: map<ThreadId, Thread>,
                         index: map<ThreadId, WorkspaceId>)
    requires WorkspacesKeyed(m) && WorkspacesOk(threads, m, index)
    ensures Filed(WorkspacePairs(ByCreation(m, WorkspaceTimes(m))), map[]) == Some(m)
    ensures Filed(WorkspaceOwnerPairs(ByCreation(m, WorkspaceTimes(m))), map[]) == Some(index)
  {
    var ids := SortedIds(WorkspaceTimes(m));
    SortedEnumerates(m, WorkspaceTimes(m));
    KeyedListing(WorkspacePairs(ByCreation(m, WorkspaceTimes(m))), ids, m);
    var keyOf := map w | w in m :: m[w].threadId;
    IndexListing(WorkspaceOwnerPairs(ByCreation(m, WorkspaceTimes(m))), ids, keyOf, index);
  }

  lemma ArtifactsReload(m: map<ArtifactId, Artifact>)
    requires ArtifactsKeyed(m)
    ensures Filed(ArtifactPairs(ByCreation(m, ArtifactTimes(m))), map[]) == Some(m)
  {
    SortedEnumerates(m, ArtifactTimes(m));
    KeyedListing(ArtifactPairs(ByCreation(m, ArtifactTimes(m))), SortedIds(ArtifactTimes(m)), m);
  }

  lemma ProcessesReload(m: map<ProcessId, ManagedProcess>, index: map<ProcessOrigin, ProcessId>)
    requires ProcessesKeyed(m) && ProcessIndexOk(m, index)
    ensures Filed(ProcessPairs(ByCreation(m, ProcessTimes(m))), map[]) == Some(m)
    ensures Filed(OriginPairs(ByCreation(m, ProcessTimes(m))), map[]) == Some(index)
  {
    var ids := SortedIds(ProcessTimes(m));
    SortedEnumerates(m, ProcessTimes(m));
    KeyedListing(ProcessPairs(ByCreation(m, ProcessTimes(m))), ids, m);
    var keyOf := map p | p in m :: m[p].origin;
    IndexListing(OriginPairs(ByCreation(m, ProcessTimes(m))), ids, keyOf, index);
  }

  lemma AscendingListsThreads(threads: map<ThreadId, Thread>)
    ensures NoDuplicates(AscendingThreads(threads))
    ensures forall t :: t in AscendingThreads(threads) <==> t in threads
  {
    var zero: map<nat, Timestamp> := map t | t in threads :: 0;
    SortedIdsIsSorting(zero);
    assert zero.Keys == threads.Keys;
  }

  lemma FlatEnumerates<T>(threads: map<ThreadId, Thread>, order: map<ThreadId, seq<nat>>, owner: map<nat, ThreadId>,
                          m: map<nat, T>)
    requires OrderOk(threads.Keys, order, owner) && owner.Keys == m.Keys
    ensures Enumerates(FlatIds(AscendingThreads(threads), order), m)
  {
    AscendingListsThreads(threads);
    FlatIdsOwned(AscendingThreads(threads), threads.Keys, order, owner);
  }

  lemma AmongAll(all: set<ThreadId>, order: map<ThreadId, seq<nat>>, threads: seq<ThreadId>)
    requires order.Keys <= all && forall t :: t in threads <==> t in all
    ensures map[] + Among(order, threads) == NonEmpty(order)
  {
  }

  lemma OrdersRegroup(threads: map<ThreadId, Thread>, order: map<ThreadId, seq<nat>>, owner: map<nat, ThreadId>)
    requires OrderOk(threads.Keys, order, owner)
    requires forall i | 0 <= i < |FlatIds(AscendingThreads(threads), order)| ::
      FlatIds(AscendingThreads(threads), order)[i] in owner
    ensures Grouped(OwnerPairs(FlatIds(AscendingThreads(threads), order), owner), map[]) == NonEmpty(order)
  {
    AscendingListsThreads(threads);
    GroupedFlat(AscendingThreads(threads), threads.Keys, order, owner, map[]);
    AmongAll(threads.Keys, order, AscendingThreads(threads));
  }

  lemma MessagesReload(threads: map<ThreadId, Thread>, order: map<ThreadId, seq<MessageId>>, m: map<MessageId, Message>)
    requires MessagesKeyed(m) && OrderOk(threads.Keys, order, MessageOwners(m))
    requires forall t, i | t in order && 0 <= i < |order[t]| :: order[t][i] in m
    ensures var list := InOrder(AscendingThreads(threads), order, m);
      && Filed(MessagePairs(list), map[]) == Some(m)
      && Grouped(MessageOwnerPairs(list), map[]) == NonEmpty(order)
  {
    var ids := FlatIds(AscendingThreads(threads), order);
    InOrderIsListing(AscendingThreads(threads), order, m);
    FlatEnumerates(threads, order, MessageOwners(m), m);
    var list := Listing(ids, m);
    KeyedListing(MessagePairs(list), ids, m);
    OrdersRegroup(threads, order, MessageOwners(m));
    assert MessageOwnerPairs(list) == OwnerPairs(ids, MessageOwners(m));
  }

  lemma TurnsReload(threads: map<ThreadId, Thread>, order: map<ThreadId, seq<TurnId>>, m: map<TurnId, Turn>)
    requires TurnsKeyed(m) && OrderOk(threads.Keys, order, TurnOwners(m))
    requires forall t, i | t in order && 0 <= i < |order[t]| :: order[t][i] in m
    ensures var list := InOrder(AscendingThreads(threads), order, m);
      && Filed(TurnPairs(list), map[]) == Some(m)
      && Grouped(TurnOwnerPairs(list), map[]) == NonEmpty(order)
  {
    var ids := FlatIds(AscendingThreads(threads), order);
    InOrderIsListing(AscendingThreads(threads), order, m);
    FlatEnumerates(threads, order, TurnOwners(m), m);
    var list := Listing(ids, m);
    KeyedListing(TurnPairs(list), ids, m);
    OrdersRegroup(threads, order, TurnOwners(m));
    assert TurnOwnerPairs(list) == OwnerPairs(ids, TurnOwners(m));
  }

  // ---------------------------------------------------------------------------------------------
  // The round trip

  lemma SavedRecords(s: StoreState)
    requires Consistent(s)
    ensures var j := Saved(s);
      && Filed(ProjectPairs(j.projects), map[]) == Some(s.projects)
      && Filed(ThreadPairs(j.threads, j.version), map[]) == Some(s.threads)
      && Filed(ArtifactPairs(j.artifacts), map[]) == Some(s.artifacts)
  {
    ProjectsReload(s.projects);
    ThreadsReload(s.threads);
    ArtifactsReload(s.artifacts);
  }

  lemma SavedIndexes(s: StoreState)
    requires Consistent(s)
    ensures var j := Saved(s);
      && Filed(WorkspacePairs(j.workspaces), map[]) == Some(s.workspaces)
      && Filed(WorkspaceOwnerPairs(j.workspaces), map[]) == Some(s.workspaceByThread)
      && Filed(ProcessPairs(j.processes), map[]) == Some(s.processes)
      && Filed(OriginPairs(j.processes), map[]) == Some(s.processByOrigin)
  {
    WorkspacesReload(s.workspaces, s.threads, s.workspaceByThread);
    ProcessesReload(s.processes, s.processByOrigin);
  }

  lemma SavedOrders(s: StoreState)
    requires Consistent(s)
    ensures var j := Saved(s);
      && Filed(MessagePairs(j.messages), map[]) == Some(s.messages)
      && Grouped(MessageOwnerPairs(j.messages), map[]) == NonEmpty(s.messageOrder)
      && Filed(TurnPairs(j.turns), map[]) == Some(s.turns)
      && Grouped(TurnOwnerPairs(j.turns), map[]) == NonEmpty(s.turnOrder)
  {
    OrdersNameEntries(s);
    MessagesReload(s.threads, s.messageOrder, s.messages);
    TurnsReload(s.threads, s.turnOrder, s.turns);
  }

  lemma SavedRebuilds(s: StoreState)
    requires Consistent(s)
    ensures Rebuilt(Saved(s)) == Some(DropEmptyOrders(s))
  {
    SavedRecords(s);
    SavedIndexes(s);
    SavedOrders(s);
  }

  /** Loading what was saved gives the same state, both indexes and all lists included. */
  lemma LoadInvertsSave(s: StoreState)
    requires Consistent(s)
    ensures FromState(s) == Ok(Saved(s))
    ensures FromSnapshot(Saved(s)) == Ok(DropEmptyOrders(s))
  {
    SavedRebuilds(s);
    DroppingKeepsConsistent(s);
  }

  // ---------------------------------------------------------------------------------------------
  // What loading accepts and gives

  /** No identifier, workspace owner or process origin occurs twice. */
  predicate Unambiguous(j: JsonSnapshot) {
    && DistinctKeys(ProjectPairs(j.projects)) && DistinctKeys(ThreadPairs(j.threads, j.version))
    && DistinctKeys(WorkspacePairs(j.workspaces)) && DistinctKeys(WorkspaceOwnerPairs(j.workspaces))
    && DistinctKeys(MessagePairs(j.messages)) && DistinctKeys(ArtifactPairs(j.artifacts))
    && DistinctKeys(TurnPairs(j.turns))
    && DistinctKeys(ProcessPairs(j.processes)) && DistinctKeys(OriginPairs(j.processes))
  }

  lemma RebuiltExactly(j: JsonSnapshot)
    ensures Rebuilt(j).Some? <==> Unambiguous(j)
  {
    FiledFails(ProjectPairs(j.projects), map[]);
    FiledFails(ThreadPairs(j.threads, j.version), map[]);
    FiledFails(WorkspacePairs(j.workspaces), map[]);
    FiledFails(WorkspaceOwnerPairs(j.workspaces), map[]);
    FiledFails(MessagePairs(j.messages), map[]);
    FiledFails(ArtifactPairs(j.artifacts), map[]);
    FiledFails(TurnPairs(j.turns), map[]);
    FiledFails(ProcessPairs(j.processes), map[]);
    FiledFails(OriginPairs(j.processes), map[]);
  }

  lemma {:induction false} GroupedNonEmpty(pairs: seq<(ThreadId, nat)>, order: map<ThreadId, seq<nat>>)
    requires NonEmpty(order) == order
    ensures NonEmpty(Grouped(pairs, order)) == Grouped(pairs, order)
    decreases |pairs|
  {
    if pairs != [] {
      var order' := Push(order, pairs[0].0, pairs[0].1);
      assert forall t | t in order :: t in NonEmpty(order);
      assert NonEmpty(order') == order';
      GroupedNonEmpty(pairs[1..], order');
    }
  }

  lemma FiledKeyed<T>(pairs: seq<(nat, T)>, idOf: T -> nat)
    requires forall i | 0 <= i < |pairs| :: idOf(pairs[i].1) == pairs[i].0
    requires Filed(pairs, map[]).Some?
    ensures var m := Filed(pairs, map[]).value; forall k | k in m :: idOf(m[k]) == k
  {
    FiledFails(pairs, map[]);
    var m := Filed(pairs, map[]).value;
    forall k | k in m
      ensures idOf(m[k]) == k
    {
      assert HasPair(pairs, k, m[k]);
    }
  }

  lemma RebuiltTalkKeyed(j: JsonSnapshot)
    requires Rebuilt(j).Some?
    ensures var s := Rebuilt(j).value; MessagesKeyed(s.messages) && ArtifactsKeyed(s.artifacts) && TurnsKeyed(s.turns)
  {
    FiledKeyed(MessagePairs(j.messages), (m: Message) => m.id);
    FiledKeyed(ArtifactPairs(j.artifacts), (a: Artifact) => a.id);
    FiledKeyed(TurnPairs(j.turns), (t: Turn) => t.id);
  }

  lemma RebuiltOwnersKeyed(j: JsonSnapshot)
    requires Rebuilt(j).Some?
    ensures var s := Rebuilt(j).value;
      ProjectsKeyed(s.projects) && ThreadsKeyed(s.threads) && WorkspacesKeyed(s.workspaces)
        && ProcessesKeyed(s.processes)
  {
    FiledKeyed(ProjectPairs(j.projects), (p: Project) => p.id);
    FiledKeyed(ThreadPairs(j.threads, j.version), (t: Thread) => t.id);
    FiledKeyed(WorkspacePairs(j.workspaces), (w: Workspace) => w.id);
    FiledKeyed(ProcessPairs(j.processes), (p: ManagedProcess) => p.id);
  }

  lemma RebuiltKeyed(j: JsonSnapshot)
    requires Rebuilt(j).Some?
    ensures Keyed(Rebuilt(j).value)
  {
    RebuiltTalkKeyed(j);
    RebuiltOwnersKeyed(j);
  }

  /** Only consistent states without empty lists are ever loaded. */
  lemma LoadedIsConsistent(j: JsonSnapshot)
    requires FromSnapshot(j).Ok?
    ensures Consistent(FromSnapshot(j).value)
    ensures DropEmptyOrders(FromSnapshot(j).value) == FromSnapshot(j).value
  {
    RebuiltKeyed(j);
    GroupedNonEmpty(MessageOwnerPairs(j.messages), map[]);
    GroupedNonEmpty(TurnOwnerPairs(j.turns), map[]);
  }

  /** Whatever version a state was loaded from, once saved it loads unchanged ever after. */
  lemma MigrationHappensOnce(j: JsonSnapshot)
    requires FromSnapshot(j).Ok?
    ensures Consistent(FromSnapshot(j).value)
    ensures FromSnapshot(Saved(FromSnapshot(j).value)) == FromSnapshot(j)
  {
    LoadedIsConsistent(j);
    LoadInvertsSave(FromSnapshot(j).value);
  }

  predicate ReadAs(version: nat, saved: Thread, loaded: Thread) {
    if version == SNAPSHOT_VERSION then loaded == saved
    else
      && loaded.status != Archived
      && loaded.workflow == (if saved.status == Archived then Handled else Deferred)
      && (saved.status != Archived ==> loaded.status == saved.status)
      && loaded.(status := saved.status, workflow := saved.workflow) == saved
  }

  /** Old files: archived threads become handled ones, every other thread is deferred, nothing else changes. */
  lemma MigrationMeaning(j: JsonSnapshot, id: ThreadId)
    requires FromSnapshot(j).Ok? && id in FromSnapshot(j).value.threads
    ensures exists i ::
      0 <= i < |j.threads| && j.threads[i].id == id
        && ReadAs(j.version, j.threads[i], FromSnapshot(j).value.threads[id])
  {
    var i := FiledThread(j.threads, j.version, FromSnapshot(j).value.threads, id);
  }

  lemma FiledThread(l: seq<Thread>, version: nat, threads: map<ThreadId, Thread>, id: ThreadId) returns (i: nat)
    requires Filed(ThreadPairs(l, version), map[]) == Some(threads) && id in threads && version <= SNAPSHOT_VERSION
    ensures i < |l| && l[i].id == id && ReadAs(version, l[i], threads[id])
  {
    var pairs := ThreadPairs(l, version);
    FiledFails(pairs, map[]);
    assert HasPair(pairs, id, threads[id]);
    i :| 0 <= i < |pairs| && pairs[i] == (id, threads[id]);
    assert threads[id] == Migrated(version, l[i]);
  }

  /** Every saved thread is loaded, with nothing changed but by the migration. */
  lemma NoThreadIsLost(j: JsonSnapshot, i: nat)
    requires FromSnapshot(j).Ok? && i < |j.threads|
    ensures var s := FromSnapshot(j).value;
      j.threads[i].id in s.threads && ReadAs(j.version, j.threads[i], s.threads[j.threads[i].id])
  {
    var pairs := ThreadPairs(j.threads, j.version);
    FiledFails(pairs, map[]);
    FiledHolds(pairs, map[]);
    assert pairs[i] == (j.threads[i].id, Migrated(j.version, j.threads[i]));
  }

  // ---------------------------------------------------------------------------------------------
  // Canonical files

  lemma {:induction false} InOrderSkipsEmpty<T>(threads: seq<ThreadId>, order: map<ThreadId, seq<nat>>, m: map<nat, T>)
    requires forall t, i | t in order && 0 <= i < |order[t]| :: order[t][i] in m
    ensures InOrder(threads, NonEmpty(order), m) == InOrder(threads, order, m)
  {
    if threads != [] {
      InOrderSkipsEmpty(threads[1..], order, m);
    }
  }

  /** Two states have the same file exactly when they differ at most in empty lists. */
  lemma SavedIsCanonical(a: StoreState, b: StoreState)
    requires Consistent(a) && Consistent(b)
    ensures Saved(a) == Saved(b) <==> DropEmptyOrders(a) == DropEmptyOrders(b)
  {
    if Saved(a) == Saved(b) {
      SavedRebuilds(a);
      SavedRebuilds(b);
    }
    if DropEmptyOrders(a) == DropEmptyOrders(b) {
      SavedWithoutEmpty(a);
      SavedWithoutEmpty(b);
    }
  }

  lemma SavedWithoutEmpty(s: StoreState)
    requires Consistent(s)
    ensures Consistent(DropEmptyOrders(s))
    ensures Saved(DropEmptyOrders(s)) == Saved(s)
  {
    DroppingKeepsConsistent(s);
    OrdersNameEntries(s);
    InOrderSkipsEmpty(AscendingThreads(s.threads), s.messageOrder, s.messages);
    InOrderSkipsEmpty(AscendingThreads(s.threads), s.turnOrder, s.turns);
  }
}
