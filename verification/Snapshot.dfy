/** The durable form of the store: sorted lists without indexes, and how a state is rebuilt from it. */
module Snapshots {
  import opened Prelude
  import opened Domain
  import opened Stores
  import opened StoreOps

  const SNAPSHOT_VERSION: nat := 5
  const OLDEST_SUPPORTED_VERSION: nat := 1

  datatype JsonSnapshot = JsonSnapshot(
    version: nat,
    projects: seq<Project>,
    threads: seq<Thread>,
    workspaces: seq<Workspace>,
    messages: seq<Message>,
    artifacts: seq<Artifact>,
    turns: seq<Turn>,
    processes: seq<ManagedProcess>)

  // ---------------------------------------------------------------------------------------------
  // Sorting identifiers by creation time, then identifier

  predicate Before(created: map<nat, Timestamp>, a: nat, b: nat)
    requires a in created && b in created
  {
    created[a] < created[b] || (created[a] == created[b] && a < b)
  }

  ghost predicate First(created: map<nat, Timestamp>, a: nat) {
    a in created && forall b | b in created && b != a :: Before(created, a, b)
  }

  lemma {:induction false} FirstExists(created: map<nat, Timestamp>)
    requires created.Keys != {}
    ensures exists a :: First(created, a)
    decreases |created.Keys|
  {
    var k :| k in created;
    var rest := created - {k};
    assert rest.Keys == created.Keys - {k};
    if rest.Keys == {} {
      assert forall b | b in created :: b == k || b in rest.Keys;
      assert First(created, k);
    } else {
      FirstExists(rest);
      var a :| First(rest, a);
      var first := if Before(created, k, a) then k else a;
      forall b | b in created && b != first
        ensures Before(created, first, b)
      {
        if b != k && b != a {
          assert b in rest && Before(rest, a, b);
        }
      }
      assert First(created, first);
    }
  }

  ghost function SortedIds(created: map<nat, Timestamp>): seq<nat>
    decreases |created.Keys|
  {
    if created.Keys == {} then []
    else
      FirstExists(created);
      var a :| First(created, a);
      assert (created - {a}).Keys == created.Keys - {a};
      [a] + SortedIds(created - {a})
  }

  /** A listing of all identifiers in order, each once. */
  ghost predicate IsSorting(ids: seq<nat>, created: map<nat, Timestamp>) {
    && (forall k :: k in ids <==> k in created)
    && (forall i, j | 0 <= i < j < |ids| :: ids[i] in created && ids[j] in created && Before(created, ids[i], ids[j]))
  }

  lemma FirstThenSorting(a: nat, rest: seq<nat>, created: map<nat, Timestamp>)
    requires First(created, a) && IsSorting(rest, created - {a})
    ensures IsSorting([a] + rest, created)
  {
    var ids := [a] + rest;
    forall i, j | 0 <= i < j < |ids|
      ensures ids[i] in created && ids[j] in created && Before(created, ids[i], ids[j])
    {
      assert ids[j] == rest[j - 1] && rest[j - 1] in rest;
      if i > 0 {
        assert ids[i] == rest[i - 1];
      }
    }
  }

  lemma {:induction false} SortedIdsIsSorting(created: map<nat, Timestamp>)
    ensures IsSorting(SortedIds(created), created)
    decreases |created.Keys|
  {
    if created.Keys != {} {
      FirstExists(created);
      var a := SortedIds(created)[0];
      assert First(created, a) && (created - {a}).Keys == created.Keys - {a};
      SortedIdsIsSorting(created - {a});
      FirstThenSorting(a, SortedIds(created - {a}), created);
    }
  }

  /** However the values were enumerated, sorting them gives this one list. */
  lemma {:induction false} SortingIsUnique(a: seq<nat>, b: seq<nat>, created: map<nat, Timestamp>)
    requires IsSorting(a, created) && IsSorting(b, created)
    ensures a == b
    decreases |a|
  {
    SomeElement(a);
    SomeElement(b);
    if a != [] && b != [] {
      FirstsAgree(a, b, created);
      var rest := created - {a[0]};
      SortingTail(a, created);
      SortingTail(b, created);
      SortingIsUnique(a[1..], b[1..], rest);
      assert a == [a[0]] + a[1..] && b == [b[0]] + b[1..];
    }
  }

  lemma FirstsAgree(a: seq<nat>, b: seq<nat>, created: map<nat, Timestamp>)
    requires IsSorting(a, created) && IsSorting(b, created) && a != [] && b != []
    ensures a[0] == b[0]
  {
    assert a[0] in b && b[0] in a;
    var i :| 0 <= i < |b| && b[i] == a[0];
    var j :| 0 <= j < |a| && a[j] == b[0];
    assert i > 0 ==> Before(created, b[0], b[i]);
    assert j > 0 ==> Before(created, a[0], a[j]);
  }

  lemma SomeElement(q: seq<nat>)
    ensures q != [] ==> exists k :: k in q
  {
    if q != [] {
      assert q[0] in q;
    }
  }

  lemma SortingTail(a: seq<nat>, created: map<nat, Timestamp>)
    requires IsSorting(a, created) && a != []
    ensures IsSorting(a[1..], created - {a[0]})
  {
    var rest := created - {a[0]};
    assert a == [a[0]] + a[1..];
    forall k
      ensures k in a[1..] <==> k in rest
    {
      if k in a[1..] {
        var j :| 0 <= j < |a[1..]| && a[1..][j] == k;
        assert Before(created, a[0], a[j + 1]);
      }
    }
    forall i, j | 0 <= i < j < |a[1..]|
      ensures a[1..][i] in rest && a[1..][j] in rest && Before(rest, a[1..][i], a[1..][j])
    {
      assert a[1..][i] == a[i + 1] && a[1..][j] == a[j + 1];
      assert a[1..][i] in a[1..] && a[1..][j] in a[1..];
    }
  }

  // ---------------------------------------------------------------------------------------------
  // Saving

  function Listing<T>(ids: seq<nat>, m: map<nat, T>): seq<T>
    requires forall i | 0 <= i < |ids| :: ids[i] in m
  {
    seq(|ids|, i requires 0 <= i < |ids| => m[ids[i]])
  }

  ghost function ByCreation<T>(m: map<nat, T>, created: map<nat, Timestamp>): seq<T>
    requires created.Keys == m.Keys
  {
    SortedIdsIsSorting(created);
    assert forall i | 0 <= i < |SortedIds(created)| :: SortedIds(created)[i] in SortedIds(created);
    Listing(SortedIds(created), m)
  }

  ghost function ProjectTimes(m: map<ProjectId, Project>): (c: map<nat, Timestamp>)
    ensures c.Keys == m.Keys
  {
    map k | k in m :: m[k].createdAt
  }

  ghost function ThreadTimes(m: map<ThreadId, Thread>): (c: map<nat, Timestamp>)
    ensures c.Keys == m.Keys
  {
    map k | k in m :: m[k].createdAt
  }

  ghost function WorkspaceTimes(m: map<WorkspaceId, Workspace>): (c: map<nat, Timestamp>)
    ensures c.Keys == m.Keys
  {
    map k | k in m :: m[k].createdAt
  }

  ghost function ArtifactTimes(m: map<ArtifactId, Artifact>): (c: map<nat, Timestamp>)
    ensures c.Keys == m.Keys
  {
    map k | k in m :: m[k].createdAt
  }

  ghost function ProcessTimes(m: map<ProcessId, ManagedProcess>): (c: map<nat, Timestamp>)
    ensures c.Keys == m.Keys
  {
    map k | k in m :: m[k].createdAt
  }

  /** The entries of the given threads, thread after thread, each in its listed order. */
  function InOrder<T>(threads: seq<ThreadId>, order: map<ThreadId, seq<nat>>, m: map<nat, T>): seq<T>
    requires forall t, i | t in order && 0 <= i < |order[t]| :: order[t][i] in m
  {
    if threads == [] then []
    else (if threads[0] in order then Listing(order[threads[0]], m) else []) + InOrder(threads[1..], order, m)
  }

  /** Thread identifiers in ascending order. */
  ghost function AscendingThreads(threads: map<ThreadId, Thread>): seq<ThreadId> {
    SortedIds(map t | t in threads :: 0)
  }

  ghost function FromState(s: StoreState): Result<JsonSnapshot, StoreError>
    requires Keyed(s)
  {
    if !Integrity(s) then Err(InvalidState)
    else Ok(Saved(s))
  }

  ghost function Saved(s: StoreState): JsonSnapshot
    requires Consistent(s)
  {
    OrdersNameEntries(s);
    var ids := AscendingThreads(s.threads);
    JsonSnapshot(
      SNAPSHOT_VERSION,
      ByCreation(s.projects, ProjectTimes(s.projects)),
      ByCreation(s.threads, ThreadTimes(s.threads)),
      ByCreation(s.workspaces, WorkspaceTimes(s.workspaces)),
      InOrder(ids, s.messageOrder, s.messages),
      ByCreation(s.artifacts, ArtifactTimes(s.artifacts)),
      InOrder(ids, s.turnOrder, s.turns),
      ByCreation(s.processes, ProcessTimes(s.processes)))
  }

  lemma OrdersNameEntries(s: StoreState)
    requires IndexesOk(s)
    ensures forall t, i | t in s.messageOrder && 0 <= i < |s.messageOrder[t]| :: s.messageOrder[t][i] in s.messages
    ensures forall t, i | t in s.turnOrder && 0 <= i < |s.turnOrder[t]| :: s.turnOrder[t][i] in s.turns
  {
    assert MessageOwners(s.messages).Keys == s.messages.Keys && TurnOwners(s.turns).Keys == s.turns.Keys;
  }

  // ---------------------------------------------------------------------------------------------
  // Loading

  /** Files records under their keys one after another; a key seen before is an error. */
  function Filed<K(==), T>(pairs: seq<(K, T)>, m: map<K, T>): Option<map<K, T>>
    decreases |pairs|
  {
    if pairs == [] then Some(m)
    else if pairs[0].0 in m then None
    else Filed(pairs[1..], m[pairs[0].0 := pairs[0].1])
  }

  /** Lists each record under its owner in the order of arrival. */
  function Grouped(pairs: seq<(ThreadId, nat)>, order: map<ThreadId, seq<nat>>): map<ThreadId, seq<nat>>
    decreases |pairs|
  {
    if pairs == [] then order else Grouped(pairs[1..], Push(order, pairs[0].0, pairs[0].1))
  }

  /** Before version 5 threads had no workflow state and archiving was a status. */
  function Migrated(version: nat, t: Thread): Thread {
    if version >= 5 then t
    else if t.status == Archived then t.(status := Idle, workflow := Handled)
    else t.(workflow := Deferred)
  }

  function ProjectPairs(l: seq<Project>): seq<(nat, Project)> { seq(|l|, i requires 0 <= i < |l| => (l[i].id, l[i])) }
  function ThreadPairs(l: seq<Thread>, version: nat): seq<(nat, Thread)> {
    seq(|l|, i requires 0 <= i < |l| => (l[i].id, Migrated(version, l[i])))
  }
  function WorkspacePairs(l: seq<Workspace>): seq<(nat, Workspace)> {
    seq(|l|, i requires 0 <= i < |l| => (l[i].id, l[i]))
  }
  function MessagePairs(l: seq<Message>): seq<(nat, Message)> { seq(|l|, i requires 0 <= i < |l| => (l[i].id, l[i])) }
  function ArtifactPairs(l: seq<Artifact>): seq<(nat, Artifact)> {
    seq(|l|, i requires 0 <= i < |l| => (l[i].id, l[i]))
  }
  function TurnPairs(l: seq<Turn>): seq<(nat, Turn)> { seq(|l|, i requires 0 <= i < |l| => (l[i].id, l[i])) }
  function ProcessPairs(l: seq<ManagedProcess>): seq<(nat, ManagedProcess)> {
    seq(|l|, i requires 0 <= i < |l| => (l[i].id, l[i]))
  }
  function WorkspaceOwnerPairs(l: seq<Workspace>): seq<(ThreadId, nat)> {
    seq(|l|, i requires 0 <= i < |l| => (l[i].threadId, l[i].id))
  }
  function MessageOwnerPairs(l: seq<Message>): seq<(ThreadId, nat)> {
    seq(|l|, i requires 0 <= i < |l| => (l[i].threadId, l[i].id))
  }
  function TurnOwnerPairs(l: seq<Turn>): seq<(ThreadId, nat)> {
    seq(|l|, i requires 0 <= i < |l| => (l[i].threadId, l[i].id))
  }
  function OriginPairs(l: seq<ManagedProcess>): seq<(ProcessOrigin, nat)> {
    seq(|l|, i requires 0 <= i < |l| => (l[i].origin, l[i].id))
  }

  /** The state a snapshot describes, if no identifier, owner or origin occurs twice. */
  function Rebuilt(j: JsonSnapshot): Option<StoreState> {
    var projects := Filed(ProjectPairs(j.projects), map[]);
    var threads := Filed(ThreadPairs(j.threads, j.version), map[]);
    var workspaces := Filed(WorkspacePairs(j.workspaces), map[]);
    var workspaceByThread := Filed(WorkspaceOwnerPairs(j.workspaces), map[]);
    var messages := Filed(MessagePairs(j.messages), map[]);
    var artifacts := Filed(ArtifactPairs(j.artifacts), map[]);
    var turns := Filed(TurnPairs(j.turns), map[]);
    var processes := Filed(ProcessPairs(j.processes), map[]);
    var processByOrigin := Filed(OriginPairs(j.processes), map[]);
    if projects.None? || threads.None? || workspaces.None? || workspaceByThread.None? || messages.None?
       || artifacts.None? || turns.None? || processes.None? || processByOrigin.None? then None
    else Some(StoreState(
      projects.value, threads.value, workspaces.value, workspaceByThread.value,
      messages.value, Grouped(MessageOwnerPairs(j.messages), map[]),
      artifacts.value,
      turns.value, Grouped(TurnOwnerPairs(j.turns), map[]),
      processes.value, processByOrigin.value))
  }

  predicate SupportedVersion(j: JsonSnapshot) {
    && OLDEST_SUPPORTED_VERSION <= j.version <= SNAPSHOT_VERSION
    && (j.version == 1 ==> j.processes == [])
  }

  function FromSnapshot(j: JsonSnapshot): Result<StoreState, StoreError> {
    if !SupportedVersion(j) then Err(InvalidState)
    else
      var rebuilt := Rebuilt(j);
      if rebuilt.None? || !Integrity(rebuilt.value) then Err(InvalidState) else Ok(rebuilt.value)
  }
}
