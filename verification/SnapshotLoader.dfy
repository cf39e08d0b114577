/** Loading a snapshot with its loops, one list after another. */
module SnapshotLoader {
  import opened Prelude
  import opened Domain
  import opened Stores
  import opened StoreOps
  import opened StoreValidator
  import opened Snapshots
  import opened SnapshotRoundTrip

  method File<K(==), T>(pairs: seq<(K, T)>) returns (r: Option<map<K, T>>)
    ensures r == Filed(pairs, map[])
  {
    var filed: map<K, T> := map[];
    var i := 0;
    while i < |pairs|
      invariant 0 <= i <= |pairs|
      invariant Filed(pairs[i..], filed) == Filed(pairs, map[])
    {
      assert pairs[i..][1..] == pairs[i + 1..];
      if pairs[i].0 in filed {
        return None;
      }
      filed := filed[pairs[i].0 := pairs[i].1];
      i := i + 1;
    }
    r := Some(filed);
  }

  method Group(pairs: seq<(ThreadId, nat)>) returns (order: map<ThreadId, seq<nat>>)
    ensures order == Grouped(pairs, map[])
  {
    order := map[];
    var i := 0;
    while i < |pairs|
      invariant 0 <= i <= |pairs|
      invariant Grouped(pairs[i..], order) == Grouped(pairs, map[])
    {
      assert pairs[i..][1..] == pairs[i + 1..];
      order := Push(order, pairs[i].0, pairs[i].1);
      i := i + 1;
    }
  }

  method Rebuild(j: JsonSnapshot) returns (r: Option<StoreState>)
    ensures r == Rebuilt(j)
  {
    r := None;
    var projects := File(ProjectPairs(j.projects));
    var threads := File(ThreadPairs(j.threads, j.version));
    if projects == None || threads == None {
      return;
    }
    var workspaces := File(WorkspacePairs(j.workspaces));
    var workspaceByThread := File(WorkspaceOwnerPairs(j.workspaces));
    if workspaces == None || workspaceByThread == None {
      return;
    }
    var messages := File(MessagePairs(j.messages));
    var artifacts := File(ArtifactPairs(j.artifacts));
    var turns := File(TurnPairs(j.turns));
    if messages == None || artifacts == None || turns == None {
      return;
    }
    var processes := File(ProcessPairs(j.processes));
    var processByOrigin := File(OriginPairs(j.processes));
    if processes == None || processByOrigin == None {
      return;
    }
    var messageOrder := Group(MessageOwnerPairs(j.messages));
    var turnOrder := Group(TurnOwnerPairs(j.turns));
    r := Some(StoreState(
      projects.value, threads.value, workspaces.value, workspaceByThread.value, messages.value, messageOrder,
      artifacts.value, turns.value, turnOrder, processes.value, processByOrigin.value));
  }

  /** Versions, duplicates and the integrity of the whole are checked; what comes out is always consistent. */
  method Load(j: JsonSnapshot) returns (r: Result<StoreState, StoreError>)
    ensures r == FromSnapshot(j)
    ensures r.Ok? ==> Consistent(r.value)
  {
    if !SupportedVersion(j) {
      return Err(InvalidState);
    }
    var state := Rebuild(j);
    if state == None {
      return Err(InvalidState);
    }
    RebuiltKeyed(j);
    var ok := ValidateStoreState(state.value);
    r := if ok then Ok(state.value) else Err(InvalidState);
  }
}
