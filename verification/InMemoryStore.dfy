/** The in-memory store as an object whose maps are updated in place, for the mutations that take several steps. */
module InMemoryStores {
  import opened Prelude
  import opened Domain
  import opened Stores
  import opened StoreOps
  import opened StoreValidator
  import StoreProofs

  /** A mutation that fails leaves the state alone; one that succeeds leaves exactly its outcome. */
  predicate Commits(before: StoreState, after: StoreState, error: Option<StoreError>, outcome: Outcome) {
    match outcome
    case Ok(s) => error == None && after == s
    case Err(e) => error == Some(e) && after == before
  }

  class InMemoryStore {
    var state: StoreState

    constructor ()
      ensures state == EMPTY_STATE
    {
      state := EMPTY_STATE;
    }

    /** Terminal processes lose their association with the deleted project, one after another. */
    method DeleteProject(id: ProjectId) returns (error: Option<StoreError>)
      modifies this
      ensures Commits(old(state), state, error, StoreOps.DeleteProject(old(state), id))
    {
      if id !in state.projects {
        return Some(NotFound(ProjectEntity, id));
      }
      if (exists t :: t in state.threads && ReferencesProject(state.threads[t].references, id))
         || (exists m :: m in state.messages && ReferencesProject(state.messages[m].references, id)) {
        return Some(Conflict);
      }
      if exists p ::
        p in state.processes && state.processes[p].projectId == Some(id) && state.processes[p].status.Active() {
        return Some(Conflict);
      }
      var processes := Detach(state.processes, id);
      state := state.(projects := state.projects - {id}, processes := processes);
      error := None;
    }

    /** Follows the order lists and the process index to remove everything the thread owns. */
    method DeleteThread(id: ThreadId) returns (error: Option<StoreError>)
      modifies this
      ensures Commits(old(state), state, error, StoreOps.DeleteThread(old(state), id))
    {
      var s := state;
      if id !in s.threads {
        return Some(NotFound(ThreadEntity, id));
      }
      if (exists t :: t in s.threads && s.threads[t].id != id && ReferencesThread(s.threads[t].references, id))
         || (exists m ::
               m in s.messages && s.messages[m].threadId != id && ReferencesThread(s.messages[m].references, id)) {
        return Some(Conflict);
      }
      if exists p :: p in s.processes && s.processes[p].threadId == id && s.processes[p].status.Active() {
        return Some(Conflict);
      }
      state := RemoveThread(s, id);
      error := None;
    }

    /** Artifacts shown by the message become unattached; its thread's order list forgets it. */
    method DeleteMessage(id: MessageId) returns (error: Option<StoreError>)
      modifies this
      ensures Commits(old(state), state, error, StoreOps.DeleteMessage(old(state), id))
    {
      var s := state;
      if id !in s.messages {
        return Some(NotFound(MessageEntity, id));
      }
      if exists t :: t in s.turns && s.turns[t].inputMessageId == id {
        return Some(Conflict);
      }
      if (exists t :: t in s.threads && ReferencesMessage(s.threads[t].references, id))
         || (exists m :: m in s.messages && ReferencesMessage(s.messages[m].references, id)) {
        return Some(Conflict);
      }
      var artifacts := Unpresent(s.artifacts, id);
      state := s.(
        messages := s.messages - {id},
        artifacts := artifacts,
        messageOrder := Unlist(s.messageOrder, s.messages[id].threadId, id));
      error := None;
    }

    /** All artifacts or none: a candidate copy is filled, validated as a whole and then swapped in. */
    method InsertArtifacts(added: seq<Artifact>) returns (error: Option<StoreError>)
      requires Keyed(state)
      modifies this
      ensures Commits(old(state), state, error, StoreOps.InsertArtifacts(old(state), added))
    {
      var filed := FileArtifacts(state.artifacts, added);
      if filed == None {
        return Some(Conflict);
      }
      var candidate := state.(artifacts := filed.value);
      StoreProofs.AddArtifactsKeyed(state.artifacts, added);
      var ok := ValidateStoreState(candidate);
      if !ok {
        return Some(InvalidInput);
      }
      state := candidate;
      error := None;
    }

    method InsertTurnInput(input: Message, turn: Turn, added: seq<Artifact>) returns (error: Option<StoreError>)
      requires Keyed(state)
      modifies this
      ensures Commits(old(state), state, error, StoreOps.InsertTurnInput(old(state), input, turn, added))
    {
      if input.role != User || input.threadId != turn.threadId || input.id != turn.inputMessageId
        || input.turnId != Some(turn.id) {
        return Some(InvalidInput);
      }
      if exists i :: 0 <= i < |added| && (added[i].threadId != input.threadId || added[i].messageId != Some(input.id)) {
        return Some(InvalidInput);
      }
      var candidate := state;
      if input.id in candidate.messages || turn.id in candidate.turns {
        return Some(Conflict);
      }
      candidate := AddMessage(candidate, input);
      candidate := AddTurn(candidate, turn);
      var filed := FileArtifacts(candidate.artifacts, added);
      if filed == None {
        return Some(Conflict);
      }
      candidate := candidate.(artifacts := filed.value);
      candidate := candidate.(threads := Touched(candidate.threads, input.threadId, input.createdAt));
      assert Keyed(candidate) by {
        StoreProofs.AddArtifactsKeyed(state.artifacts, added);
      }
      var ok := ValidateStoreState(candidate);
      if !ok {
        return Some(InvalidInput);
      }
      state := candidate;
      error := None;
    }

    method AppendImageGeneration(user: Message, assistant: Message, added: seq<Artifact>)
      returns (error: Option<StoreError>)
      requires Keyed(state)
      modifies this
      ensures Commits(old(state), state, error, StoreOps.AppendImageGeneration(old(state), user, assistant, added))
    {
      if user.role != User || assistant.role != Assistant || user.turnId.Some? || assistant.turnId.Some?
         || user.threadId != assistant.threadId {
        return Some(InvalidInput);
      }
      var candidate := state;
      if user.id in candidate.messages || assistant.id in candidate.messages || user.id == assistant.id {
        return Some(Conflict);
      }
      candidate := AddMessage(candidate, user);
      candidate := AddMessage(candidate, assistant);
      var filed := FileImages(candidate.artifacts, added, assistant);
      if filed.Err? {
        return Some(filed.error);
      }
      candidate := candidate.(
        threads := Touched(candidate.threads, assistant.threadId, assistant.createdAt), artifacts := filed.value);
      assert Keyed(candidate) by {
        StoreProofs.AddImagesKeyed(state.artifacts, added, assistant);
      }
      var ok := ValidateStoreState(candidate);
      if !ok {
        return Some(InvalidInput);
      }
      state := candidate;
      error := None;
    }

    /** Any mutation; those that are one check and one assignment are done here. */
    method Mutate(m: Mutation, now: Timestamp) returns (error: Option<StoreError>)
      requires Consistent(state)
      modifies this
      ensures Commits(old(state), state, error, Apply(old(state), m, now))
      ensures Keyed(state)
      ensures error == None ==> (Integrity(state) <==> !StoreProofs.Breaks(old(state), m))
      ensures error != None ==> state == old(state)
    {
      var outcome := Apply(state, m, now);
      if outcome.Ok? {
        StoreProofs.LocalChecksSuffice(state, m, now);
      }
      if m.MDeleteProject? {
        error := DeleteProject(m.projectId);
      } else if m.MDeleteThread? {
        error := DeleteThread(m.threadId);
      } else if m.MDeleteMessage? {
        error := DeleteMessage(m.messageId);
      } else if m.MInsertArtifacts? {
        error := InsertArtifacts(m.artifacts);
      } else if m.MAppendImageGeneration? {
        error := AppendImageGeneration(m.user, m.assistant, m.artifacts);
      } else if m.MInsertTurnInput? {
        error := InsertTurnInput(m.input, m.turn, m.artifacts);
      } else if outcome.Ok? {
        state := outcome.value;
        error := None;
      } else {
        error := Some(outcome.error);
      }
    }
  }

  /** The removals of `DeleteThread`, once nothing stands against it. */
  method RemoveThread(s: StoreState, id: ThreadId) returns (r: StoreState)
    requires id in s.threads
    ensures r == Cascade(s, id)
  {
    var messages := RemoveListed(s.messages, s.messageOrder, id);
    var turns := RemoveListed(s.turns, s.turnOrder, id);
    var processes, index := RemoveProcesses(s.processes, s.processByOrigin, id);
    r := s.(
      threads := s.threads - {id},
      workspaces := s.workspaces - {s.threads[id].workspaceId},
      workspaceByThread := s.workspaceByThread - {id},
      messages := messages,
      messageOrder := s.messageOrder - {id},
      turns := turns,
      turnOrder := s.turnOrder - {id},
      artifacts := map a | a in s.artifacts && s.artifacts[a].threadId != id :: s.artifacts[a],
      processes := processes,
      processByOrigin := index);
  }

  method Detach(processes: map<ProcessId, ManagedProcess>, id: ProjectId) returns (r: map<ProcessId, ManagedProcess>)
    ensures r == map p | p in processes :: Detached(processes[p], id)
  {
    r := processes;
    var todo := processes.Keys;
    while todo != {}
      invariant todo <= r.Keys == processes.Keys
      invariant forall p | p in r :: r[p] == if p in todo then processes[p] else Detached(processes[p], id)
      decreases todo
    {
      var p :| p in todo;
      if r[p].projectId == Some(id) {
        r := r[p := r[p].(projectId := None)];
      }
      todo := todo - {p};
    }
  }

  method RemoveListed<T>(m: map<nat, T>, order: map<ThreadId, seq<nat>>, id: ThreadId) returns (r: map<nat, T>)
    ensures r == m - Listed(order, id)
  {
    r := m;
    if id in order {
      r := RemoveAll(r, order[id]);
      assert Elements(order[id]) == Listed(order, id);
    }
  }

  method Unpresent(artifacts: map<ArtifactId, Artifact>, id: MessageId) returns (r: map<ArtifactId, Artifact>)
    ensures r == map a | a in artifacts :: Unpresented(artifacts[a], id)
  {
    r := artifacts;
    var todo := artifacts.Keys;
    while todo != {}
      invariant todo <= r.Keys == artifacts.Keys
      invariant forall a | a in r :: r[a] == if a in todo then artifacts[a] else Unpresented(artifacts[a], id)
      decreases todo
    {
      var a :| a in todo;
      if r[a].messageId == Some(id) {
        r := r[a := r[a].(messageId := None)];
      }
      todo := todo - {a};
    }
  }

  method RemoveAll<T>(m: map<nat, T>, ids: seq<nat>) returns (r: map<nat, T>)
    ensures r == m - Elements(ids)
  {
    r := m;
    var i := 0;
    while i < |ids|
      invariant 0 <= i <= |ids|
      invariant r == m - Elements(ids[..i])
    {
      r := r - {ids[i]};
      assert ids[..i + 1] == ids[..i] + [ids[i]];
      i := i + 1;
    }
    assert ids[..i] == ids;
  }

  /** Collects the thread's processes, then removes each of them and its origin. */
  method RemoveProcesses(processes: map<ProcessId, ManagedProcess>, index: map<ProcessOrigin, ProcessId>, id: ThreadId)
    returns (processes': map<ProcessId, ManagedProcess>, index': map<ProcessOrigin, ProcessId>)
    ensures var gone := ProcessesOf(processes, id);
      processes' == processes - gone && index' == index - OriginsOf(processes, gone)
  {
    var gone := ProcessesOf(processes, id);
    processes', index' := processes, index;
    var todo := gone;
    while todo != {}
      invariant todo <= gone
      invariant processes' == processes - (gone - todo)
      invariant index' == index - OriginsOf(processes, gone - todo)
      decreases todo
    {
      var p :| p in todo;
      index' := index' - {processes'[p].origin};
      processes' := processes' - {p};
      assert gone - (todo - {p}) == (gone - todo) + {p};
      todo := todo - {p};
    }
    assert gone - todo == gone;
  }

  /** Files artifacts one after another until an identifier is already taken. */
  method FileArtifacts(artifacts: map<ArtifactId, Artifact>, added: seq<Artifact>)
    returns (r: Option<map<ArtifactId, Artifact>>)
    ensures r == AddArtifacts(artifacts, added)
  {
    var filed: map<ArtifactId, Artifact> := artifacts;
    var i := 0;
    while i < |added|
      invariant 0 <= i <= |added|
      invariant AddArtifacts(filed, added[i..]) == AddArtifacts(artifacts, added)
    {
      assert added[i..][1..] == added[i + 1..];
      if added[i].id in filed {
        return None;
      }
      filed := filed[added[i].id := added[i]];
      i := i + 1;
    }
    r := Some(filed);
  }

  /** Like `FileArtifacts`, and each artifact has to belong to the given message. */
  method FileImages(artifacts: map<ArtifactId, Artifact>, added: seq<Artifact>, owner: Message)
    returns (r: Result<map<ArtifactId, Artifact>, StoreError>)
    ensures r == AddImages(artifacts, added, owner)
  {
    var filed: map<ArtifactId, Artifact> := artifacts;
    var i := 0;
    while i < |added|
      invariant 0 <= i <= |added|
      invariant AddImages(filed, added[i..], owner) == AddImages(artifacts, added, owner)
    {
      assert added[i..][1..] == added[i + 1..];
      if added[i].threadId != owner.threadId || added[i].messageId != Some(owner.id) {
        return Err(InvalidInput);
      }
      if added[i].id in filed {
        return Err(Conflict);
      }
      filed := filed[added[i].id := added[i]];
      i := i + 1;
    }
    r := Ok(filed);
  }
}
