/** The relational state of the agent, the local checks of its mutations, and its integrity. */
module Stores {
  import opened Prelude
  import opened Domain

  datatype StoreState = StoreState(
    projects: map<ProjectId, Project>,
    threads: map<ThreadId, Thread>,
    workspaces: map<WorkspaceId, Workspace>,
    workspaceByThread: map<ThreadId, WorkspaceId>,
    messages: map<MessageId, Message>,
    messageOrder: map<ThreadId, seq<MessageId>>,
    artifacts: map<ArtifactId, Artifact>,
    turns: map<TurnId, Turn>,
    turnOrder: map<ThreadId, seq<TurnId>>,
    processes: map<ProcessId, ManagedProcess>,
    processByOrigin: map<ProcessOrigin, ProcessId>)

  const EMPTY_STATE := StoreState(map[], map[], map[], map[], map[], map[], map[], map[], map[], map[], map[])

  datatype Entity = ProjectEntity | ThreadEntity | WorkspaceEntity | TurnEntity | MessageEntity | ArtifactEntity
    | ProcessEntity

  datatype StoreError =
    | NotFound(entity: Entity, id: nat)
    | Conflict
    | InvalidInput
    | InvalidState

  predicate ProjectsKeyed(m: map<ProjectId, Project>) { forall k | k in m :: m[k].id == k }
  predicate ThreadsKeyed(m: map<ThreadId, Thread>) { forall k | k in m :: m[k].id == k }
  predicate WorkspacesKeyed(m: map<WorkspaceId, Workspace>) { forall k | k in m :: m[k].id == k }
  predicate MessagesKeyed(m: map<MessageId, Message>) { forall k | k in m :: m[k].id == k }
  predicate ArtifactsKeyed(m: map<ArtifactId, Artifact>) { forall k | k in m :: m[k].id == k }
  predicate TurnsKeyed(m: map<TurnId, Turn>) { forall k | k in m :: m[k].id == k }
  predicate ProcessesKeyed(m: map<ProcessId, ManagedProcess>) { forall k | k in m :: m[k].id == k }

  /** Every record is filed under its own identifier. */
  predicate Keyed(s: StoreState) {
    && ProjectsKeyed(s.projects)
    && ThreadsKeyed(s.threads)
    && WorkspacesKeyed(s.workspaces)
    && MessagesKeyed(s.messages)
    && ArtifactsKeyed(s.artifacts)
    && TurnsKeyed(s.turns)
    && ProcessesKeyed(s.processes)
  }

  // ---------------------------------------------------------------------------------------------
  // References

  predicate SelectedOk(s: StoreState, thread: ThreadId, id: MessageId) {
    id in s.messages && s.messages[id].threadId == thread
  }

  predicate ReferenceOk(s: StoreState, owner: ThreadId, r: ContextReference) {
    match r
    case ProjectReference(projectId, _) => projectId in s.projects
    case ThreadReference(threadId, mode, ids) =>
      && threadId != owner
      && threadId in s.threads
      && (mode == Messages <==> ids != [])
      && (forall i | 0 <= i < |ids| :: SelectedOk(s, threadId, ids[i]))
  }

  predicate ReferencesOk(s: StoreState, owner: ThreadId, refs: seq<ContextReference>) {
    forall i | 0 <= i < |refs| :: ReferenceOk(s, owner, refs[i])
  }

  function CheckSelected(s: StoreState, thread: ThreadId, ids: seq<MessageId>): Option<StoreError> {
    if ids == [] then None
    else if ids[0] !in s.messages then Some(NotFound(MessageEntity, ids[0]))
    else if s.messages[ids[0]].threadId != thread then Some(Conflict)
    else CheckSelected(s, thread, ids[1..])
  }

  function CheckReference(s: StoreState, owner: ThreadId, r: ContextReference): Option<StoreError> {
    match r
    case ProjectReference(projectId, _) =>
      if projectId in s.projects then None else Some(NotFound(ProjectEntity, projectId))
    case ThreadReference(threadId, mode, ids) =>
      if threadId == owner then Some(Conflict)
      else if threadId !in s.threads then Some(NotFound(ThreadEntity, threadId))
      else if mode == Messages then
        if ids == [] then Some(InvalidInput) else CheckSelected(s, threadId, ids)
      else if ids != [] then Some(InvalidInput)
      else None
  }

  function CheckReferences(s: StoreState, owner: ThreadId, refs: seq<ContextReference>): Option<StoreError> {
    if refs == [] then None
    else
      var first := CheckReference(s, owner, refs[0]);
      if first.Some? then first else CheckReferences(s, owner, refs[1..])
  }

  lemma {:induction false} CheckSelectedMeaning(s: StoreState, thread: ThreadId, ids: seq<MessageId>)
    ensures CheckSelected(s, thread, ids).None? <==> forall i | 0 <= i < |ids| :: SelectedOk(s, thread, ids[i])
  {
    if ids != [] {
      CheckSelectedMeaning(s, thread, ids[1..]);
      assert forall i | 0 < i < |ids| :: ids[i] == ids[1..][i - 1];
    }
  }

  lemma CheckReferenceMeaning(s: StoreState, owner: ThreadId, r: ContextReference)
    ensures CheckReference(s, owner, r).None? <==> ReferenceOk(s, owner, r)
  {
    if r.ThreadReference? {
      CheckSelectedMeaning(s, r.threadId, r.messageIds);
    }
  }

  lemma {:induction false} CheckReferencesMeaning(s: StoreState, owner: ThreadId, refs: seq<ContextReference>)
    ensures CheckReferences(s, owner, refs).None? <==> ReferencesOk(s, owner, refs)
  {
    if refs != [] {
      CheckReferenceMeaning(s, owner, refs[0]);
      CheckReferencesMeaning(s, owner, refs[1..]);
      assert forall i | 0 < i < |refs| :: refs[i] == refs[1..][i - 1];
    }
  }

  // ---------------------------------------------------------------------------------------------
  // Messages, artifacts, turns, processes

  predicate OutputPartOk(s: StoreState, thread: ThreadId, o: OutputPart) {
    o.OutputArtifact? ==> o.artifactId in s.artifacts && s.artifacts[o.artifactId].threadId == thread
  }

  predicate PartOk(s: StoreState, m: Message, part: MessagePart) {
    match part
    case ArtifactPart(artifactId, kind, mimeType, fileName) =>
      && artifactId in s.artifacts
      && var a := s.artifacts[artifactId];
      && a.threadId == m.threadId && a.messageId == Some(m.id)
      && a.kind == kind && a.mimeType == mimeType && a.fileName == fileName
    case ToolResult(_, _, output, _, _) => forall i | 0 <= i < |output| :: OutputPartOk(s, m.threadId, output[i])
    case _ => true
  }

  predicate MessageOk(s: StoreState, m: Message) {
    && m.threadId in s.threads
    && (m.turnId.Some? ==> m.turnId.value in s.turns && s.turns[m.turnId.value].threadId == m.threadId)
    && ReferencesOk(s, m.threadId, m.references)
    && (forall i | 0 <= i < |m.parts| :: PartOk(s, m, m.parts[i]))
  }

  predicate ArtifactOk(s: StoreState, a: Artifact) {
    && a.threadId in s.threads
    && (a.messageId.Some? ==> a.messageId.value in s.messages && s.messages[a.messageId.value].threadId == a.threadId)
    && ArtifactFieldsOk(a)
  }

  predicate TurnOk(s: StoreState, t: Turn) {
    && t.threadId in s.threads
    && t.inputMessageId in s.messages
    && var input := s.messages[t.inputMessageId];
    && input.threadId == t.threadId
    && (input.turnId.Some? ==> input.turnId.value == t.id)
  }

  predicate ProcessLinksOk(s: StoreState, p: ManagedProcess) {
    && p.threadId in s.threads
    && p.origin.turnId in s.turns
    && s.turns[p.origin.turnId].threadId == p.threadId
    && (p.projectId.Some? ==> p.projectId.value in s.projects)
  }

  predicate ProcessOk(s: StoreState, p: ManagedProcess) {
    ProcessFieldsOk(p) && ProcessLinksOk(s, p)
  }

  predicate ThreadWorkspaceOk(s: StoreState, t: Thread) {
    && (t.workspaceId in s.workspaces ==> s.workspaces[t.workspaceId].threadId == t.id)
    && (t.id in s.workspaceByThread ==> s.workspaceByThread[t.id] == t.workspaceId)
  }

  function CheckOutput(s: StoreState, thread: ThreadId, output: seq<OutputPart>): Option<StoreError> {
    if output == [] then None
    else if output[0].OutputArtifact? && output[0].artifactId !in s.artifacts then
      Some(NotFound(ArtifactEntity, output[0].artifactId))
    else if output[0].OutputArtifact? && s.artifacts[output[0].artifactId].threadId != thread then Some(Conflict)
    else CheckOutput(s, thread, output[1..])
  }

  function CheckParts(s: StoreState, m: Message, parts: seq<MessagePart>): Option<StoreError> {
    if parts == [] then None
    else
      var first := match parts[0] {
        case ArtifactPart(artifactId, _, _, _) =>
          if artifactId !in s.artifacts then Some(NotFound(ArtifactEntity, artifactId))
          else if !PartOk(s, m, parts[0]) then Some(Conflict)
          else None
        case ToolResult(_, _, output, _, _) => CheckOutput(s, m.threadId, output)
        case _ => None
      };
      if first.Some? then first else CheckParts(s, m, parts[1..])
  }

  function CheckMessage(s: StoreState, m: Message): Option<StoreError> {
    if m.threadId !in s.threads then Some(NotFound(ThreadEntity, m.threadId))
    else if m.turnId.Some? && m.turnId.value !in s.turns then Some(NotFound(TurnEntity, m.turnId.value))
    else if m.turnId.Some? && s.turns[m.turnId.value].threadId != m.threadId then Some(Conflict)
    else
      var refs := CheckReferences(s, m.threadId, m.references);
      if refs.Some? then refs else CheckParts(s, m, m.parts)
  }

  function CheckTurn(s: StoreState, t: Turn): Option<StoreError> {
    if t.threadId !in s.threads then Some(NotFound(ThreadEntity, t.threadId))
    else if t.inputMessageId !in s.messages then Some(NotFound(MessageEntity, t.inputMessageId))
    else if !TurnOk(s, t) then Some(Conflict)
    else None
  }

  function CheckProcess(s: StoreState, p: ManagedProcess): Option<StoreError> {
    if |p.fingerprint| != 64 || !LowerHex(p.fingerprint) then Some(InvalidInput)
    else if p.threadId !in s.threads then Some(NotFound(ThreadEntity, p.threadId))
    else if p.origin.turnId !in s.turns then Some(NotFound(TurnEntity, p.origin.turnId))
    else if s.turns[p.origin.turnId].threadId != p.threadId then Some(Conflict)
    else if Blank(p.origin.toolCallId) then Some(InvalidInput)
    else if p.projectId.Some? && p.projectId.value !in s.projects then Some(NotFound(ProjectEntity, p.projectId.value))
    else if Blank(p.command) || !AbsolutePath(p.cwd) || !ProcessRuntimeOk(p) then Some(InvalidInput)
    else None
  }

  lemma {:induction false} CheckOutputMeaning(s: StoreState, thread: ThreadId, output: seq<OutputPart>)
    ensures CheckOutput(s, thread, output).None? <==> forall i | 0 <= i < |output| :: OutputPartOk(s, thread, output[i])
  {
    if output != [] {
      CheckOutputMeaning(s, thread, output[1..]);
      assert forall i | 0 < i < |output| :: output[i] == output[1..][i - 1];
    }
  }

  lemma {:induction false} CheckPartsMeaning(s: StoreState, m: Message, parts: seq<MessagePart>)
    ensures CheckParts(s, m, parts).None? <==> forall i | 0 <= i < |parts| :: PartOk(s, m, parts[i])
  {
    if parts != [] {
      CheckPartsMeaning(s, m, parts[1..]);
      if parts[0].ToolResult? {
        CheckOutputMeaning(s, m.threadId, parts[0].output);
      }
      assert forall i | 0 < i < |parts| :: parts[i] == parts[1..][i - 1];
    }
  }

  /** The step-by-step checks of the mutations accept exactly the records that fit the state. */
  lemma ChecksMeaning(s: StoreState, m: Message, t: Turn, p: ManagedProcess)
    ensures CheckMessage(s, m).None? <==> MessageOk(s, m)
    ensures CheckTurn(s, t).None? <==> TurnOk(s, t)
    ensures CheckProcess(s, p).None? <==> ProcessOk(s, p)
  {
    CheckReferencesMeaning(s, m.threadId, m.references);
    CheckPartsMeaning(s, m, m.parts);
  }

  // ---------------------------------------------------------------------------------------------
  // Integrity of the whole state

  predicate NoDuplicates<T(==)>(q: seq<T>) {
    forall i, j | 0 <= i < j < |q| :: q[i] != q[j]
  }

  /** Each thread's list names, once each, exactly the entries that thread owns. */
  predicate OrderOk(threads: set<ThreadId>, order: map<ThreadId, seq<nat>>, owner: map<nat, ThreadId>) {
    && (forall t | t in order ::
        && t in threads
        && NoDuplicates(order[t])
        && forall i | 0 <= i < |order[t]| :: order[t][i] in owner && owner[order[t][i]] == t)
    && (forall id | id in owner :: owner[id] in order && id in order[owner[id]])
  }

  function MessageOwners(messages: map<MessageId, Message>): map<MessageId, ThreadId> {
    map id | id in messages :: messages[id].threadId
  }

  function TurnOwners(turns: map<TurnId, Turn>): map<TurnId, ThreadId> {
    map id | id in turns :: turns[id].threadId
  }

  predicate RootsOk(projects: map<ProjectId, Project>) {
    forall a, b | a in projects && b in projects && a != b :: projects[a].root != projects[b].root
  }

  /** Threads and workspaces own each other one to one, and the index says so. */
  predicate WorkspacesOk(threads: map<ThreadId, Thread>, workspaces: map<WorkspaceId, Workspace>,
                         index: map<ThreadId, WorkspaceId>) {
    && (forall w | w in workspaces ::
        && workspaces[w].threadId in index && index[workspaces[w].threadId] == w
        && workspaces[w].threadId in threads && threads[workspaces[w].threadId].workspaceId == w)
    && (forall t | t in index :: index[t] in workspaces && workspaces[index[t]].threadId == t)
    && (forall t | t in threads ::
        threads[t].workspaceId in workspaces && workspaces[threads[t].workspaceId].threadId == t)
  }

  predicate ProcessIndexOk(processes: map<ProcessId, ManagedProcess>, index: map<ProcessOrigin, ProcessId>) {
    && (forall p | p in processes :: processes[p].origin in index && index[processes[p].origin] == p)
    && (forall o | o in index :: index[o] in processes && processes[index[o]].origin == o)
  }

  predicate ThreadsOk(s: StoreState) {
    forall t | t in s.threads :: ReferencesOk(s, t, s.threads[t].references)
  }

  predicate MessagesOk(s: StoreState) { forall m | m in s.messages :: MessageOk(s, s.messages[m]) }

  predicate ArtifactsOk(s: StoreState) { forall a | a in s.artifacts :: ArtifactOk(s, s.artifacts[a]) }

  predicate TurnsOk(s: StoreState) { forall t | t in s.turns :: TurnOk(s, s.turns[t]) }

  predicate ProcessesOk(s: StoreState) { forall p | p in s.processes :: ProcessOk(s, s.processes[p]) }

  /** Every link of every record leads to a record of the right thread. */
  predicate LinksOk(s: StoreState) {
    ThreadsOk(s) && MessagesOk(s) && ArtifactsOk(s) && TurnsOk(s) && ProcessesOk(s)
  }

  /** Every index and order list covers exactly what it indexes. */
  predicate IndexesOk(s: StoreState) {
    && RootsOk(s.projects)
    && WorkspacesOk(s.threads, s.workspaces, s.workspaceByThread)
    && OrderOk(s.threads.Keys, s.messageOrder, MessageOwners(s.messages))
    && OrderOk(s.threads.Keys, s.turnOrder, TurnOwners(s.turns))
    && ProcessIndexOk(s.processes, s.processByOrigin)
  }

  predicate Integrity(s: StoreState) { IndexesOk(s) && LinksOk(s) }

  predicate Consistent(s: StoreState) { Keyed(s) && Integrity(s) }
}
