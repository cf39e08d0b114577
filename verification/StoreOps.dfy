/** What each mutation of the in-memory store does, as a function from state to outcome. */
module StoreOps {
  import opened Prelude
  import opened Domain
  import opened Stores

  type Outcome = Result<StoreState, StoreError>

  function ReferencesProject(refs: seq<ContextReference>, id: ProjectId): bool {
    exists i :: 0 <= i < |refs| && refs[i].ProjectReference? && refs[i].projectId == id
  }

  function ReferencesThread(refs: seq<ContextReference>, id: ThreadId): bool {
    exists i :: 0 <= i < |refs| && refs[i].ThreadReference? && refs[i].threadId == id
  }

  function ReferencesMessage(refs: seq<ContextReference>, id: MessageId): bool {
    exists i :: 0 <= i < |refs| && refs[i].ThreadReference? && refs[i].mode == Messages && id in refs[i].messageIds
  }

  function Push(order: map<ThreadId, seq<nat>>, t: ThreadId, id: nat): map<ThreadId, seq<nat>> {
    order[t := (if t in order then order[t] else []) + [id]]
  }

  function Retain(q: seq<nat>, id: nat): seq<nat> {
    if q == [] then [] else (if q[0] == id then [] else [q[0]]) + Retain(q[1..], id)
  }

  function Unlist(order: map<ThreadId, seq<nat>>, t: ThreadId, id: nat): map<ThreadId, seq<nat>> {
    if t in order then order[t := Retain(order[t], id)] else order
  }

  function Listed(order: map<ThreadId, seq<nat>>, t: ThreadId): set<nat> {
    if t in order then set id | id in order[t] else {}
  }

  // ---------------------------------------------------------------------------------------------
  // Projects

  function InsertProject(s: StoreState, p: Project): Outcome {
    if p.id in s.projects then Err(Conflict)
    else if exists k :: k in s.projects && s.projects[k].root == p.root then Err(Conflict)
    else Ok(s.(projects := s.projects[p.id := p]))
  }

  function UpdateProject(s: StoreState, p: Project): Outcome {
    if p.id !in s.projects then Err(NotFound(ProjectEntity, p.id))
    else if s.projects[p.id].root != p.root then Err(InvalidInput)
    else Ok(s.(projects := s.projects[p.id := p]))
  }

  function Detached(p: ManagedProcess, id: ProjectId): ManagedProcess {
    if p.projectId == Some(id) then p.(projectId := None) else p
  }

  function DeleteProject(s: StoreState, id: ProjectId): Outcome {
    if id !in s.projects then Err(NotFound(ProjectEntity, id))
    else if (exists t :: t in s.threads && ReferencesProject(s.threads[t].references, id))
         || (exists m :: m in s.messages && ReferencesProject(s.messages[m].references, id)) then Err(Conflict)
    else if exists p :: p in s.processes && s.processes[p].projectId == Some(id) && s.processes[p].status.Active() then
      Err(Conflict)
    else
      Ok(s.(projects := s.projects - {id},
            processes := map p | p in s.processes :: Detached(s.processes[p], id)))
  }

  // ---------------------------------------------------------------------------------------------
  // Threads and workspaces

  function InsertThread(s: StoreState, t: Thread): Outcome {
    if t.id in s.threads then Err(Conflict)
    else
      var refs := CheckReferences(s, t.id, t.references);
      if refs.Some? then Err(refs.value)
      else if !ThreadWorkspaceOk(s, t) then Err(Conflict)
      else Ok(s.(threads := s.threads[t.id := t]))
  }

  function InsertThreadWithWorkspace(s: StoreState, t: Thread, w: Workspace): Outcome {
    if t.workspaceId != w.id || w.threadId != t.id then Err(InvalidInput)
    else if t.id in s.threads || w.id in s.workspaces || t.id in s.workspaceByThread then Err(Conflict)
    else
      var refs := CheckReferences(s, t.id, t.references);
      if refs.Some? then Err(refs.value)
      else Ok(s.(workspaceByThread := s.workspaceByThread[w.threadId := w.id],
                 workspaces := s.workspaces[w.id := w],
                 threads := s.threads[t.id := t]))
  }

  function UpdateThread(s: StoreState, t: Thread): Outcome {
    if t.id !in s.threads then Err(NotFound(ThreadEntity, t.id))
    else
      var current := s.threads[t.id];
      if current.workspaceId != t.workspaceId then Err(Conflict)
      else if current.status != t.status || current.workflow != t.workflow then Err(InvalidInput)
      else
        var refs := CheckReferences(s, t.id, t.references);
        if refs.Some? then Err(refs.value)
        else if !ThreadWorkspaceOk(s, t) then Err(Conflict)
        else Ok(s.(threads := s.threads[t.id := t]))
  }

  /** Replaces the title only while it is still the placeholder; otherwise nothing changes. */
  function UpdateThreadTitleIfDefault(s: StoreState, id: ThreadId, title: string, now: Timestamp): Outcome {
    if Blank(title) then Err(InvalidInput)
    else if id !in s.threads then Err(NotFound(ThreadEntity, id))
    else if !IsDefaultTitle(s.threads[id].title) then Ok(s)
    else Ok(s.(threads := s.threads[id := s.threads[id].(title := title, updatedAt := now)]))
  }

  function TransitionThread(s: StoreState, id: ThreadId, expected: ThreadStatus, next: ThreadStatus,
                            now: Timestamp): Outcome
  {
    if id !in s.threads then Err(NotFound(ThreadEntity, id))
    else
      var t := s.threads[id];
      if t.status != expected then Err(Conflict)
      else if !LegalThreadTransition(expected, next) then Err(InvalidInput)
      else
        var workflow := if expected == Running && next == Idle then NewProgress else t.workflow;
        Ok(s.(threads := s.threads[id := t.(status := next, workflow := workflow, updatedAt := now)]))
  }

  function TransitionWorkflow(s: StoreState, id: ThreadId, expected: WorkflowState, next: WorkflowState,
                              now: Timestamp): Outcome
  {
    if id !in s.threads then Err(NotFound(ThreadEntity, id))
    else
      var t := s.threads[id];
      if t.status == Running || t.workflow != expected then Err(Conflict)
      else Ok(s.(threads := s.threads[id := t.(workflow := next, updatedAt := now)]))
  }

  function ProcessesOf(processes: map<ProcessId, ManagedProcess>, id: ThreadId): (gone: set<ProcessId>)
    ensures gone <= processes.Keys
  {
    set p | p in processes && processes[p].threadId == id
  }

  function OriginsOf(processes: map<ProcessId, ManagedProcess>, ids: set<ProcessId>): set<ProcessOrigin>
    requires ids <= processes.Keys
  {
    set p | p in ids :: processes[p].origin
  }

  /** Removes a thread and, following its workspace, its order lists and its processes, what hangs on it. */
  function Cascade(s: StoreState, id: ThreadId): StoreState
    requires id in s.threads
  {
    var gone := ProcessesOf(s.processes, id);
    s.(threads := s.threads - {id},
       workspaces := s.workspaces - {s.threads[id].workspaceId},
       workspaceByThread := s.workspaceByThread - {id},
       messages := s.messages - Listed(s.messageOrder, id),
       messageOrder := s.messageOrder - {id},
       turns := s.turns - Listed(s.turnOrder, id),
       turnOrder := s.turnOrder - {id},
       artifacts := map a | a in s.artifacts && s.artifacts[a].threadId != id :: s.artifacts[a],
       processes := s.processes - gone,
       processByOrigin := s.processByOrigin - OriginsOf(s.processes, gone))
  }

  function DeleteThread(s: StoreState, id: ThreadId): Outcome {
    if id !in s.threads then Err(NotFound(ThreadEntity, id))
    else if (exists t :: t in s.threads && s.threads[t].id != id && ReferencesThread(s.threads[t].references, id))
         || (exists m ::
               m in s.messages && s.messages[m].threadId != id && ReferencesThread(s.messages[m].references, id)) then
      Err(Conflict)
    else if exists p :: p in s.processes && s.processes[p].threadId == id && s.processes[p].status.Active() then
      Err(Conflict)
    else Ok(Cascade(s, id))
  }

  function InsertWorkspace(s: StoreState, w: Workspace): Outcome {
    if w.id in s.workspaces || w.threadId in s.workspaceByThread then Err(Conflict)
    else if w.threadId in s.threads && s.threads[w.threadId].workspaceId != w.id then Err(Conflict)
    else Ok(s.(workspaceByThread := s.workspaceByThread[w.threadId := w.id], workspaces := s.workspaces[w.id := w]))
  }

  function UpdateWorkspace(s: StoreState, w: Workspace): Outcome {
    if w.id !in s.workspaces then Err(NotFound(WorkspaceEntity, w.id))
    else if s.workspaces[w.id].threadId != w.threadId then Err(Conflict)
    else if w.threadId in s.threads && s.threads[w.threadId].workspaceId != w.id then Err(Conflict)
    else Ok(s.(workspaces := s.workspaces[w.id := w]))
  }

  function DeleteWorkspace(s: StoreState, id: WorkspaceId): Outcome {
    if id !in s.workspaces then Err(NotFound(WorkspaceEntity, id))
    else
      var w := s.workspaces[id];
      if w.threadId in s.threads then Err(Conflict)
      else Ok(s.(workspaces := s.workspaces - {id}, workspaceByThread := s.workspaceByThread - {w.threadId}))
  }

  // ---------------------------------------------------------------------------------------------
  // Messages and artifacts

  function AddMessage(s: StoreState, m: Message): StoreState {
    s.(messageOrder := Push(s.messageOrder, m.threadId, m.id), messages := s.messages[m.id := m])
  }

  function AppendMessage(s: StoreState, m: Message): Outcome {
    if m.id in s.messages then Err(Conflict)
    else
      var check := CheckMessage(s, m);
      if check.Some? then Err(check.value) else Ok(AddMessage(s, m))
  }

  function UpdateMessage(s: StoreState, m: Message): Outcome {
    if m.id !in s.messages then Err(NotFound(MessageEntity, m.id))
    else if s.messages[m.id].threadId != m.threadId then Err(Conflict)
    else
      var check := CheckMessage(s, m);
      if check.Some? then Err(check.value) else Ok(s.(messages := s.messages[m.id := m]))
  }

  function Unpresented(a: Artifact, id: MessageId): Artifact {
    if a.messageId == Some(id) then a.(messageId := None) else a
  }

  function DeleteMessage(s: StoreState, id: MessageId): Outcome {
    if id !in s.messages then Err(NotFound(MessageEntity, id))
    else if exists t :: t in s.turns && s.turns[t].inputMessageId == id then Err(Conflict)
    else if (exists t :: t in s.threads && ReferencesMessage(s.threads[t].references, id))
         || (exists m :: m in s.messages && ReferencesMessage(s.messages[m].references, id)) then Err(Conflict)
    else
      Ok(s.(messages := s.messages - {id},
            artifacts := map a | a in s.artifacts :: Unpresented(s.artifacts[a], id),
            messageOrder := Unlist(s.messageOrder, s.messages[id].threadId, id)))
  }

  /** Files the artifacts one after another; the first identifier already taken stops it. */
  function AddArtifacts(artifacts: map<ArtifactId, Artifact>, added: seq<Artifact>): Option<map<ArtifactId, Artifact>>
    decreases |added|
  {
    if added == [] then Some(artifacts)
    else if added[0].id in artifacts then None
    else AddArtifacts(artifacts[added[0].id := added[0]], added[1..])
  }

  function InsertArtifacts(s: StoreState, added: seq<Artifact>): Outcome {
    match AddArtifacts(s.artifacts, added)
    case None => Err(Conflict)
    case Some(artifacts) =>
      var candidate := s.(artifacts := artifacts);
      if Integrity(candidate) then Ok(candidate) else Err(InvalidInput)
  }

  function PresentsArtifact(m: Message, id: ArtifactId): bool {
    exists i :: 0 <= i < |m.parts| && m.parts[i].ArtifactPart? && m.parts[i].artifactId == id
  }

  function DeleteArtifact(s: StoreState, id: ArtifactId): Outcome {
    if id !in s.artifacts then Err(NotFound(ArtifactEntity, id))
    else if exists m :: m in s.messages && PresentsArtifact(s.messages[m], id) then Err(Conflict)
    else Ok(s.(artifacts := s.artifacts - {id}))
  }

  function Touched(threads: map<ThreadId, Thread>, id: ThreadId, at: Timestamp): map<ThreadId, Thread> {
    if id in threads then threads[id := threads[id].(updatedAt := Max(threads[id].updatedAt, at))] else threads
  }

  /** Like `AddArtifacts`, and each artifact has to belong to the given message. */
  function AddImages(artifacts: map<ArtifactId, Artifact>, added: seq<Artifact>, owner: Message)
    : Result<map<ArtifactId, Artifact>, StoreError>
    decreases |added|
  {
    if added == [] then Ok(artifacts)
    else if added[0].threadId != owner.threadId || added[0].messageId != Some(owner.id) then Err(InvalidInput)
    else if added[0].id in artifacts then Err(Conflict)
    else AddImages(artifacts[added[0].id := added[0]], added[1..], owner)
  }

  function AppendImageGeneration(s: StoreState, user: Message, assistant: Message, added: seq<Artifact>): Outcome {
    if user.role != User || assistant.role != Assistant || user.turnId.Some? || assistant.turnId.Some?
       || user.threadId != assistant.threadId then Err(InvalidInput)
    else if user.id in s.messages || assistant.id in s.messages || user.id == assistant.id then Err(Conflict)
    else
      var withMessages := AddMessage(AddMessage(s, user), assistant);
      match AddImages(s.artifacts, added, assistant)
      case Err(e) => Err(e)
      case Ok(artifacts) =>
        var candidate := withMessages.(
          threads := Touched(s.threads, assistant.threadId, assistant.createdAt), artifacts := artifacts);
        if Integrity(candidate) then Ok(candidate) else Err(InvalidInput)
  }

  function AddTurn(s: StoreState, t: Turn): StoreState {
    s.(turnOrder := Push(s.turnOrder, t.threadId, t.id), turns := s.turns[t.id := t])
  }

  function InsertTurnInput(s: StoreState, input: Message, t: Turn, added: seq<Artifact>): Outcome {
    if input.role != User || input.threadId != t.threadId || input.id != t.inputMessageId
      || input.turnId != Some(t.id) then
      Err(InvalidInput)
    else if exists i ::
        0 <= i < |added| && (added[i].threadId != input.threadId || added[i].messageId != Some(input.id)) then
      Err(InvalidInput)
    else if input.id in s.messages || t.id in s.turns then Err(Conflict)
    else
      match AddArtifacts(s.artifacts, added)
      case None => Err(Conflict)
      case Some(artifacts) =>
        var candidate := AddTurn(AddMessage(s, input), t).(
          artifacts := artifacts, threads := Touched(s.threads, input.threadId, input.createdAt));
        if Integrity(candidate) then Ok(candidate) else Err(InvalidInput)
  }

  // ---------------------------------------------------------------------------------------------
  // Turns

  function InsertTurn(s: StoreState, t: Turn): Outcome {
    if t.id in s.turns then Err(Conflict)
    else
      var check := CheckTurn(s, t);
      if check.Some? then Err(check.value) else Ok(AddTurn(s, t))
  }

  function UpdateTurn(s: StoreState, t: Turn): Outcome {
    if t.id !in s.turns then Err(NotFound(TurnEntity, t.id))
    else
      var current := s.turns[t.id];
      if current.threadId != t.threadId || current.inputMessageId != t.inputMessageId then Err(Conflict)
      else if current.status != t.status then Err(InvalidInput)
      else
        var check := CheckTurn(s, t);
        if check.Some? then Err(check.value) else Ok(s.(turns := s.turns[t.id := t]))
  }

  function MovedTurn(t: Turn, next: TurnStatus, now: Timestamp): Turn {
    match next
    case TurnRunning => t.(status := next, startedAt := Some(now))
    case Queued => t.(status := next)
    case _ => t.(status := next, completedAt := Some(now))
  }

  function TransitionTurn(s: StoreState, id: TurnId, expected: TurnStatus, next: TurnStatus, now: Timestamp): Outcome {
    if id !in s.turns then Err(NotFound(TurnEntity, id))
    else if s.turns[id].status != expected then Err(Conflict)
    else if !LegalTurnTransition(expected, next) then Err(InvalidInput)
    else Ok(s.(turns := s.turns[id := MovedTurn(s.turns[id], next, now)]))
  }

  function DeleteTurn(s: StoreState, id: TurnId): Outcome {
    if id !in s.turns then Err(NotFound(TurnEntity, id))
    else if exists m :: m in s.messages && s.messages[m].turnId == Some(id) then Err(Conflict)
    else if exists p :: p in s.processes && s.processes[p].origin.turnId == id then Err(Conflict)
    else Ok(s.(turns := s.turns - {id}, turnOrder := Unlist(s.turnOrder, s.turns[id].threadId, id)))
  }

  // ---------------------------------------------------------------------------------------------
  // Processes

  function InsertProcess(s: StoreState, p: ManagedProcess): Outcome {
    if p.id in s.processes || p.origin in s.processByOrigin then Err(Conflict)
    else
      var check := CheckProcess(s, p);
      if check.Some? then Err(check.value)
      else Ok(s.(processByOrigin := s.processByOrigin[p.origin := p.id], processes := s.processes[p.id := p]))
  }

  function ReplaceProcess(s: StoreState, p: ManagedProcess): Outcome {
    if p.id !in s.processes then Err(NotFound(ProcessEntity, p.id))
    else
      var current := s.processes[p.id];
      if !NothingMovesBack(current, p) then Err(Conflict)
      else if !LegalStatusStep(current, p) then Err(InvalidInput)
      else
        var check := CheckProcess(s, p);
        if check.Some? then Err(check.value) else Ok(s.(processes := s.processes[p.id := p]))
  }

  function MovedProcess(p: ManagedProcess, next: ProcessStatus, now: Timestamp): ManagedProcess {
    p.(status := next,
       startedAt := if next == ProcessRunning && p.startedAt.None? then Some(now) else p.startedAt,
       completedAt := if next.Terminal() && p.completedAt.None? then Some(now) else p.completedAt)
  }

  function TransitionProcess(s: StoreState, id: ProcessId, expected: ProcessStatus, next: ProcessStatus,
                             now: Timestamp): Outcome
  {
    if id !in s.processes then Err(NotFound(ProcessEntity, id))
    else if s.processes[id].status != expected then Err(Conflict)
    else if !LegalProcessTransition(expected, next) then Err(InvalidInput)
    else ReplaceProcess(s, MovedProcess(s.processes[id], next, now))
  }

  function DeleteProcess(s: StoreState, id: ProcessId): Outcome {
    if id !in s.processes then Err(NotFound(ProcessEntity, id))
    else if s.processes[id].status.Active() then Err(Conflict)
    else Ok(s.(processes := s.processes - {id}, processByOrigin := s.processByOrigin - {s.processes[id].origin}))
  }

  // ---------------------------------------------------------------------------------------------
  // All mutations together

  datatype Mutation =
    | MInsertProject(project: Project)
    | MUpdateProject(project: Project)
    | MDeleteProject(projectId: ProjectId)
    | MInsertThread(thread: Thread)
    | MInsertThreadWithWorkspace(thread: Thread, workspace: Workspace)
    | MUpdateThread(thread: Thread)
    | MUpdateTitle(threadId: ThreadId, title: string)
    | MTransitionThread(threadId: ThreadId, fromThread: ThreadStatus, toThread: ThreadStatus)
    | MTransitionWorkflow(threadId: ThreadId, fromWorkflow: WorkflowState, toWorkflow: WorkflowState)
    | MDeleteThread(threadId: ThreadId)
    | MInsertWorkspace(workspace: Workspace)
    | MUpdateWorkspace(workspace: Workspace)
    | MDeleteWorkspace(workspaceId: WorkspaceId)
    | MAppendMessage(message: Message)
    | MUpdateMessage(message: Message)
    | MDeleteMessage(messageId: MessageId)
    | MInsertArtifacts(artifacts: seq<Artifact>)
    | MDeleteArtifact(artifactId: ArtifactId)
    | MAppendImageGeneration(user: Message, assistant: Message, artifacts: seq<Artifact>)
    | MInsertTurnInput(input: Message, turn: Turn, artifacts: seq<Artifact>)
    | MInsertTurn(turn: Turn)
    | MUpdateTurn(turn: Turn)
    | MTransitionTurn(turnId: TurnId, fromTurn: TurnStatus, toTurn: TurnStatus)
    | MDeleteTurn(turnId: TurnId)
    | MInsertProcess(process: ManagedProcess)
    | MUpdateProcess(process: ManagedProcess)
    | MTransitionProcess(processId: ProcessId, fromProcess: ProcessStatus, toProcess: ProcessStatus)
    | MDeleteProcess(processId: ProcessId)

  function Apply(s: StoreState, m: Mutation, now: Timestamp): Outcome {
    match m
    case MInsertProject(p) => InsertProject(s, p)
    case MUpdateProject(p) => UpdateProject(s, p)
    case MDeleteProject(id) => DeleteProject(s, id)
    case MInsertThread(t) => InsertThread(s, t)
    case MInsertThreadWithWorkspace(t, w) => InsertThreadWithWorkspace(s, t, w)
    case MUpdateThread(t) => UpdateThread(s, t)
    case MUpdateTitle(id, title) => UpdateThreadTitleIfDefault(s, id, title, now)
    case MTransitionThread(id, a, b) => TransitionThread(s, id, a, b, now)
    case MTransitionWorkflow(id, a, b) => TransitionWorkflow(s, id, a, b, now)
    case MDeleteThread(id) => DeleteThread(s, id)
    case MInsertWorkspace(w) => InsertWorkspace(s, w)
    case MUpdateWorkspace(w) => UpdateWorkspace(s, w)
    case MDeleteWorkspace(id) => DeleteWorkspace(s, id)
    case MAppendMessage(message) => AppendMessage(s, message)
    case MUpdateMessage(message) => UpdateMessage(s, message)
    case MDeleteMessage(id) => DeleteMessage(s, id)
    case MInsertArtifacts(added) => InsertArtifacts(s, added)
    case MDeleteArtifact(id) => DeleteArtifact(s, id)
    case MAppendImageGeneration(user, assistant, added) => AppendImageGeneration(s, user, assistant, added)
    case MInsertTurnInput(input, t, added) => InsertTurnInput(s, input, t, added)
    case MInsertTurn(t) => InsertTurn(s, t)
    case MUpdateTurn(t) => UpdateTurn(s, t)
    case MTransitionTurn(id, a, b) => TransitionTurn(s, id, a, b, now)
    case MDeleteTurn(id) => DeleteTurn(s, id)
    case MInsertProcess(p) => InsertProcess(s, p)
    case MUpdateProcess(p) => ReplaceProcess(s, p)
    case MTransitionProcess(id, a, b) => TransitionProcess(s, id, a, b, now)
    case MDeleteProcess(id) => DeleteProcess(s, id)
  }
}
