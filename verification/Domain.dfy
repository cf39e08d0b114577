/** The durable entities of the agent and the rules that concern one record at a time. */
module Domain {
  import opened Prelude

  // Identifiers are totally ordered values; only equality and that order matter.
  type ProjectId = nat
  type ThreadId = nat
  type WorkspaceId = nat
  type TurnId = nat
  type MessageId = nat
  type ArtifactId = nat
  type ProcessId = nat
  type Timestamp = int

  // ---------------------------------------------------------------------------------------------
  // Text

  /** Unicode White_Space. */
  predicate IsWhitespace(c: char) {
    || '\U{0009}' <= c <= '\U{000D}'
    || c in "\U{0020}\U{0085}\U{00A0}\U{1680}\U{2028}\U{2029}\U{202F}\U{205F}\U{3000}"
    || '\U{2000}' <= c <= '\U{200A}'
  }

  predicate Blank(s: string) { forall i | 0 <= i < |s| :: IsWhitespace(s[i]) }

  function TrimStart(s: string): string {
    if s != [] && IsWhitespace(s[0]) then TrimStart(s[1..]) else s
  }

  function Trim(s: string): string
    decreases |s|
  {
    var t := TrimStart(s);
    TrimEnd(t)
  }

  function TrimEnd(s: string): string {
    if s != [] && IsWhitespace(s[|s| - 1]) then TrimEnd(s[..|s| - 1]) else s
  }

  function AsciiLower(c: char): char {
    if 'A' <= c <= 'Z' then (c as int + 32) as char else c
  }

  predicate EqIgnoreAsciiCase(a: string, b: string) {
    |a| == |b| && forall i | 0 <= i < |a| :: AsciiLower(a[i]) == AsciiLower(b[i])
  }

  const DEFAULT_THREAD_TITLE := "New thread"

  predicate IsDefaultTitle(title: string) {
    Blank(title) || EqIgnoreAsciiCase(Trim(title), DEFAULT_THREAD_TITLE)
  }

  // ---------------------------------------------------------------------------------------------
  // Entities. `details` stands for the fields no rule of the store looks at.

  datatype Project = Project(id: ProjectId, root: string, createdAt: Timestamp, details: string)

  datatype Workspace = Workspace(id: WorkspaceId, threadId: ThreadId, root: string, createdAt: Timestamp)

  datatype ThreadStatus = Idle | Running | Archived

  datatype WorkflowState = NewProgress | Deferred | Handled

  datatype ReferenceMode = Summary | Full | Messages | Artifacts

  datatype ContextReference =
    | ThreadReference(threadId: ThreadId, mode: ReferenceMode, messageIds: seq<MessageId>)
    | ProjectReference(projectId: ProjectId, readWrite: bool)

  datatype Thread = Thread(
    id: ThreadId,
    title: string,
    workspaceId: WorkspaceId,
    status: ThreadStatus,
    workflow: WorkflowState,
    references: seq<ContextReference>,
    createdAt: Timestamp,
    updatedAt: Timestamp,
    details: string)

  datatype Role = System | User | Assistant | Tool

  datatype ArtifactKind = Image

  datatype OutputPart =
    | OutputText(text: string)
    | OutputArtifact(artifactId: ArtifactId, detail: string)

  datatype MessagePart =
    | Text(text: string)
    | ToolCall(callId: string, name: string, arguments: string)
    | ToolResult(callId: string, name: string, output: seq<OutputPart>, isError: bool, metadata: string)
    | ArtifactPart(artifactId: ArtifactId, kind: ArtifactKind, mimeType: string, fileName: string)

  datatype Message = Message(
    id: MessageId,
    threadId: ThreadId,
    turnId: Option<TurnId>,
    role: Role,
    parts: seq<MessagePart>,
    references: seq<ContextReference>,
    createdAt: Timestamp)

  /** `relativePath` is the list of components of the path. */
  datatype Artifact = Artifact(
    id: ArtifactId,
    threadId: ThreadId,
    messageId: Option<MessageId>,
    kind: ArtifactKind,
    mimeType: string,
    fileName: string,
    relativePath: seq<string>,
    byteSize: nat,
    provider: string,
    model: string,
    prompt: string,
    createdAt: Timestamp)

  datatype TurnStatus = Queued | TurnRunning | Completed | TurnFailed | Cancelled {
    predicate Unfinished() { Queued? || TurnRunning? }
  }

  datatype Turn = Turn(
    id: TurnId,
    threadId: ThreadId,
    inputMessageId: MessageId,
    status: TurnStatus,
    createdAt: Timestamp,
    startedAt: Option<Timestamp>,
    completedAt: Option<Timestamp>,
    error: Option<string>,
    details: string)

  datatype ProcessOrigin = ProcessOrigin(turnId: TurnId, toolCallId: string)

  datatype ProcessStatus = Starting | ProcessRunning | Stopping | Exited | Stopped | Failed | Lost {
    predicate Active() { Starting? || ProcessRunning? || Stopping? }
    predicate Terminal() { Exited? || Stopped? || Failed? || Lost? }
  }

  datatype ManagedProcess = ManagedProcess(
    id: ProcessId,
    threadId: ThreadId,
    origin: ProcessOrigin,
    fingerprint: string,
    projectId: Option<ProjectId>,
    command: string,
    cwd: string,
    pid: Option<nat>,
    processGroupId: Option<int>,
    status: ProcessStatus,
    exitCode: Option<int>,
    error: Option<string>,
    outputTruncated: bool,
    outputStart: nat,
    outputEnd: nat,
    lastEventSequence: nat,
    createdAt: Timestamp,
    startedAt: Option<Timestamp>,
    completedAt: Option<Timestamp>)

  // ---------------------------------------------------------------------------------------------
  // Rules on single records

  predicate LegalThreadTransition(from: ThreadStatus, to: ThreadStatus) {
    (from == Idle && to == Running) || (from == Running && to == Idle) || (from == Idle && to == Archived)
  }

  predicate LegalTurnTransition(from: TurnStatus, to: TurnStatus) {
    || (from == Queued && to == TurnRunning)
    || (from == TurnRunning && (to == Completed || to == TurnFailed || to == Cancelled))
  }

  predicate LegalProcessTransition(from: ProcessStatus, to: ProcessStatus) {
    match from
    case Starting => to != Starting
    case ProcessRunning => to == Stopping || to == Exited || to == Failed || to == Lost
    case Stopping => to.Terminal()
    case _ => false
  }

  const MAX_ARTIFACT_BYTES: nat := 32 * 1024 * 1024

  predicate ArtifactFieldsOk(a: Artifact) {
    && a.kind == Image
    && a.mimeType in {"image/png", "image/jpeg", "image/webp"}
    && a.fileName != "" && '/' !in a.fileName && '\\' !in a.fileName
    && a.fileName != "." && a.fileName != ".."
    && a.relativePath == ["artifacts", a.fileName]
    && 0 < a.byteSize <= MAX_ARTIFACT_BYTES
    && !Blank(a.provider) && !Blank(a.model)
  }

  predicate LowerHex(s: string) {
    forall i | 0 <= i < |s| :: '0' <= s[i] <= '9' || 'a' <= s[i] <= 'f'
  }

  predicate AbsolutePath(p: string) { p != "" && p[0] == '/' }

  /** The cursors, status, pid and times of a process record agree with one another. */
  predicate ProcessRuntimeOk(p: ManagedProcess) {
    && p.outputStart <= p.outputEnd
    && (p.outputStart > 0 ==> p.outputTruncated)
    && (p.status.Active() ==> p.completedAt == None && p.exitCode == None && p.error == None)
    && (p.status == ProcessRunning || p.status == Stopping ==> p.pid.Some? && p.startedAt.Some?)
    && (p.status.Terminal() ==> p.completedAt.Some?)
    && (p.startedAt.Some? ==> p.createdAt <= p.startedAt.value)
    && (p.completedAt.Some? ==>
      (if p.startedAt.Some? then p.startedAt.value else p.createdAt) <= p.completedAt.value)
  }

  predicate ProcessFieldsOk(p: ManagedProcess) {
    && |p.fingerprint| == 64 && LowerHex(p.fingerprint)
    && !Blank(p.origin.toolCallId)
    && !Blank(p.command)
    && AbsolutePath(p.cwd)
    && ProcessRuntimeOk(p)
  }

  predicate SameLaunch(a: ManagedProcess, b: ManagedProcess) {
    && a.threadId == b.threadId && a.origin == b.origin && a.fingerprint == b.fingerprint
    && a.projectId == b.projectId && a.command == b.command && a.cwd == b.cwd
    && a.createdAt == b.createdAt
  }

  predicate Keeps<T(==)>(current: Option<T>, next: Option<T>) { current.Some? ==> next == current }

  /** Nothing fixed at launch changes, nothing assigned is reassigned, no cursor moves back. */
  predicate NothingMovesBack(current: ManagedProcess, next: ManagedProcess) {
    && SameLaunch(current, next)
    && Keeps(current.pid, next.pid)
    && Keeps(current.processGroupId, next.processGroupId)
    && Keeps(current.startedAt, next.startedAt)
    && Keeps(current.completedAt, next.completedAt)
    && current.outputStart <= next.outputStart
    && current.outputEnd <= next.outputEnd
    && current.lastEventSequence <= next.lastEventSequence
    && (current.outputTruncated ==> next.outputTruncated)
  }

  predicate LegalStatusStep(current: ManagedProcess, next: ManagedProcess) {
    current.status == next.status || LegalProcessTransition(current.status, next.status)
  }
}
