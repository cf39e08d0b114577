/**
 One managed process over its whole life: the actor and the output logger share an event lock and a
 snapshot, and write to the store and to the log file; any write may fail, the server may stop
 between any two steps, and recovery merges what it finds in the store and in the log.
 */
module Supervision {
  import opened Prelude
  import opened Domain
  import opened StepMachines

  datatype EventKind =
    | StartedEvent | OutputEvent | StoppingEvent | ExitedEvent | StoppedEvent | FailedEvent | LostEvent
  {
    predicate Terminal() { ExitedEvent? || StoppedEvent? || FailedEvent? || LostEvent? }
  }

  datatype Event = Event(sequence: nat, kind: EventKind)

  /** What the header and cursors of a log file say. */
  datatype LogFile = LogFile(start: nat, end: nat, sequence: nat)

  /**
   Waiting: wants the event lock. Writing: has the lock and the next sequence number, store write
   pending. Publishing: the write succeeded, the event is not out yet.
   */
  datatype ActorPc =
    | Launching
    | WritingRunning
    | Waiting(kind: EventKind)
    | Writing(kind: EventKind)
    | Publishing(kind: EventKind)
    | Supervising
    | Draining
    | Collected
    | Ended

  /**
   Appended: has output, wants the lock. LogWriting, LogWritten, Updated: has the lock. After Updated
   the event follows without a point where the logger could be aborted.
   */
  datatype LoggerPc = Absent | Listening | Appended | LogWriting | LogWritten | Updated | Done

  datatype Server = Server(
    actor: ActorPc,
    logger: LoggerPc,
    snapshot: ManagedProcess,
    log: LogFile,
    stopRequested: bool,
    failed: bool)

  datatype Phase =
    | Up(server: Server)
    | Down
    | Restarted
    | LostWritten

  /**
   `stored` is the published store record. `candidates` is everything a restart may find in the
   store file, `logs` everything it may find in the log file: more than one content after a write
   that failed once the new file was in place.
   */
  datatype World = World(
    stored: ManagedProcess,
    candidates: seq<ManagedProcess>,
    logs: seq<LogFile>,
    phase: Phase,
    published: seq<Event>,
    clock: Timestamp)

  datatype WriteResult = Succeeds | FailsBefore | FailsAfter

  datatype Action =
    | Tick(later: nat)
    | LaunchFails
    | Armed(pid: nat, group: Option<int>)
    | TakeLock
    | StoreWrite(result: WriteResult)
    | Publish
    | StopRequest
    | LifecycleFails
    | LeaveLoop
    | CollectLogger(error: bool)
    | AbortLogger(late: bool)
    | Finish(exitCode: Option<int>)
    | Append(start: nat, end: nat)
    | LoggerTakesLock
    | LogWrite(result: WriteResult)
    | UpdateSnapshot
    | PublishOutput
    | Crash
    | Restart(found: nat)
    | Recover(log: Option<nat>, result: WriteResult)
    | PublishLost
  {
    predicate FromOutside() { Tick? || Crash? || Restart? }
    predicate InRecovery() { Recover? || PublishLost? }
    predicate ByLogger() { Append? || LoggerTakesLock? || LogWrite? || UpdateSnapshot? || PublishOutput? }
  }

  // ---------------------------------------------------------------------------------------------
  // Steps

  /** What the store asks of a replacement record. */
  predicate Accepts(current: ManagedProcess, next: ManagedProcess) {
    NothingMovesBack(current, next) && LegalStatusStep(current, next) && ProcessFieldsOk(next)
  }

  predicate ActorHoldsLock(v: Server) { v.actor.Writing? || v.actor.Publishing? }
  predicate LoggerHoldsLock(v: Server) { v.logger.LogWriting? || v.logger.LogWritten? || v.logger.Updated? }

  /** A store write of the record: refused, or succeeding, or failing before or after the new file is in place. */
  function Stored(w: World, p: ManagedProcess, result: WriteResult): World {
    if !Accepts(w.stored, p) then w
    else
      match result
      case Succeeds => w.(stored := p, candidates := [p])
      case FailsBefore => w
      case FailsAfter => w.(candidates := w.candidates + [p])
  }

  predicate WriteSucceeds(w: World, p: ManagedProcess, result: WriteResult) {
    Accepts(w.stored, p) && result == Succeeds
  }

  function FailedRecord(p: ManagedProcess, now: Timestamp): ManagedProcess {
    p.(status := Failed, error := Some("failed"), completedAt := Some(now))
  }

  function TerminalKind(v: Server): EventKind {
    if v.failed then FailedEvent else if v.stopRequested then StoppedEvent else ExitedEvent
  }

  function TerminalRecord(v: Server, exitCode: Option<int>, now: Timestamp): ManagedProcess {
    var p := v.snapshot.(exitCode := exitCode, completedAt := Some(now));
    if v.failed then p.(status := Failed, error := Some("failed"))
    else if v.stopRequested then p.(status := Stopped)
    else p.(status := Exited)
  }

  function ActorStep(w: World, v: Server, a: Action): World {
    match a
    case LaunchFails =>
      if v.actor == Launching then
        w.(phase := Up(v.(actor := Waiting(FailedEvent), snapshot := FailedRecord(v.snapshot, w.clock))))
      else w
    case Armed(pid, group) =>
      if v.actor == Launching then
        var p := v.snapshot.(pid := Some(pid), processGroupId := group, status := ProcessRunning,
          startedAt := Some(w.clock));
        w.(phase := Up(v.(actor := WritingRunning, snapshot := p)))
      else w
    case TakeLock =>
      if v.actor.Waiting? && !LoggerHoldsLock(v) then
        var p := v.snapshot.(lastEventSequence := v.snapshot.lastEventSequence + 1);
        w.(phase := Up(v.(actor := Writing(v.actor.kind), snapshot := p)))
      else w
    case StoreWrite(result) =>
      if v.actor == WritingRunning then
        var w' := Stored(w, v.snapshot, result);
        if WriteSucceeds(w, v.snapshot, result) then w'.(phase := Up(v.(actor := Waiting(StartedEvent))))
        else w'.(phase := Up(v.(actor := Waiting(FailedEvent), snapshot := FailedRecord(v.snapshot, w.clock))))
      else if v.actor.Writing? then
        var w' := Stored(w, v.snapshot, result);
        if WriteSucceeds(w, v.snapshot, result) then w'.(phase := Up(v.(actor := Publishing(v.actor.kind))))
        else
          match v.actor.kind
          case StartedEvent =>
            w'.(phase := Up(v.(actor := Waiting(FailedEvent), snapshot := FailedRecord(v.snapshot, w.clock))))
          case StoppingEvent => w'.(phase := Up(v.(actor := Supervising, failed := true)))
          case _ => w'.(phase := Up(v.(actor := Ended)))
      else w
    case Publish =>
      if v.actor.Publishing? then
        var w' := w.(published := w.published + [Event(v.snapshot.lastEventSequence, v.actor.kind)]);
        match v.actor.kind
        case StartedEvent => w'.(phase := Up(v.(actor := Supervising, logger := Listening)))
        case StoppingEvent => w'.(phase := Up(v.(actor := Supervising)))
        case _ => w'.(phase := Up(v.(actor := Ended)))
      else w
    case StopRequest =>
      if v.actor == Supervising && !v.stopRequested then
        var p := v.snapshot.(status := Stopping);
        w.(phase := Up(v.(actor := Waiting(StoppingEvent), stopRequested := true, snapshot := p)))
      else w
    case LifecycleFails =>
      if v.actor == Supervising || v.actor == Draining || v.actor == Collected then w.(phase := Up(v.(failed := true)))
      else w
    case LeaveLoop =>
      if v.actor == Supervising then w.(phase := Up(v.(actor := Draining))) else w
    case CollectLogger(error) =>
      if v.actor == Draining && (v.logger == Listening || v.logger == Done) then
        w.(phase := Up(v.(actor := Collected, logger := Done, failed := v.failed || error)))
      else w
    case AbortLogger(late) =>
      if v.actor == Draining && v.logger != Updated then
        var w' := if late && v.logger == LogWriting then w.(logs := w.logs + [v.log]) else w;
        w'.(phase := Up(v.(actor := Collected, logger := Done, failed := true)))
      else w
    case Finish(exitCode) =>
      if v.actor == Collected then
        w.(phase := Up(v.(actor := Waiting(TerminalKind(v)), snapshot := TerminalRecord(v, exitCode, w.clock))))
      else w
    case _ => w
  }

  function LoggerStep(w: World, v: Server, a: Action): World {
    match a
    case Append(start, end) =>
      if v.logger == Listening && v.log.start <= start <= end && v.log.end <= end then
        w.(phase := Up(v.(logger := Appended, log := v.log.(start := start, end := end))))
      else w
    case LoggerTakesLock =>
      if v.logger == Appended && !ActorHoldsLock(v) then
        w.(phase := Up(v.(logger := LogWriting, log := v.log.(sequence := v.snapshot.lastEventSequence + 1))))
      else w
    case LogWrite(result) =>
      if v.logger == LogWriting then
        match result
        case Succeeds => w.(logs := [v.log], phase := Up(v.(logger := LogWritten)))
        case FailsBefore => w.(phase := Up(v.(logger := Listening)))
        case FailsAfter => w.(logs := w.logs + [v.log], phase := Up(v.(logger := Listening)))
      else w
    case UpdateSnapshot =>
      if v.logger == LogWritten then
        var p := v.snapshot.(outputStart := v.log.start, outputEnd := v.log.end, outputTruncated := v.log.start > 0,
                             lastEventSequence := v.log.sequence);
        w.(phase := Up(v.(logger := Updated, snapshot := p)))
      else w
    case PublishOutput =>
      if v.logger == Updated then
        w.(published := w.published + [Event(v.log.sequence, OutputEvent)], phase := Up(v.(logger := Listening)))
      else w
    case _ => w
  }

  /** The stored record raised to what a loaded log proves. */
  function Merged(p: ManagedProcess, l: LogFile): ManagedProcess {
    p.(outputStart := Max(p.outputStart, l.start),
       outputEnd := Max(p.outputEnd, l.end),
       outputTruncated := p.outputTruncated || l.start > 0,
       lastEventSequence := Max(p.lastEventSequence, l.sequence))
  }

  function LostRecord(p: ManagedProcess, now: Timestamp): ManagedProcess {
    p.(status := Lost, error := Some("interrupted"), completedAt := Some(now),
       lastEventSequence := p.lastEventSequence + 1)
  }

  /** The log found by a recovery; None when it cannot be loaded. */
  function Found(w: World, log: Option<nat>): Option<LogFile> {
    if log.Some? && log.value < |w.logs| then Some(w.logs[log.value]) else None
  }

  function Recovered(w: World, log: Option<nat>): ManagedProcess {
    var merged := if Found(w, log).Some? then Merged(w.stored, Found(w, log).value) else w.stored;
    if w.stored.status.Active() then LostRecord(merged, w.clock) else merged
  }

  function RecoveryStep(w: World, a: Action): World {
    match a
    case Recover(log, result) =>
      if w.phase != Restarted || (!w.stored.status.Active() && Found(w, log).None?) then w
      else
        var w' := Stored(w, Recovered(w, log), result);
        if w.stored.status.Active() && WriteSucceeds(w, Recovered(w, log), result) then w'.(phase := LostWritten)
        else w'
    case PublishLost =>
      if w.phase == LostWritten then
        w.(phase := Restarted, published := w.published + [Event(w.stored.lastEventSequence, LostEvent)])
      else w
    case _ => w
  }

  /** Time passes, the server stops, or it comes up again on one of the contents it may find. */
  function OutsideStep(w: World, a: Action): World {
    match a
    case Tick(later) => w.(clock := w.clock + later)
    case Crash => w.(phase := Down)
    case Restart(found) =>
      if w.phase == Down && found < |w.candidates| then w.(phase := Restarted, stored := w.candidates[found]) else w
    case _ => w
  }

  function Next(w: World, a: Action): World {
    if a.FromOutside() then OutsideStep(w, a)
    else if a.InRecovery() then RecoveryStep(w, a)
    else if !w.phase.Up? then w
    else if a.ByLogger() then LoggerStep(w, w.phase.server, a)
    else ActorStep(w, w.phase.server, a)
  }

  function Run(w: World, actions: seq<Action>): World { Steps(Next, w, actions) }

  /** A record as `start` inserts it. */
  predicate Fresh(p: ManagedProcess) {
    && p.status == Starting && p.pid == None && p.processGroupId == None && p.exitCode == None && p.error == None
    && !p.outputTruncated && p.outputStart == 0 && p.outputEnd == 0 && p.lastEventSequence == 0
    && p.startedAt == None && p.completedAt == None
    && ProcessFieldsOk(p)
  }

  /** Just inserted: the empty log is about to be written or has been. */
  function Born(p: ManagedProcess): World {
    var empty := LogFile(0, 0, 0);
    World(p, [p], [empty], Up(Server(Launching, Absent, p, empty, false, false)), [], p.createdAt)
  }
}
