/** What holds of a managed process in every run, whatever fails and whenever the server stops. */
module SupervisionProofs {
  import opened Prelude
  import opened Domain
  import opened Supervision

  // ---------------------------------------------------------------------------------------------
  // Records

  /** A record the store would take, with no time in the future. */
  predicate RecordOk(p: ManagedProcess, clock: Timestamp) {
    && ProcessFieldsOk(p)
    && p.createdAt <= clock
    && (p.startedAt.Some? ==> p.startedAt.value <= clock)
    && (p.completedAt.Some? ==> p.completedAt.value <= clock)
  }

  predicate StoreOk(w: World) {
    && RecordOk(w.stored, w.clock)
    && w.candidates != []
    && (forall i | 0 <= i < |w.candidates| :: RecordOk(w.candidates[i], w.clock))
    && (forall i | 0 <= i < |w.logs| :: w.logs[i].start <= w.logs[i].end)
  }

  predicate LoggerOk(v: Server) {
    && v.snapshot.outputTruncated == (v.snapshot.outputStart > 0)
    && v.snapshot.outputStart <= v.log.start <= v.log.end
    && v.snapshot.outputEnd <= v.log.end
    && !(ActorHoldsLock(v) && LoggerHoldsLock(v))
    && (v.logger == LogWriting || v.logger == LogWritten ==> v.log.sequence == v.snapshot.lastEventSequence + 1)
    && (v.logger == Updated ==> v.log.sequence == v.snapshot.lastEventSequence)
  }

  predicate KindFits(kind: EventKind, status: ProcessStatus) {
    match kind
    case StartedEvent => status == ProcessRunning
    case StoppingEvent => status == Stopping
    case ExitedEvent => status == Exited
    case StoppedEvent => status == Stopped
    case FailedEvent => status == Failed
    case _ => false
  }

  /** How far the store is behind the snapshot when an event waits to be written. */
  predicate Behind(kind: EventKind, stored: ProcessStatus) {
    match kind
    case StartedEvent => stored == ProcessRunning
    case StoppingEvent => stored == ProcessRunning
    case ExitedEvent => stored == ProcessRunning
    case StoppedEvent => stored == Stopping
    case FailedEvent => stored.Active()
    case _ => false
  }

  /** A failed Stopping write leaves the store at Running, but then the process can only end as Failed. */
  predicate StatusOk(stored: ManagedProcess, v: Server) {
    match v.actor
    case Launching =>
      stored.status == Starting && v.snapshot.status == Starting
      && stored.pid == None && stored.processGroupId == None && stored.startedAt == None
    case WritingRunning => stored.status == Starting && v.snapshot.status == ProcessRunning
    case Waiting(kind) => KindFits(kind, v.snapshot.status) && Behind(kind, stored.status)
      && (kind.StoppingEvent? ==> v.stopRequested)
    case Writing(kind) => KindFits(kind, v.snapshot.status) && Behind(kind, stored.status)
      && (kind.StoppingEvent? ==> v.stopRequested)
    case Publishing(kind) =>
      KindFits(kind, v.snapshot.status) && stored == v.snapshot && (kind.StoppingEvent? ==> v.stopRequested)
    case Ended => true
    case _ =>
      if v.stopRequested then
        v.snapshot.status == Stopping && (stored.status == Stopping || (stored.status == ProcessRunning && v.failed))
      else v.snapshot.status == ProcessRunning && stored.status == ProcessRunning
  }

  /** The logger lives exactly from the started event to the collection. */
  predicate LoggerLives(v: Server) {
    match v.actor
    case Supervising => v.logger != Absent && v.logger != Done
    case Draining => v.logger != Absent && v.logger != Done
    case Launching => v.logger == Absent
    case WritingRunning => v.logger == Absent
    case Collected => v.logger == Done
    case Ended => v.logger == Absent || v.logger == Done
    case Waiting(kind) => LoggerFits(kind, v.logger)
    case Writing(kind) => LoggerFits(kind, v.logger)
    case Publishing(kind) => LoggerFits(kind, v.logger)
  }

  predicate LoggerFits(kind: EventKind, logger: LoggerPc) {
    match kind
    case StartedEvent => logger == Absent
    case StoppingEvent => logger != Absent && logger != Done
    case _ => logger == Absent || logger == Done
  }

  predicate Starts(actor: ActorPc) {
    match actor
    case Launching => true
    case WritingRunning => true
    case Waiting(kind) => kind.StartedEvent?
    case Writing(kind) => kind.StartedEvent?
    case Publishing(kind) => kind.StartedEvent?
    case _ => false
  }

  predicate ServerOk(w: World, v: Server) {
    && NothingMovesBack(w.stored, v.snapshot)
    && RecordOk(v.snapshot, w.clock)
    && LoggerOk(v)
    && StatusOk(w.stored, v)
    && LoggerLives(v)
    && (Starts(v.actor) ==> !v.stopRequested)
    && (v.actor.Publishing? ==> w.candidates == [w.stored])
  }

  predicate RecordsOk(w: World) {
    && StoreOk(w)
    && (w.phase.Up? ==> ServerOk(w, w.phase.server))
    && (w.phase.LostWritten? ==> w.stored.status == Lost && w.candidates == [w.stored])
  }

  /** Whatever failed before, the store takes the record the actor is about to write. */
  lemma ActorWritesAreAccepted(w: World)
    requires RecordsOk(w) && w.phase.Up? && (w.phase.server.actor.WritingRunning? || w.phase.server.actor.Writing?)
    ensures Accepts(w.stored, w.phase.server.snapshot)
  {
  }

  lemma RecoveredIsOk(w: World, log: Option<nat>)
    requires RecordsOk(w)
    ensures RecordOk(Recovered(w, log), w.clock) && Accepts(w.stored, Recovered(w, log))
  {
  }

  lemma FailedRecordOk(stored: ManagedProcess, p: ManagedProcess, clock: Timestamp)
    requires RecordOk(stored, clock) && RecordOk(p, clock) && NothingMovesBack(stored, p) && stored.status.Active()
    ensures RecordOk(FailedRecord(p, clock), clock) && NothingMovesBack(stored, FailedRecord(p, clock))
  {
  }

  lemma LaunchKeepsRecords(w: World, a: Action)
    requires RecordsOk(w) && w.phase.Up? && (a.LaunchFails? || a.Armed?)
    ensures RecordsOk(ActorStep(w, w.phase.server, a))
  {
    var v := w.phase.server;
    if v.actor == Launching {
      FailedRecordOk(w.stored, v.snapshot, w.clock);
    }
  }

  lemma TakeLockKeepsRecords(w: World)
    requires RecordsOk(w) && w.phase.Up?
    ensures RecordsOk(ActorStep(w, w.phase.server, TakeLock))
  {
  }

  lemma RunningWriteKeepsRecords(w: World, result: WriteResult)
    requires RecordsOk(w) && w.phase.Up? && w.phase.server.actor.WritingRunning?
    ensures RecordsOk(ActorStep(w, w.phase.server, StoreWrite(result)))
  {
    ActorWritesAreAccepted(w);
    FailedRecordOk(w.stored, w.phase.server.snapshot, w.clock);
  }

  lemma EventWrittenKeepsRecords(w: World)
    requires RecordsOk(w) && w.phase.Up? && w.phase.server.actor.Writing?
    ensures RecordsOk(ActorStep(w, w.phase.server, StoreWrite(Succeeds)))
  {
    ActorWritesAreAccepted(w);
  }

  lemma FailedWriteKeepsStore(w: World, p: ManagedProcess, result: WriteResult)
    requires StoreOk(w) && RecordOk(p, w.clock) && result != Succeeds
    ensures StoreOk(Stored(w, p, result)) && Stored(w, p, result) == w.(candidates := Stored(w, p, result).candidates)
  {
  }

  lemma StartWriteFailedKeepsRecords(w: World, result: WriteResult)
    requires RecordsOk(w) && w.phase.Up? && w.phase.server.actor == Writing(StartedEvent) && result != Succeeds
    ensures RecordsOk(ActorStep(w, w.phase.server, StoreWrite(result)))
  {
    FailedWriteKeepsStore(w, w.phase.server.snapshot, result);
    FailedRecordOk(w.stored, w.phase.server.snapshot, w.clock);
  }

  lemma EventWriteFailedKeepsRecords(w: World, result: WriteResult)
    requires RecordsOk(w) && w.phase.Up? && w.phase.server.actor.Writing? && result != Succeeds
    requires w.phase.server.actor != Writing(StartedEvent)
    ensures RecordsOk(ActorStep(w, w.phase.server, StoreWrite(result)))
  {
    FailedWriteKeepsStore(w, w.phase.server.snapshot, result);
  }

  lemma TerminalPublishKeepsRecords(w: World)
    requires RecordsOk(w) && w.phase.Up? && w.phase.server.actor.Publishing? && w.phase.server.actor.kind.Terminal()
    ensures RecordsOk(ActorStep(w, w.phase.server, Publish))
  {
  }

  lemma PublishKeepsRecords(w: World)
    requires RecordsOk(w) && w.phase.Up?
    ensures RecordsOk(ActorStep(w, w.phase.server, Publish))
  {
    if w.phase.server.actor.Publishing? && w.phase.server.actor.kind.Terminal() {
      TerminalPublishKeepsRecords(w);
    }
  }

  lemma LogAddedKeepsStore(w: World, l: LogFile)
    requires StoreOk(w) && l.start <= l.end
    ensures StoreOk(w.(logs := w.logs + [l]))
  {
  }

  lemma LoopKeepsRecords(w: World, a: Action)
    requires RecordsOk(w) && w.phase.Up?
    requires a.StopRequest? || a.LifecycleFails? || a.LeaveLoop?
    ensures RecordsOk(ActorStep(w, w.phase.server, a))
  {
  }

  lemma DrainKeepsRecords(w: World, a: Action)
    requires RecordsOk(w) && w.phase.Up? && (a.CollectLogger? || a.AbortLogger?)
    ensures RecordsOk(ActorStep(w, w.phase.server, a))
  {
    LogAddedKeepsStore(w, w.phase.server.log);
  }

  lemma TerminalRecordOk(stored: ManagedProcess, v: Server, exitCode: Option<int>, clock: Timestamp)
    requires RecordOk(stored, clock) && RecordOk(v.snapshot, clock) && NothingMovesBack(stored, v.snapshot)
      && stored.status.Active()
    ensures RecordOk(TerminalRecord(v, exitCode, clock), clock)
      && NothingMovesBack(stored, TerminalRecord(v, exitCode, clock))
  {
  }

  lemma FinishKeepsRecords(w: World, exitCode: Option<int>)
    requires RecordsOk(w) && w.phase.Up? && w.phase.server.actor == Collected
    ensures RecordsOk(ActorStep(w, w.phase.server, Finish(exitCode)))
  {
    TerminalRecordOk(w.stored, w.phase.server, exitCode, w.clock);
  }

  lemma ActorKeepsRecords(w: World, a: Action)
    requires RecordsOk(w) && w.phase.Up?
    ensures RecordsOk(ActorStep(w, w.phase.server, a))
  {
    match a
    case LaunchFails => LaunchKeepsRecords(w, a);
    case Armed(_, _) => LaunchKeepsRecords(w, a);
    case TakeLock => TakeLockKeepsRecords(w);
    case StoreWrite(result) =>
      if w.phase.server.actor.WritingRunning? {
        RunningWriteKeepsRecords(w, result);
      } else if w.phase.server.actor.Writing? {
        if result == Succeeds { EventWrittenKeepsRecords(w); }
        else if w.phase.server.actor.kind.StartedEvent? { StartWriteFailedKeepsRecords(w, result); }
        else { EventWriteFailedKeepsRecords(w, result); }
      }
    case Publish => PublishKeepsRecords(w);
    case Finish(exitCode) => if w.phase.server.actor == Collected { FinishKeepsRecords(w, exitCode); }
    case StopRequest => LoopKeepsRecords(w, a);
    case LifecycleFails => LoopKeepsRecords(w, a);
    case LeaveLoop => LoopKeepsRecords(w, a);
    case CollectLogger(_) => DrainKeepsRecords(w, a);
    case AbortLogger(_) => DrainKeepsRecords(w, a);
    case _ =>
  }

  /** As long as it lives, the logger may change its own state and log without anyone noticing. */
  lemma LoggerMoves(w: World, v: Server, v': Server)
    requires ServerOk(w, v) && v' == v.(logger := v'.logger, log := v'.log)
    requires LoggerOk(v') && v.logger != Absent && v.logger != Done && v'.logger != Absent && v'.logger != Done
    ensures ServerOk(w, v')
  {
  }

  lemma LogWriteKeepsRecords(w: World, result: WriteResult)
    requires RecordsOk(w) && w.phase.Up? && w.phase.server.logger == LogWriting
    ensures RecordsOk(LoggerStep(w, w.phase.server, LogWrite(result)))
  {
    var v := w.phase.server;
    LogAddedKeepsStore(w, v.log);
    LoggerMoves(w, v, v.(logger := if result == Succeeds then LogWritten else Listening));
  }

  lemma UpdateKeepsRecords(w: World)
    requires RecordsOk(w) && w.phase.Up?
    ensures RecordsOk(LoggerStep(w, w.phase.server, UpdateSnapshot))
  {
  }

  lemma LoggerKeepsRecords(w: World, a: Action)
    requires RecordsOk(w) && w.phase.Up?
    ensures RecordsOk(LoggerStep(w, w.phase.server, a))
  {
    var v := w.phase.server;
    match a
    case LogWrite(result) => if v.logger == LogWriting { LogWriteKeepsRecords(w, result); }
    case UpdateSnapshot => UpdateKeepsRecords(w);
    case Append(start, end) =>
      if LoggerStep(w, v, a) != w {
        LoggerMoves(w, v, v.(logger := Appended, log := v.log.(start := start, end := end)));
      }
    case LoggerTakesLock =>
      if LoggerStep(w, v, a) != w {
        LoggerMoves(w, v, v.(logger := LogWriting, log := v.log.(sequence := v.snapshot.lastEventSequence + 1)));
      }
    case PublishOutput =>
      if LoggerStep(w, v, a) != w {
        LoggerMoves(w, v, v.(logger := Listening));
      }
    case _ =>
  }

  lemma RecoveryKeepsRecords(w: World, a: Action)
    requires RecordsOk(w)
    ensures RecordsOk(RecoveryStep(w, a))
  {
    if a.Recover? {
      RecoveredIsOk(w, a.log);
    }
  }

  lemma OutsideKeepsRecords(w: World, a: Action)
    requires RecordsOk(w) && a.FromOutside()
    ensures RecordsOk(OutsideStep(w, a))
  {
  }

  lemma NextKeepsRecords(w: World, a: Action)
    requires RecordsOk(w)
    ensures RecordsOk(Next(w, a))
  {
    if a.FromOutside() {
      OutsideKeepsRecords(w, a);
    } else if a.InRecovery() {
      RecoveryKeepsRecords(w, a);
    } else if w.phase.Up? {
      LoggerKeepsRecords(w, a);
      ActorKeepsRecords(w, a);
    }
  }
}
