/** The numbers of the published events, over crashes and recoveries. */
module SupervisionOrder {
  import opened Prelude
  import opened Domain
  import opened Supervision
  import opened SupervisionProofs

  function Last(published: seq<Event>): nat {
    if published == [] then 0 else published[|published| - 1].sequence
  }

  predicate Increasing(published: seq<Event>) {
    forall i, j | 0 <= i < j < |published| :: published[i].sequence < published[j].sequence
  }

  lemma IncreasingExtends(published: seq<Event>, e: Event)
    requires Increasing(published) && Last(published) < e.sequence
    ensures Increasing(published + [e]) && Last(published + [e]) == e.sequence
  {
  }

  /** Of every pair of contents a restart may find, one holds the number of the last published event. */
  predicate Held(candidates: seq<ManagedProcess>, logs: seq<LogFile>, last: nat) {
    forall i, j | 0 <= i < |candidates| && 0 <= j < |logs| ::
      candidates[i].lastEventSequence >= last || logs[j].sequence >= last
  }

  predicate LogsHold(logs: seq<LogFile>, last: nat) {
    forall j | 0 <= j < |logs| :: logs[j].sequence >= last
  }

  predicate ServerOrder(w: World, v: Server) {
    var last := Last(w.published);
    && v.snapshot.lastEventSequence >= last
    && (ActorHoldsLock(v) ==> v.snapshot.lastEventSequence > last)
    && (v.logger == LogWritten ==> LogsHold(w.logs, v.log.sequence))
    && (v.logger == Updated ==> v.log.sequence > last && LogsHold(w.logs, v.log.sequence))
  }

  predicate OrderOk(w: World) {
    var last := Last(w.published);
    && Increasing(w.published)
    && Held(w.candidates, w.logs, last)
    && Held([w.stored], w.logs, last)
    && (w.phase.Up? ==> ServerOrder(w, w.phase.server))
    && (w.phase.LostWritten? ==> w.stored.lastEventSequence > last)
  }

  /** A recovery that will number a Lost event can read the log, or does not need it. */
  predicate Numbered(w: World, a: Action) {
    a.Recover? && w.phase.Restarted? && w.stored.status.Active() ==>
      Found(w, a.log).Some? || w.stored.lastEventSequence >= Last(w.published)
  }

  /** A record numbered after everything published may be added to what a restart may find. */
  lemma StoredKeepsHeld(w: World, p: ManagedProcess, result: WriteResult)
    requires OrderOk(w) && p.lastEventSequence >= Last(w.published)
    ensures var w' := Stored(w, p, result);
      && Held(w'.candidates, w'.logs, Last(w'.published))
      && Held([w'.stored], w'.logs, Last(w'.published))
      && w' == w.(stored := w'.stored, candidates := w'.candidates)
  {
  }

  lemma RunningWriteKeepsOrder(w: World, result: WriteResult)
    requires RecordsOk(w) && OrderOk(w) && w.phase.Up? && w.phase.server.actor.WritingRunning?
    ensures OrderOk(ActorStep(w, w.phase.server, StoreWrite(result)))
  {
    StoredKeepsHeld(w, w.phase.server.snapshot, result);
  }

  lemma EventWriteKeepsOrder(w: World, result: WriteResult)
    requires RecordsOk(w) && OrderOk(w) && w.phase.Up? && w.phase.server.actor.Writing?
    ensures OrderOk(ActorStep(w, w.phase.server, StoreWrite(result)))
  {
    StoredKeepsHeld(w, w.phase.server.snapshot, result);
  }

  lemma StoreWriteKeepsOrder(w: World, result: WriteResult)
    requires RecordsOk(w) && OrderOk(w) && w.phase.Up?
    ensures OrderOk(ActorStep(w, w.phase.server, StoreWrite(result)))
  {
    if w.phase.server.actor.WritingRunning? {
      RunningWriteKeepsOrder(w, result);
    } else if w.phase.server.actor.Writing? {
      EventWriteKeepsOrder(w, result);
    }
  }

  lemma PublishKeepsOrder(w: World)
    requires RecordsOk(w) && OrderOk(w) && w.phase.Up?
    ensures OrderOk(ActorStep(w, w.phase.server, Publish))
  {
    var v := w.phase.server;
    if v.actor.Publishing? {
      IncreasingExtends(w.published, Event(v.snapshot.lastEventSequence, v.actor.kind));
    }
  }

  lemma AbortKeepsOrder(w: World, late: bool)
    requires RecordsOk(w) && OrderOk(w) && w.phase.Up?
    ensures OrderOk(ActorStep(w, w.phase.server, AbortLogger(late)))
  {
  }

  lemma ActorKeepsOrder(w: World, a: Action)
    requires RecordsOk(w) && OrderOk(w) && w.phase.Up?
    ensures OrderOk(ActorStep(w, w.phase.server, a))
  {
    match a
    case StoreWrite(result) => StoreWriteKeepsOrder(w, result);
    case Publish => PublishKeepsOrder(w);
    case AbortLogger(late) => AbortKeepsOrder(w, late);
    case _ =>
  }

  lemma LogWriteKeepsOrder(w: World, result: WriteResult)
    requires RecordsOk(w) && OrderOk(w) && w.phase.Up?
    ensures OrderOk(LoggerStep(w, w.phase.server, LogWrite(result)))
  {
  }

  lemma PublishOutputKeepsOrder(w: World)
    requires RecordsOk(w) && OrderOk(w) && w.phase.Up?
    ensures OrderOk(LoggerStep(w, w.phase.server, PublishOutput))
  {
    var v := w.phase.server;
    if v.logger == Updated {
      IncreasingExtends(w.published, Event(v.log.sequence, OutputEvent));
    }
  }

  lemma LoggerKeepsOrder(w: World, a: Action)
    requires RecordsOk(w) && OrderOk(w) && w.phase.Up?
    ensures OrderOk(LoggerStep(w, w.phase.server, a))
  {
    match a
    case LogWrite(result) => LogWriteKeepsOrder(w, result);
    case PublishOutput => PublishOutputKeepsOrder(w);
    case _ =>
  }

  /** Recovery numbers the Lost event after everything the store or the log knows of. */
  lemma RecoveredIsNumbered(w: World, log: Option<nat>)
    requires OrderOk(w) && (Found(w, log).Some? || w.stored.lastEventSequence >= Last(w.published))
    ensures Recovered(w, log).lastEventSequence >= Last(w.published)
    ensures w.stored.status.Active() ==> Recovered(w, log).lastEventSequence > Last(w.published)
  {
    if Found(w, log).Some? {
      assert [w.stored][0].lastEventSequence >= Last(w.published) || w.logs[log.value].sequence >= Last(w.published);
    }
  }

  lemma RecoveryKeepsOrder(w: World, a: Action)
    requires RecordsOk(w) && OrderOk(w) && Numbered(w, a)
    ensures OrderOk(RecoveryStep(w, a))
  {
    if a.Recover? && RecoveryStep(w, a) != w {
      RecoveredIsNumbered(w, a.log);
    }
    if a == PublishLost && w.phase == LostWritten {
      IncreasingExtends(w.published, Event(w.stored.lastEventSequence, LostEvent));
    }
  }

  lemma OutsideKeepsOrder(w: World, a: Action)
    requires RecordsOk(w) && OrderOk(w) && a.FromOutside()
    ensures OrderOk(OutsideStep(w, a))
  {
  }

  lemma NextKeepsOrder(w: World, a: Action)
    requires RecordsOk(w) && OrderOk(w) && Numbered(w, a)
    ensures OrderOk(Next(w, a))
  {
    if a.FromOutside() {
      OutsideKeepsOrder(w, a);
    } else if a.InRecovery() {
      RecoveryKeepsOrder(w, a);
    } else if w.phase.Up? {
      LoggerKeepsOrder(w, a);
      ActorKeepsOrder(w, a);
    }
  }

  // ---------------------------------------------------------------------------------------------
  // Runs

  lemma {:induction false} RunKeepsRecords(w: World, actions: seq<Action>)
    requires RecordsOk(w)
    ensures RecordsOk(Run(w, actions))
    decreases |actions|
  {
    if actions != [] {
      NextKeepsRecords(w, actions[0]);
      RunKeepsRecords(Next(w, actions[0]), actions[1..]);
    }
  }

  lemma BornOk(p: ManagedProcess)
    requires Fresh(p)
    ensures RecordsOk(Born(p)) && OrderOk(Born(p))
  {
  }

  /** Whatever happened before, the store never refuses a record of the actor or of a recovery. */
  lemma EveryWriteIsAccepted(p: ManagedProcess, actions: seq<Action>, log: Option<nat>)
    requires Fresh(p)
    ensures var w := Run(Born(p), actions);
      && Accepts(w.stored, Recovered(w, log))
      && (w.phase.Up? && (w.phase.server.actor.WritingRunning? || w.phase.server.actor.Writing?) ==>
          Accepts(w.stored, w.phase.server.snapshot))
  {
    BornOk(p);
    RunKeepsRecords(Born(p), actions);
    var w := Run(Born(p), actions);
    RecoveredIsOk(w, log);
    if w.phase.Up? && (w.phase.server.actor.WritingRunning? || w.phase.server.actor.Writing?) {
      ActorWritesAreAccepted(w);
    }
  }

  // ---------------------------------------------------------------------------------------------
  // The terminal event

  predicate Over(published: seq<Event>) { published != [] && published[|published| - 1].kind.Terminal() }

  predicate OnlyLastTerminal(published: seq<Event>) {
    forall i | 0 <= i < |published| - 1 :: !published[i].kind.Terminal()
  }

  /** Once a terminal event is out, every record a restart may find is terminal and nobody is left to publish. */
  predicate TerminalOk(w: World) {
    && OnlyLastTerminal(w.published)
    && (Over(w.published) ==>
        && w.stored.status.Terminal()
        && (forall i | 0 <= i < |w.candidates| :: w.candidates[i].status.Terminal())
        && !w.phase.LostWritten?
        && (w.phase.Up? ==> w.phase.server.actor == Ended))
  }

  lemma StoreWriteKeepsTerminal(w: World, result: WriteResult)
    requires RecordsOk(w) && TerminalOk(w) && w.phase.Up?
    ensures TerminalOk(ActorStep(w, w.phase.server, StoreWrite(result)))
  {
  }

  lemma PublishKeepsTerminal(w: World)
    requires RecordsOk(w) && TerminalOk(w) && w.phase.Up?
    ensures TerminalOk(ActorStep(w, w.phase.server, Publish))
  {
  }

  lemma ActorKeepsTerminal(w: World, a: Action)
    requires RecordsOk(w) && TerminalOk(w) && w.phase.Up?
    ensures TerminalOk(ActorStep(w, w.phase.server, a))
  {
    match a
    case StoreWrite(result) => StoreWriteKeepsTerminal(w, result);
    case Publish => PublishKeepsTerminal(w);
    case _ =>
  }

  lemma LoggerKeepsTerminal(w: World, a: Action)
    requires RecordsOk(w) && TerminalOk(w) && w.phase.Up?
    ensures TerminalOk(LoggerStep(w, w.phase.server, a))
  {
  }

  lemma RecoveryKeepsTerminal(w: World, a: Action)
    requires RecordsOk(w) && TerminalOk(w)
    ensures TerminalOk(RecoveryStep(w, a))
  {
  }

  lemma OutsideKeepsTerminal(w: World, a: Action)
    requires RecordsOk(w) && TerminalOk(w) && a.FromOutside()
    ensures TerminalOk(OutsideStep(w, a))
  {
  }

  lemma NextKeepsTerminal(w: World, a: Action)
    requires RecordsOk(w) && TerminalOk(w)
    ensures TerminalOk(Next(w, a))
  {
    if a.FromOutside() {
      OutsideKeepsTerminal(w, a);
    } else if a.InRecovery() {
      RecoveryKeepsTerminal(w, a);
    } else if w.phase.Up? {
      LoggerKeepsTerminal(w, a);
      ActorKeepsTerminal(w, a);
    }
  }

  lemma {:induction false} RunKeepsTerminal(w: World, actions: seq<Action>)
    requires RecordsOk(w) && TerminalOk(w)
    ensures TerminalOk(Run(w, actions))
    decreases |actions|
  {
    if actions != [] {
      NextKeepsRecords(w, actions[0]);
      NextKeepsTerminal(w, actions[0]);
      RunKeepsTerminal(Next(w, actions[0]), actions[1..]);
    }
  }

  /** At most one terminal event is ever published, and it is the last event of the process. */
  lemma TerminalEventIsLast(p: ManagedProcess, actions: seq<Action>)
    requires Fresh(p)
    ensures OnlyLastTerminal(Run(Born(p), actions).published)
  {
    BornOk(p);
    RunKeepsTerminal(Born(p), actions);
  }

  // ---------------------------------------------------------------------------------------------
  // No gaps without failures

  /** No store write fails and the server stays up; log writes may fail and the logger may be aborted. */
  predicate Smooth(a: Action) {
    match a
    case StoreWrite(result) => result == Succeeds
    case Crash => false
    case _ => true
  }

  predicate Counted(published: seq<Event>) {
    forall i | 0 <= i < |published| :: published[i].sequence == i + 1
  }

  /** The snapshot counts what is published, and one more while an event is on its way out. */
  predicate GapFree(w: World) {
    && Counted(w.published)
    && w.phase.Up?
    && var v := w.phase.server;
      v.snapshot.lastEventSequence == |w.published| + (if ActorHoldsLock(v) || v.logger == Updated then 1 else 0)
  }

  lemma ActorKeepsGapFree(w: World, a: Action)
    requires RecordsOk(w) && GapFree(w) && Smooth(a)
    ensures GapFree(ActorStep(w, w.phase.server, a))
  {
    if w.phase.server.actor.WritingRunning? || w.phase.server.actor.Writing? {
      ActorWritesAreAccepted(w);
    }
  }

  lemma LoggerKeepsGapFree(w: World, a: Action)
    requires RecordsOk(w) && GapFree(w) && Smooth(a)
    ensures GapFree(LoggerStep(w, w.phase.server, a))
  {
  }

  lemma NextKeepsGapFree(w: World, a: Action)
    requires RecordsOk(w) && GapFree(w) && Smooth(a)
    ensures GapFree(Next(w, a))
  {
    ActorKeepsGapFree(w, a);
    LoggerKeepsGapFree(w, a);
  }

  lemma {:induction false} RunKeepsGapFree(w: World, actions: seq<Action>)
    requires RecordsOk(w) && GapFree(w) && forall i | 0 <= i < |actions| :: Smooth(actions[i])
    ensures GapFree(Run(w, actions))
    decreases |actions|
  {
    if actions != [] {
      NextKeepsRecords(w, actions[0]);
      NextKeepsGapFree(w, actions[0]);
      RunKeepsGapFree(Next(w, actions[0]), actions[1..]);
    }
  }

  /** However log writes go, as a failed one takes no number, the events are numbered 1, 2, 3 and so on without gaps. */
  lemma SmoothRunsCount(p: ManagedProcess, actions: seq<Action>)
    requires Fresh(p) && forall i | 0 <= i < |actions| :: Smooth(actions[i])
    ensures Counted(Run(Born(p), actions).published)
  {
    BornOk(p);
    RunKeepsGapFree(Born(p), actions);
  }
}
