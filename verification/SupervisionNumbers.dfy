/** When event numbers increase over the whole life of a process, and exactly when a crash makes one repeat. */
module SupervisionNumbers {
  import opened Prelude
  import opened Domain
  import opened StepMachines
  import opened Supervision
  import opened SupervisionProofs
  import opened SupervisionOrder

  predicate LastIsOutput(published: seq<Event>) {
    published != [] && published[|published| - 1].kind.OutputEvent?
  }

  predicate AllReach(candidates: seq<ManagedProcess>, last: nat) {
    forall i | 0 <= i < |candidates| :: candidates[i].lastEventSequence >= last
  }

  /** Only an output event is published without a store write: after any other the store knows its number. */
  predicate StoreKnows(w: World) {
    var last := Last(w.published);
    LastIsOutput(w.published) || (w.stored.lastEventSequence >= last && AllReach(w.candidates, last))
  }

  lemma ActorKeepsStoreKnows(w: World, a: Action)
    requires RecordsOk(w) && OrderOk(w) && StoreKnows(w) && w.phase.Up?
    ensures StoreKnows(ActorStep(w, w.phase.server, a))
  {
  }

  lemma LoggerKeepsStoreKnows(w: World, a: Action)
    requires StoreKnows(w) && w.phase.Up?
    ensures StoreKnows(LoggerStep(w, w.phase.server, a))
  {
  }

  lemma RecoveryKeepsStoreKnows(w: World, a: Action)
    requires RecordsOk(w) && OrderOk(w) && StoreKnows(w)
    ensures StoreKnows(RecoveryStep(w, a))
  {
  }

  lemma NextKeepsStoreKnows(w: World, a: Action)
    requires RecordsOk(w) && OrderOk(w) && StoreKnows(w)
    ensures StoreKnows(Next(w, a))
  {
    if a.InRecovery() {
      RecoveryKeepsStoreKnows(w, a);
    } else if !a.FromOutside() && w.phase.Up? {
      ActorKeepsStoreKnows(w, a);
      LoggerKeepsStoreKnows(w, a);
    }
  }

  /** A recovery that numbers a Lost event can load the log, or output was not the last thing published. */
  predicate LogLoads(w: World, a: Action) {
    a.Recover? && w.phase.Restarted? && w.stored.status.Active() ==>
      Found(w, a.log).Some? || !LastIsOutput(w.published)
  }

  predicate EveryLogLoads(w: World, actions: seq<Action>)
    decreases |actions|
  {
    actions == [] || (LogLoads(w, actions[0]) && EveryLogLoads(Next(w, actions[0]), actions[1..]))
  }

  lemma {:induction false} RunKeepsOrder(w: World, actions: seq<Action>)
    requires RecordsOk(w) && OrderOk(w) && StoreKnows(w) && EveryLogLoads(w, actions)
    ensures OrderOk(Run(w, actions))
    decreases |actions|
  {
    if actions != [] {
      NextKeepsRecords(w, actions[0]);
      NextKeepsOrder(w, actions[0]);
      NextKeepsStoreKnows(w, actions[0]);
      RunKeepsOrder(Next(w, actions[0]), actions[1..]);
    }
  }

  /**
   Event numbers strictly increase over the whole life of a process, through failed writes, crashes
   and recoveries at any point, unless a log cannot be loaded when the last published event was output.
   */
  lemma PublishedNumbersIncrease(p: ManagedProcess, actions: seq<Action>)
    requires Fresh(p) && EveryLogLoads(Born(p), actions)
    ensures Increasing(Run(Born(p), actions).published)
  {
    BornOk(p);
    RunKeepsOrder(Born(p), actions);
  }

  // ---------------------------------------------------------------------------------------------
  // The other way: a log that cannot be loaded after output

  /** A server that is up has never been restarted, so no recovery can have gone wrong before. */
  lemma {:induction false} UpKeepsOrder(w: World, actions: seq<Action>)
    requires RecordsOk(w) && (w.phase.Up? ==> OrderOk(w)) && Run(w, actions).phase.Up?
    ensures RecordsOk(Run(w, actions)) && OrderOk(Run(w, actions))
    decreases |actions|
  {
    if actions != [] {
      var w' := Next(w, actions[0]);
      NextKeepsRecords(w, actions[0]);
      if w.phase.Up? {
        NextKeepsOrder(w, actions[0]);
      } else {
        assert !w'.phase.Up?;
      }
      UpKeepsOrder(w', actions[1..]);
    }
  }

  /** What a restart may find was written before the event the logger is about to number. */
  predicate WrittenBefore(w: World) {
    w.phase.Up? ==>
      var v := w.phase.server;
      forall i | 0 <= i < |w.candidates| ::
        w.candidates[i].lastEventSequence <= v.snapshot.lastEventSequence - (if v.logger == Updated then 1 else 0)
  }

  lemma StoreWriteKeepsWrittenBefore(w: World, result: WriteResult)
    requires RecordsOk(w) && WrittenBefore(w) && w.phase.Up?
    ensures WrittenBefore(ActorStep(w, w.phase.server, StoreWrite(result)))
  {
  }

  lemma ActorKeepsWrittenBefore(w: World, a: Action)
    requires RecordsOk(w) && WrittenBefore(w) && w.phase.Up?
    ensures WrittenBefore(ActorStep(w, w.phase.server, a))
  {
    if a.StoreWrite? {
      StoreWriteKeepsWrittenBefore(w, a.result);
    }
  }

  lemma LoggerKeepsWrittenBefore(w: World, a: Action)
    requires RecordsOk(w) && WrittenBefore(w) && w.phase.Up?
    ensures WrittenBefore(LoggerStep(w, w.phase.server, a))
  {
  }

  lemma {:induction false} RunKeepsWrittenBefore(w: World, actions: seq<Action>)
    requires RecordsOk(w) && WrittenBefore(w)
    ensures WrittenBefore(Run(w, actions))
    decreases |actions|
  {
    if actions != [] {
      NextKeepsRecords(w, actions[0]);
      if !actions[0].FromOutside() && !actions[0].InRecovery() && w.phase.Up? {
        ActorKeepsWrittenBefore(w, actions[0]);
        LoggerKeepsWrittenBefore(w, actions[0]);
      }
      RunKeepsWrittenBefore(Next(w, actions[0]), actions[1..]);
    }
  }

  /** An active record a restart may find is one of the old ones or numbered from `n` on. */
  predicate OldOrLater(p: ManagedProcess, earlier: seq<ManagedProcess>, n: nat) {
    p.status.Active() ==> p in earlier || p.lastEventSequence >= n
  }

  predicate OnlyOldOrLater(w: World, earlier: seq<ManagedProcess>, n: nat) {
    && (forall i | 0 <= i < |w.candidates| :: OldOrLater(w.candidates[i], earlier, n))
    && (w.phase.Up? ==> w.phase.server.snapshot.lastEventSequence >= n)
  }

  lemma ActorKeepsOldOrLater(w: World, a: Action, earlier: seq<ManagedProcess>, n: nat)
    requires RecordsOk(w) && OnlyOldOrLater(w, earlier, n) && w.phase.Up?
    ensures OnlyOldOrLater(ActorStep(w, w.phase.server, a), earlier, n)
  {
  }

  lemma LoggerKeepsOldOrLater(w: World, a: Action, earlier: seq<ManagedProcess>, n: nat)
    requires RecordsOk(w) && OnlyOldOrLater(w, earlier, n) && w.phase.Up?
    ensures OnlyOldOrLater(LoggerStep(w, w.phase.server, a), earlier, n)
  {
  }

  lemma RecoveryKeepsOldOrLater(w: World, a: Action, earlier: seq<ManagedProcess>, n: nat)
    requires RecordsOk(w) && OnlyOldOrLater(w, earlier, n) && a.InRecovery()
    ensures OnlyOldOrLater(RecoveryStep(w, a), earlier, n)
  {
  }

  lemma {:induction false} RunKeepsOldOrLater(w: World, actions: seq<Action>, earlier: seq<ManagedProcess>, n: nat)
    requires RecordsOk(w) && OnlyOldOrLater(w, earlier, n)
    ensures OnlyOldOrLater(Run(w, actions), earlier, n)
    decreases |actions|
  {
    if actions != [] {
      var a := actions[0];
      NextKeepsRecords(w, a);
      if a.InRecovery() {
        RecoveryKeepsOldOrLater(w, a, earlier, n);
      } else if !a.FromOutside() && w.phase.Up? {
        ActorKeepsOldOrLater(w, a, earlier, n);
        LoggerKeepsOldOrLater(w, a, earlier, n);
      }
      RunKeepsOldOrLater(Next(w, a), actions[1..], earlier, n);
    }
  }

  /** A restart on one of the contents it may find, with a log that cannot be loaded. */
  function Unloadable(w: World, found: nat): World {
    Next(Next(Next(w, Restart(found)), Recover(None, Succeeds)), PublishLost)
  }

  lemma UnloadableNumbers(w: World, found: nat)
    requires RecordsOk(w) && w.phase.Down? && found < |w.candidates| && w.candidates[found].status.Active()
    ensures Unloadable(w, found).published
      == w.published + [Event(w.candidates[found].lastEventSequence + 1, LostEvent)]
  {
    var w1 := Next(w, Restart(found));
    NextKeepsRecords(w, Restart(found));
    RecoveredIsOk(w1, None);
    assert Next(w1, Recover(None, Succeeds)).phase == LostWritten;
  }

  lemma AppendedIncreases(published: seq<Event>, e: Event)
    requires Increasing(published) && published != []
    ensures Increasing(published + [e]) <==> Last(published) < e.sequence
  {
    var more := published + [e];
    assert more[|published| - 1] == published[|published| - 1] && more[|published|] == e;
  }

  lemma OutputIsPublished(w: World)
    requires RecordsOk(w) && OrderOk(w) && WrittenBefore(w) && w.phase.Up? && w.phase.server.logger == Updated
    ensures var n := w.phase.server.log.sequence; var w1 := Next(w, PublishOutput);
      && RecordsOk(w1) && Increasing(w1.published) && w1.published != [] && Last(w1.published) == n
      && OnlyOldOrLater(w1, w.candidates, n)
      && (forall c | c in w.candidates :: c.lastEventSequence < n)
  {
    var w1 := Next(w, PublishOutput);
    NextKeepsRecords(w, PublishOutput);
    NextKeepsOrder(w, PublishOutput);
    assert w1.candidates == w.candidates;
  }

  lemma RestartRepeats(w: World, found: nat, earlier: seq<ManagedProcess>, n: nat)
    requires RecordsOk(w) && w.phase.Down? && found < |w.candidates| && w.candidates[found].status.Active()
    requires Increasing(w.published) && w.published != [] && Last(w.published) == n
    requires OnlyOldOrLater(w, earlier, n) && forall c | c in earlier :: c.lastEventSequence < n
    ensures Increasing(Unloadable(w, found).published) <==> w.candidates[found] !in earlier
  {
    UnloadableNumbers(w, found);
    var c := w.candidates[found];
    assert OldOrLater(c, earlier, n);
    AppendedIncreases(w.published, Event(c.lastEventSequence + 1, LostEvent));
  }

  /**
   And exactly then: if an output event was the last one published and the log cannot be loaded, the
   Lost event repeats a number if and only if the restart finds a record written before that output.
   */
  lemma UnloadableLogRepeats(p: ManagedProcess, before: seq<Action>, after: seq<Action>, found: nat)
    requires Fresh(p)
    requires var w := Run(Born(p), before); w.phase.Up? && w.phase.server.logger == Updated
    requires var w1 := Next(Run(Born(p), before), PublishOutput); var w2 := Run(w1, after);
      && w2.phase.Down? && w2.published == w1.published
      && found < |w2.candidates| && w2.candidates[found].status.Active()
    ensures var w := Run(Born(p), before); var w2 := Run(Next(w, PublishOutput), after);
      Increasing(Unloadable(w2, found).published) <==> w2.candidates[found] !in w.candidates
  {
    BornOk(p);
    UpKeepsOrder(Born(p), before);
    RunKeepsWrittenBefore(Born(p), before);
    var w := Run(Born(p), before);
    var n := w.phase.server.log.sequence;
    OutputIsPublished(w);
    var w1 := Next(w, PublishOutput);
    RunKeepsRecords(w1, after);
    RunKeepsOldOrLater(w1, after, w.candidates, n);
    RestartRepeats(Run(w1, after), found, w.candidates, n);
  }

  // ---------------------------------------------------------------------------------------------
  // It happens

  /** The process has started, and its first output is logged but not yet announced. */
  predicate FirstOutput(w: World) {
    && w.phase.Up? && w.phase.server.logger == Updated && w.phase.server.log.sequence == 2
    && |w.candidates| == 1 && w.candidates[0].status == ProcessRunning && w.candidates[0].lastEventSequence == 1
    && w.published == [Event(1, StartedEvent)]
  }

  const RECORDING: seq<Action> := [Armed(1, None), StoreWrite(Succeeds)]
  const ANNOUNCING: seq<Action> := [TakeLock, StoreWrite(Succeeds), Publish]
  const LOGGING: seq<Action> := [LoggerTakesLock, LogWrite(Succeeds), UpdateSnapshot]

  predicate Announced(w: World) {
    && w.phase.Up? && w.phase.server.actor == Supervising && w.phase.server.logger == Listening
    && w.phase.server.log == LogFile(0, 0, 0) && w.phase.server.snapshot.lastEventSequence == 1
    && |w.candidates| == 1 && w.candidates[0].status == ProcessRunning && w.candidates[0].lastEventSequence == 1
    && w.published == [Event(1, StartedEvent)]
  }

  /** The store has Running; the started event has still to be numbered. */
  predicate Recorded(w: World) {
    && w.phase.Up? && w.phase.server.actor == Waiting(StartedEvent) && w.phase.server.logger == Absent
    && w.phase.server.log == LogFile(0, 0, 0) && w.phase.server.snapshot.lastEventSequence == 0
    && w.phase.server.snapshot.status == ProcessRunning && w.published == []
  }

  lemma RunningIsRecorded(p: ManagedProcess)
    requires Fresh(p)
    ensures RecordsOk(Run(Born(p), RECORDING)) && Recorded(Run(Born(p), RECORDING))
  {
    BornOk(p);
    var w1 := Next(Born(p), Armed(1, None));
    NextKeepsRecords(Born(p), Armed(1, None));
    ActorWritesAreAccepted(w1);
    NextKeepsRecords(w1, StoreWrite(Succeeds));
    StepsTwo(Next, Born(p), Armed(1, None), StoreWrite(Succeeds));
  }

  /** The started event is numbered and is about to be written. */
  predicate Numbering(w: World) {
    && w.phase.Up? && w.phase.server.actor == Writing(StartedEvent) && w.phase.server.logger == Absent
    && w.phase.server.log == LogFile(0, 0, 0) && w.phase.server.snapshot.lastEventSequence == 1
    && w.phase.server.snapshot.status == ProcessRunning && w.published == []
  }

  lemma StartIsNumbered(w: World)
    requires RecordsOk(w) && Recorded(w)
    ensures RecordsOk(Next(w, TakeLock)) && Numbering(Next(w, TakeLock))
  {
    NextKeepsRecords(w, TakeLock);
  }

  lemma StartIsWritten(w: World)
    requires RecordsOk(w) && Numbering(w)
    ensures Announced(Next(Next(w, StoreWrite(Succeeds)), Publish))
  {
    ActorWritesAreAccepted(w);
  }

  lemma StartIsAnnounced(w: World)
    requires RecordsOk(w) && Recorded(w)
    ensures Announced(Run(w, ANNOUNCING))
  {
    StartIsNumbered(w);
    StartIsWritten(Next(w, TakeLock));
    StepsThree(Next, w, TakeLock, StoreWrite(Succeeds), Publish);
  }

  lemma OutputIsLogged(w: World)
    requires Announced(w)
    ensures FirstOutput(Run(Next(w, Append(0, 1)), LOGGING))
  {
    StepsThree(Next, Next(w, Append(0, 1)), LoggerTakesLock, LogWrite(Succeeds), UpdateSnapshot);
  }

  function UntilOutput(): seq<Action> { RECORDING + ANNOUNCING + [Append(0, 1)] + LOGGING }

  lemma FirstOutputHappens(p: ManagedProcess)
    requires Fresh(p)
    ensures FirstOutput(Run(Born(p), UntilOutput()))
  {
    RunningIsRecorded(p);
    StepsJoin(Next, Born(p), RECORDING, ANNOUNCING);
    var w := Run(Born(p), RECORDING + ANNOUNCING);
    StartIsAnnounced(Run(Born(p), RECORDING));
    StepsOne(Next, w, Append(0, 1));
    StepsJoin(Next, Born(p), RECORDING + ANNOUNCING, [Append(0, 1)]);
    OutputIsLogged(w);
    StepsJoin(Next, Born(p), RECORDING + ANNOUNCING + [Append(0, 1)], LOGGING);
  }

  lemma FirstOutputIsSound(p: ManagedProcess)
    requires Fresh(p)
    ensures RecordsOk(Run(Born(p), UntilOutput()))
  {
    BornOk(p);
    RunKeepsRecords(Born(p), UntilOutput());
  }

  const REPEATING: seq<Event> := [Event(1, StartedEvent), Event(2, OutputEvent), Event(2, LostEvent)]

  lemma OutputThenCrash(w: World)
    requires FirstOutput(w)
    ensures var w' := Next(Next(w, PublishOutput), Crash);
      w'.phase.Down? && w'.candidates == w.candidates && w'.published == REPEATING[..2]
  {
  }

  lemma LossRepeats(w: World)
    requires RecordsOk(w) && FirstOutput(w)
    ensures Unloadable(Next(Next(w, PublishOutput), Crash), 0).published == REPEATING
  {
    var w' := Next(Next(w, PublishOutput), Crash);
    OutputThenCrash(w);
    NextKeepsRecords(w, PublishOutput);
    NextKeepsRecords(Next(w, PublishOutput), Crash);
    UnloadableNumbers(w', 0);
    assert REPEATING[..2] + [Event(2, LostEvent)] == REPEATING;
  }

  lemma LossIsARun(w: World, first: seq<Action>)
    ensures Run(w, first + [PublishOutput, Crash] + [Restart(0), Recover(None, Succeeds), PublishLost])
      == Unloadable(Next(Next(Run(w, first), PublishOutput), Crash), 0)
  {
    StepsJoin(Next, w, first, [PublishOutput, Crash]);
    StepsJoin(Next, w, first + [PublishOutput, Crash], [Restart(0), Recover(None, Succeeds), PublishLost]);
    StepsTwo(Next, Run(w, first), PublishOutput, Crash);
    StepsThree(Next, Run(w, first + [PublishOutput, Crash]), Restart(0), Recover(None, Succeeds), PublishLost);
  }

  lemma LossRuns(w: World, first: seq<Action>)
    requires RecordsOk(Run(w, first)) && FirstOutput(Run(w, first))
    ensures Run(w, first + [PublishOutput, Crash] + [Restart(0), Recover(None, Succeeds), PublishLost]).published
      == REPEATING
  {
    LossRepeats(Run(w, first));
    LossIsARun(w, first);
  }

  lemma RepeatingRun(p: ManagedProcess) returns (actions: seq<Action>)
    requires Fresh(p)
    ensures Run(Born(p), actions).published == REPEATING
  {
    FirstOutputHappens(p);
    FirstOutputIsSound(p);
    LossRuns(Born(p), UntilOutput());
    actions := UntilOutput() + [PublishOutput, Crash] + [Restart(0), Recover(None, Succeeds), PublishLost];
  }

  /** Every process can come to have an event number twice: its first output and its loss are both number 2. */
  lemma NumberRepeats(p: ManagedProcess)
    requires Fresh(p)
    ensures exists actions :: Run(Born(p), actions).published == REPEATING
  {
    var actions := RepeatingRun(p);
  }
}
