/**
 The parent-death guardian: owner, managed child and guardian run interleaved and talk over three
 one-way connections. The registration carries the group id, the acknowledgement says the guardian
 is armed, and the end of the lifeline without a disarm byte means the owner died.
 */
module Guardians {
  import opened StepMachines

  /**
   Supervising: looks for the end of the leader. Reaped: the leader is gone, looks for the end of the
   group. Parting: the look for the leader failed, waits for it once more. Failing: the start failed,
   about to kill the group. Doomed: has tried to, waits for the leader. Leaving: about to disarm.
   */
  datatype OwnerPc =
    | Starting
    | Prepared
    | Spawning
    | Spawned
    | Confirming
    | Armed
    | Recorded
    | Supervising
    | Reaped
    | Parting
    | Failing
    | Doomed
    | Leaving
    | Disarmed
    | Finished
    | Crashed

  /** The managed child between fork and exec holds copies of the owner's descriptors. */
  datatype ChildPc =
    | Unforked
    | Forked
    | LifelineClosed
    | AckClosed
    | Grouped
    | Registered
    | RegistrationClosed
    | Executing
    | Exited

  datatype GuardianEnd = NoGroup | KilledUnacknowledged | ReadDisarm | KilledOrphans

  datatype GuardianPc =
    | Unborn
    | Cleaning
    | AwaitingGroup
    | Holding(group: nat)
    | Watching(group: nat)
    | Ended(reason: GuardianEnd)

  datatype Group = Unformed | Alive | Gone

  /**
   What failed on the way to the disarm byte: the look for the leader, the wait for it, the look at the
   group that ended supervision, the kill after a failed start. Earlier failed looks at the group
   change nothing.
   */
  datatype Failures = Failures(tryWait: bool, wait: bool, look: bool, kill: bool)

  datatype World = World(
    owner: OwnerPc,
    child: ChildPc,
    guardian: GuardianPc,
    groupId: nat,
    group: Group,
    message: bool,      // registration sent and not yet read
    acknowledged: bool, // armed byte sent
    disarm: bool,       // disarm byte sent
    executed: bool,     // the managed command got to run
    recorded: bool,     // Running was written to the store
    failures: Failures)

  datatype Action =
    // owner
    | Prepare
    | Spawn(childId: nat)
    | ForkFails
    | SpawnReturns
    | DropRegistration
    | ReadAck
    | AckFails
    | RecordRunning(failed: bool)
    | AnnounceStarted(failed: bool)
    | KillGroup(fails: bool)
    | TryWait(fails: bool)
    | Wait(fails: bool)
    | LookAtGroup(fails: bool)
    | SendDisarm
    | Reap
    | Crash
    // child
    | CloseLifeline
    | CloseAck
    | SetGroup
    | Register
    | CloseRegistration
    | Exec
    | GiveUp
    // the managed group
    | LeaderExits
    | GroupDies
    // guardian
    | CloseInherited
    | ReadGroup
    | SendAck
    | ReadLifeline

  // ---------------------------------------------------------------------------------------------
  // Who holds which end

  predicate OwnerHoldsRegistration(w: World) { w.owner.Prepared? || w.owner.Spawning? || w.owner.Spawned? }

  predicate ChildHoldsRegistration(w: World) {
    w.child.Forked? || w.child.LifelineClosed? || w.child.AckClosed? || w.child.Grouped? || w.child.Registered?
  }

  /** Nobody can send a group id any more. The guardian's own copy is closed in its first step. */
  predicate RegistrationEnded(w: World) {
    !OwnerHoldsRegistration(w) && !ChildHoldsRegistration(w) && !w.guardian.Cleaning?
  }

  predicate AckHasReader(w: World) {
    || OwnerHoldsRegistration(w) || w.owner.Confirming?
    || w.child.Forked? || w.child.LifelineClosed?
  }

  predicate OwnerHoldsLifeline(w: World) {
    OwnerHoldsRegistration(w) || w.owner.Confirming? || w.owner.Armed? || w.owner.Recorded?
    || w.owner.Supervising? || w.owner.Reaped? || w.owner.Parting?
    || w.owner.Failing? || w.owner.Doomed? || w.owner.Leaving?
  }

  predicate LifelineEnded(w: World) { !OwnerHoldsLifeline(w) && !w.child.Forked? && !w.guardian.Cleaning? }

  predicate GuardianReads(w: World) { w.guardian.Cleaning? || w.guardian.AwaitingGroup? }

  // ---------------------------------------------------------------------------------------------
  // Steps

  /** The spawn call returns once the child has executed the command or failed to. */
  function SpawnReturned(w: World): World {
    if w.owner == Spawning && w.executed then w.(owner := Spawned)
    else if w.owner == Spawning && w.child == Exited then Disarming(w)
    else w
  }

  /** The disarm byte reaches a guardian that is still there; then every end of the owner is closed. */
  function Disarming(w: World): World { w.(owner := Disarmed, disarm := !w.guardian.Ended?) }

  /** SIGKILL reaches every member; a group that no longer exists is left alone. */
  function Killed(w: World, group: nat): World {
    if group == w.groupId && w.group == Alive then w.(group := Gone, child := Exited) else w
  }

  function OwnerStep(w: World, a: Action): World {
    match a
    case Prepare => if w.owner == Starting then w.(owner := Prepared, guardian := Cleaning) else w
    case Spawn(id) => if w.owner == Prepared then w.(owner := Spawning, child := Forked, groupId := id) else w
    case ForkFails => if w.owner == Prepared then Disarming(w) else w
    case SpawnReturns => SpawnReturned(w)
    case DropRegistration => if w.owner == Spawned then w.(owner := Confirming) else w
    case ReadAck => if w.owner == Confirming && w.acknowledged then w.(owner := Armed) else w
    case AckFails => if w.owner == Confirming then w.(owner := Failing) else w
    case RecordRunning(failed) =>
      if w.owner == Armed then w.(owner := if failed then Failing else Recorded, recorded := true) else w
    case AnnounceStarted(failed) =>
      if w.owner == Recorded then w.(owner := if failed then Failing else Supervising) else w
    case KillGroup(fails) =>
      if w.owner != Failing then w
      else if fails then w.(owner := Doomed, failures := w.failures.(kill := true))
      else Killed(w, w.groupId).(owner := Doomed)
    case TryWait(fails) =>
      if w.owner != Supervising then w
      else if fails then w.(owner := Parting, failures := w.failures.(tryWait := true))
      else if w.child == Exited then w.(owner := Reaped)
      else w
    case Wait(fails) =>
      if w.owner != Parting && w.owner != Doomed then w
      else if fails then w.(owner := Leaving, failures := w.failures.(wait := true))
      else if w.child == Exited then w.(owner := Leaving)
      else w
    case LookAtGroup(fails) =>
      if w.owner != Reaped then w
      else if fails then w.(owner := Leaving, failures := w.failures.(look := true))
      else if w.group == Gone then w.(owner := Leaving)
      else w
    case SendDisarm => if w.owner == Leaving then Disarming(w) else w
    case Reap => if w.owner == Disarmed && w.guardian.Ended? then w.(owner := Finished) else w
    case Crash => w.(owner := Crashed)
    case _ => w
  }

  function ChildStep(w: World, a: Action): World {
    match a
    case CloseLifeline => if w.child == Forked then w.(child := LifelineClosed) else w
    case CloseAck => if w.child == LifelineClosed then w.(child := AckClosed) else w
    case SetGroup => if w.child == AckClosed then w.(child := Grouped, group := Alive) else w
    case Register => if w.child == Grouped && GuardianReads(w) then w.(child := Registered, message := true) else w
    case CloseRegistration => if w.child == Registered then w.(child := RegistrationClosed) else w
    case Exec => if w.child == RegistrationClosed then w.(child := Executing, executed := true) else w
    case GiveUp => // setting the group, registering or executing failed
      if w.child == AckClosed then w.(child := Exited)
      else if w.child == Grouped || w.child == Registered || w.child == RegistrationClosed then
        w.(child := Exited, group := Gone)
      else w
    case LeaderExits => if w.child == Executing then w.(child := Exited) else w
    case GroupDies => if w.child == Exited && w.group == Alive then w.(group := Gone) else w
    case _ => w
  }

  function GuardianStep(w: World, a: Action): World {
    match a
    case CloseInherited => if w.guardian == Cleaning then w.(guardian := AwaitingGroup) else w
    case ReadGroup =>
      if w.guardian == AwaitingGroup && w.message then w.(guardian := Holding(w.groupId), message := false)
      else if w.guardian == AwaitingGroup && RegistrationEnded(w) then w.(guardian := Ended(NoGroup))
      else w
    case SendAck =>
      if w.guardian.Holding? then
        if AckHasReader(w) then w.(guardian := Watching(w.guardian.group), acknowledged := true)
        else Killed(w, w.guardian.group).(guardian := Ended(KilledUnacknowledged))
      else w
    case ReadLifeline =>
      if w.guardian.Watching? && w.disarm then w.(guardian := Ended(ReadDisarm))
      else if w.guardian.Watching? && LifelineEnded(w) then
        Killed(w, w.guardian.group).(guardian := Ended(KilledOrphans))
      else w
    case _ => w
  }

  function Next(w: World, a: Action): World {
    if a.CloseInherited? || a.ReadGroup? || a.SendAck? || a.ReadLifeline? then GuardianStep(w, a)
    else if a.CloseLifeline? || a.CloseAck? || a.SetGroup? || a.Register? || a.CloseRegistration? || a.Exec?
      || a.GiveUp? || a.LeaderExits? || a.GroupDies?
    then ChildStep(w, a)
    else OwnerStep(w, a)
  }

  function Run(w: World, actions: seq<Action>): World { Steps(Next, w, actions) }

  const NONE := Failures(false, false, false, false)

  const START := World(Starting, Unforked, Unborn, 0, Unformed, false, false, false, false, false, NONE)

  // ---------------------------------------------------------------------------------------------
  // What every interleaving keeps

  predicate BeforeSpawn(w: World) { w.owner.Starting? || w.owner.Prepared? }

  /** The group id is on its way to the guardian or with it. */
  predicate GuardianKnows(w: World) {
    || (GuardianReads(w) && w.message)
    || w.guardian == Holding(w.groupId)
    || w.guardian == Watching(w.groupId)
  }

  predicate PastRegistration(w: World) { w.child.Registered? || w.child.RegistrationClosed? || w.child.Executing? }

  predicate AfterSpawn(owner: OwnerPc) {
    owner.Spawned? || owner.Confirming? || owner.Failing? || owner.Doomed? || owner.Leaving? || Guarded(owner)
  }

  /** From the acknowledgement on, while the start goes well. */
  predicate Guarded(owner: OwnerPc) {
    owner.Armed? || owner.Recorded? || owner.Supervising? || owner.Reaped? || owner.Parting?
  }

  /** Without one of these the owner has seen the group gone, or has killed it. */
  predicate LostSight(f: Failures) { f.tryWait || f.look || f.kill }


  predicate Inv(w: World) {
    && (w.owner.Starting? <==> w.guardian.Unborn? && !w.owner.Crashed?)
    && (BeforeSpawn(w) ==> w.child.Unforked?)
    && (w.child.Unforked? ==> !w.message && !w.executed && w.group.Unformed?)
    && (w.guardian.Unborn? ==> w.child.Unforked?)
    && (w.group.Unformed? || w.child.Grouped? || PastRegistration(w) || w.child.Exited?)
    && (w.child.Grouped? || PastRegistration(w) ==> w.group.Alive?)
    && (w.child.Exited? && !w.executed ==> !w.group.Alive?)
    && (w.message || w.guardian.Holding? || w.guardian.Watching? ==> PastRegistration(w) || w.child.Exited?)
    && (w.guardian.Ended? && w.guardian.reason != NoGroup ==> PastRegistration(w) || w.child.Exited?)
    // the id is known from registration on, while the group lives
    && (w.message ==> GuardianReads(w))
    && (w.guardian.Holding? ==> w.guardian.group == w.groupId)
    && (w.guardian.Watching? ==> w.guardian.group == w.groupId && w.acknowledged)
    && (w.acknowledged ==>
        w.guardian.Watching? || w.guardian == Ended(ReadDisarm) || w.guardian == Ended(KilledOrphans))
    && (w.executed ==> w.child.Executing? || w.child.Exited?)
    && (w.child.Executing? ==> w.executed)
    && (PastRegistration(w) || (w.executed && w.group.Alive?) ==> 
        GuardianKnows(w) || w.guardian == Ended(ReadDisarm))
    && (w.guardian.Ended? && w.guardian.reason != NoGroup && w.guardian.reason != ReadDisarm ==> !w.group.Alive?)
    && (w.disarm ==> w.owner.Disarmed? || w.owner.Finished? || w.owner.Crashed?)
    && (w.guardian == Ended(ReadDisarm) ==> w.disarm && w.acknowledged)
    && (w.guardian == Ended(KilledOrphans) ==> !OwnerHoldsLifeline(w))
    // the owner
    && (AfterSpawn(w.owner) ==> w.executed)
    && (Guarded(w.owner) ==> w.guardian == Watching(w.groupId))
    && (w.recorded ==> w.acknowledged && w.executed)
    && (w.owner.Reaped? ==> w.child.Exited?)
    && (w.owner.Doomed? && !w.failures.kill ==> !w.group.Alive?)
    && (w.owner.Leaving? || w.disarm ==>
        && (w.failures.wait || w.child.Exited? || w.child.Unforked?)
        && (LostSight(w.failures) || !w.group.Alive?))
    && (w.owner.Parting? ==> w.failures.tryWait)
    && (w.disarm ==> w.executed || w.child.Exited? || w.child.Unforked?)
    && (w.group.Gone? ==> w.child.Exited?)
    && (w.executed && !w.group.Alive? ==> w.group.Gone?)
  }

  lemma SupervisionKeeps(w: World, a: Action)
    requires Inv(w) && (a.TryWait? || a.Wait? || a.LookAtGroup?)
    ensures Inv(OwnerStep(w, a))
  {
  }

  lemma LettingGoKeeps(w: World, a: Action)
    requires Inv(w) && (a.KillGroup? || a.SendDisarm? || a.Crash?)
    ensures Inv(OwnerStep(w, a))
  {
  }

  lemma OwnerKeeps(w: World, a: Action)
    requires Inv(w)
    ensures Inv(OwnerStep(w, a))
  {
    if a.TryWait? || a.Wait? || a.LookAtGroup? {
      SupervisionKeeps(w, a);
    } else if a.KillGroup? || a.SendDisarm? || a.Crash? {
      LettingGoKeeps(w, a);
    }
  }

  lemma RegisterKeeps(w: World)
    requires Inv(w)
    ensures Inv(ChildStep(w, Register))
  {
  }

  lemma EndingKeeps(w: World, a: Action)
    requires Inv(w) && (a.GiveUp? || a.LeaderExits? || a.GroupDies? || a.Exec?)
    ensures Inv(ChildStep(w, a))
  {
  }

  lemma ChildKeeps(w: World, a: Action)
    requires Inv(w)
    ensures Inv(ChildStep(w, a))
  {
    match a
    case Register => RegisterKeeps(w);
    case GiveUp => EndingKeeps(w, a);
    case LeaderExits => EndingKeeps(w, a);
    case GroupDies => EndingKeeps(w, a);
    case Exec => EndingKeeps(w, a);
    case _ =>
  }

  lemma GuardianKeeps(w: World, a: Action)
    requires Inv(w)
    ensures Inv(GuardianStep(w, a))
  {
  }

  lemma {:induction false} RunKeeps(w: World, actions: seq<Action>)
    requires Inv(w)
    ensures Inv(Run(w, actions))
    decreases |actions|
  {
    if actions != [] {
      OwnerKeeps(w, actions[0]);
      ChildKeeps(w, actions[0]);
      GuardianKeeps(w, actions[0]);
      RunKeeps(Next(w, actions[0]), actions[1..]);
    }
  }

  // ---------------------------------------------------------------------------------------------
  // What that means

  /** Running is written only while an armed guardian holds exactly this group. */
  lemma RecordedOnlyWhenGuarded(actions: seq<Action>, failed: bool)
    ensures var w := Run(START, actions);
      Next(w, RecordRunning(failed)) != w ==> w.guardian == Watching(w.groupId)
  {
    RunKeeps(START, actions);
  }

  /**
   Once Running is written the guardian can only have ended by reading the disarm byte or by killing
   the group. Whether the start succeeded or failed half-way, the byte is sent only when the leader
   has exited, unless a wait for it failed, and only when the group is gone, unless the owner lost
   sight of it.
   */
  lemma GuardedUntilDisarmed(actions: seq<Action>)
    ensures var w := Run(START, actions);
      && (w.recorded && w.guardian.Ended? ==>
          (w.guardian.reason == ReadDisarm && w.disarm) || (w.guardian.reason == KilledOrphans && w.group != Alive))
      && (w.disarm && !w.failures.wait ==> w.child.Exited? || w.child.Unforked?)
      && (w.disarm && !LostSight(w.failures) ==> w.group != Alive)
      && (w.disarm && w.recorded && !LostSight(w.failures) ==> w.group == Gone && w.child == Exited)
  {
    RunKeeps(START, actions);
  }

  /**
   While any member of a group that ran the command lives, the group id is with the guardian or on its
   way to it, until the guardian reads a disarm byte, and exactly until then.
   */
  lemma NeverUnguarded(actions: seq<Action>)
    ensures var w := Run(START, actions);
      && (w.executed && w.group.Alive? ==> (GuardianKnows(w) <==> w.guardian != Ended(ReadDisarm)))
      && (w.guardian == Ended(ReadDisarm) && w.group.Alive? ==> LostSight(w.failures))
  {
    RunKeeps(START, actions);
  }

  function Told(w: World): World { GuardianStep(GuardianStep(w, CloseInherited), ReadGroup) }

  function Served(w: World): World { GuardianStep(GuardianStep(w, SendAck), ReadLifeline) }

  /** The guardian left to itself. */
  function GuardianFinishes(w: World): World { Served(Told(w)) }

  /** The owner has died or is done with the guardian, and no fork is half-way. */
  predicate LetGo(w: World) {
    && (w.owner.Crashed? || w.owner.Disarmed? || w.owner.Finished?)
    && (w.executed || w.child.Exited? || w.child.Unforked?)
    && !w.guardian.Unborn?
  }

  /**
   Once the owner has died, wherever it was, or is done, the remaining steps of the guardian end it. A
   member of a group that ran the command survives that if and only if an armed guardian had been
   disarmed while the group lived, and then the owner had lost sight of the group.
   */
  lemma OwnerDeathKillsTheGroup(actions: seq<Action>)
    requires LetGo(Run(START, actions))
    ensures var w := Run(START, actions); var w' := GuardianFinishes(w);
      && w'.guardian.Ended?
      && (w'.executed && w'.group.Alive? <==> w.disarm && w.acknowledged && w.group.Alive?)
      && (w'.executed && w'.group.Alive? ==> LostSight(w.failures))
  {
    RunKeeps(START, actions);
    OrphansDie(Run(START, actions));
  }

  predicate Survives(w: World) { w.disarm && w.acknowledged && w.group.Alive? }

  lemma OrphansDie(w: World)
    requires Inv(w) && LetGo(w)
    ensures var w' := GuardianFinishes(w);
      w'.guardian.Ended? && (w'.executed && w'.group.Alive? <==> Survives(w))
  {
    OrphanIsTold(w);
    RegisteredOrphansDie(Told(w));
  }

  lemma OrphanIsTold(w: World)
    requires Inv(w) && LetGo(w)
    ensures var w' := Told(w);
      && Inv(w') && !w'.guardian.Unborn? && !GuardianReads(w')
      && w' == w.(guardian := w'.guardian, message := w'.message)
  {
    GuardianKeeps(w, CloseInherited);
    OrphanIsRead(GuardianStep(w, CloseInherited));
  }

  lemma OrphanIsRead(w: World)
    requires Inv(w) && LetGo(w) && !w.guardian.Cleaning?
    ensures var w' := GuardianStep(w, ReadGroup);
      && Inv(w') && !w'.guardian.Unborn? && !GuardianReads(w')
      && w' == w.(guardian := w'.guardian, message := w'.message)
  {
    GuardianKeeps(w, ReadGroup);
  }

  lemma RegisteredOrphansDie(w: World)
    requires Inv(w) && LetGo(w)
    requires w.guardian.Holding? || w.guardian.Watching? || w.guardian.Ended?
    ensures var w' := Served(w);
      w'.guardian.Ended? && (w'.executed && w'.group.Alive? <==> Survives(w))
  {
    GuardianKeeps(w, SendAck);
    GuardianKeeps(GuardianStep(w, SendAck), ReadLifeline);
  }

  // ---------------------------------------------------------------------------------------------
  // Each failure can leave a group unguarded

  /** The guardian is gone and a member of the group lives. */
  predicate Unguarded(w: World) { w.guardian == Ended(ReadDisarm) && w.executed && w.group.Alive? }

  lemma LookFails(w: World)
    requires Inv(w) && w.owner.Reaped? && w.group.Alive?
    ensures var w' := Next(Next(Next(w, LookAtGroup(true)), SendDisarm), ReadLifeline);
      Unguarded(w') && w'.recorded == w.recorded && w'.failures == w.failures.(look := true)
  {
  }

  lemma WaitFails(w: World, fails: bool)
    requires Inv(w) && w.owner.Supervising? && w.group.Alive?
    ensures var w' := Next(Next(Next(Next(w, TryWait(true)), Wait(fails)), SendDisarm), ReadLifeline);
      Unguarded(w') <==> fails || w.child.Exited?
  {
  }

  lemma KillFails(w: World)
    requires Inv(w) && w.owner.Failing? && w.group.Alive?
    ensures var w' := Next(Next(Next(w, KillGroup(true)), Wait(true)), SendDisarm);
      && LetGo(w') && w'.group.Alive? && w'.executed && w'.acknowledged == w.acknowledged
      && (w.acknowledged ==> w'.disarm)
  {
  }

  lemma RunThree(actions: seq<Action>, a: Action, b: Action, c: Action)
    ensures Run(START, actions + [a, b, c]) == Next(Next(Next(Run(START, actions), a), b), c)
  {
    StepsJoin(Next, START, actions, [a, b, c]);
    StepsThree(Next, Run(START, actions), a, b, c);
  }

  lemma RunFour(actions: seq<Action>, a: Action, b: Action, c: Action, d: Action)
    ensures Run(START, actions + [a, b, c, d]) == Next(Next(Next(Next(Run(START, actions), a), b), c), d)
  {
    StepsJoin(Next, START, actions, [a, b, c, d]);
    StepsFour(Next, Run(START, actions), a, b, c, d);
  }

  /** A failed look at the group, wherever the owner has reaped the leader of a living group. */
  lemma FailedLookUnguards(actions: seq<Action>)
    requires var w := Run(START, actions); w.owner.Reaped? && w.group.Alive?
    ensures var w' := Run(START, actions + [LookAtGroup(true), SendDisarm, ReadLifeline]);
      && Unguarded(w') && w'.recorded == Run(START, actions).recorded
      && w'.failures == Run(START, actions).failures.(look := true)
  {
    RunKeeps(START, actions);
    LookFails(Run(START, actions));
    RunThree(actions, LookAtGroup(true), SendDisarm, ReadLifeline);
  }

  /**
   A failed look for the leader, wherever the owner supervises a living group: the group is left
   unguarded as soon as the last wait ends. The leader can be left alive only if that fails as well.
   */
  lemma FailedWaitUnguards(actions: seq<Action>, fails: bool)
    requires var w := Run(START, actions); w.owner.Supervising? && w.group.Alive?
    ensures var w' := Run(START, actions + [TryWait(true), Wait(fails), SendDisarm, ReadLifeline]);
      Unguarded(w') <==> fails || Run(START, actions).child.Exited?
  {
    RunKeeps(START, actions);
    WaitFails(Run(START, actions), fails);
    RunFour(actions, TryWait(true), Wait(fails), SendDisarm, ReadLifeline);
  }

  /**
   A failed kill and a failed wait after a failed start: what is left of the group survives the
   guardian exactly if that was armed; an unarmed guardian kills the group itself.
   */
  lemma FailedKillUnguards(actions: seq<Action>)
    requires var w := Run(START, actions); w.owner.Failing? && w.group.Alive?
    ensures var w := Run(START, actions);
      var w' := GuardianFinishes(Run(START, actions + [KillGroup(true), Wait(true), SendDisarm]));
      w'.guardian.Ended? && (w'.executed && w'.group.Alive? <==> w.acknowledged)
  {
    RunKeeps(START, actions);
    KillFails(Run(START, actions));
    RunThree(actions, KillGroup(true), Wait(true), SendDisarm);
    RunKeeps(START, actions + [KillGroup(true), Wait(true), SendDisarm]);
    OrphansDie(Run(START, actions + [KillGroup(true), Wait(true), SendDisarm]));
  }

  // ---------------------------------------------------------------------------------------------
  // It happens

  const FORKED := World(Spawning, AckClosed, Cleaning, 0, Unformed, false, false, false, false, false, NONE)
  const RUNNING := World(Spawning, Executing, Cleaning, 0, Alive, true, false, false, true, false, NONE)
  const ARMED := World(Spawned, Executing, Watching(0), 0, Alive, false, true, false, true, false, NONE)
  const WATCHED := World(Supervising, Executing, Watching(0), 0, Alive, false, true, false, true, true, NONE)
  const LEADERLESS := World(Reaped, Exited, Watching(0), 0, Alive, false, true, false, true, true, NONE)

  lemma ForkingSteps()
    ensures Next(Next(Next(Next(START, Prepare), Spawn(0)), CloseLifeline), CloseAck) == FORKED
  {
  }

  lemma ChildSteps()
    ensures Next(Next(Next(Next(FORKED, SetGroup), Register), CloseRegistration), Exec) == RUNNING
  {
  }

  lemma ArmingSteps()
    ensures Next(Next(Next(Next(RUNNING, CloseInherited), ReadGroup), SendAck), SpawnReturns) == ARMED
  {
  }

  lemma StartingSteps()
    ensures Next(Next(Next(Next(ARMED, DropRegistration), ReadAck), RecordRunning(false)), AnnounceStarted(false))
      == WATCHED
  {
  }

  lemma ReapingSteps()
    ensures Next(Next(WATCHED, LeaderExits), TryWait(false)) == LEADERLESS
  {
  }

  lemma LeaderIsReaped() returns (actions: seq<Action>)
    ensures Run(START, actions) == LEADERLESS
  {
    ForkingSteps();
    ChildSteps();
    ArmingSteps();
    StartingSteps();
    ReapingSteps();
    var first := [] + [Prepare, Spawn(0), CloseLifeline, CloseAck];
    RunFour([], Prepare, Spawn(0), CloseLifeline, CloseAck);
    var second := first + [SetGroup, Register, CloseRegistration, Exec];
    RunFour(first, SetGroup, Register, CloseRegistration, Exec);
    var third := second + [CloseInherited, ReadGroup, SendAck, SpawnReturns];
    RunFour(second, CloseInherited, ReadGroup, SendAck, SpawnReturns);
    var fourth := third + [DropRegistration, ReadAck, RecordRunning(false), AnnounceStarted(false)];
    RunFour(third, DropRegistration, ReadAck, RecordRunning(false), AnnounceStarted(false));
    StepsExtend(Next, START, fourth, LeaderExits);
    StepsExtend(Next, START, fourth + [LeaderExits], TryWait(false));
    actions := fourth + [LeaderExits] + [TryWait(false)];
  }

  /** After one failed look at the group, members that outlive their leader run on and nothing guards them. */
  lemma UnguardedAfterFailedLook()
    ensures exists actions :: var w := Run(START, actions);
      Unguarded(w) && w.recorded && w.failures == NONE.(look := true)
  {
    var before := LeaderIsReaped();
    FailedLookUnguards(before);
    var w := Run(START, before + [LookAtGroup(true), SendDisarm, ReadLifeline]);
    assert Unguarded(w) && w.recorded && w.failures == NONE.(look := true);
  }
}
