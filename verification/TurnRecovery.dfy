/** After a restart every turn that was queued or running is failed and every running thread made idle. */
module TurnRecovery {
  import opened Prelude
  import opened Domain
  import opened Stores
  import opened StoreOps
  import StoreProofs

  const INTERRUPTED := "app server restarted before the turn completed"

  /** What recovery makes of a turn. */
  function Failing(t: Turn, now: Timestamp): Turn {
    if !t.status.Unfinished() then t
    else
      t.(status := TurnFailed, error := Some(INTERRUPTED), completedAt := Some(now),
         startedAt := if t.status == Queued then Some(now) else t.startedAt)
  }

  /** What it makes of a thread. */
  function Resting(t: Thread, now: Timestamp): Thread {
    if t.status == Running then t.(status := Idle, workflow := NewProgress, updatedAt := now) else t
  }

  function FailAll(turns: map<TurnId, Turn>, done: set<TurnId>, now: Timestamp): map<TurnId, Turn> {
    map u | u in turns :: if u in done then Failing(turns[u], now) else turns[u]
  }

  function RestAll(threads: map<ThreadId, Thread>, done: set<ThreadId>, now: Timestamp): map<ThreadId, Thread> {
    map t | t in threads :: if t in done then Resting(threads[t], now) else threads[t]
  }

  function Progress(s: StoreState, turns: set<TurnId>, threads: set<ThreadId>, now: Timestamp): StoreState {
    s.(turns := FailAll(s.turns, turns, now), threads := RestAll(s.threads, threads, now))
  }

  /** Everything unfinished is failed, every running thread rests, and nothing else changes. */
  function RecoveredTurns(s: StoreState, now: Timestamp): StoreState {
    Progress(s, s.turns.Keys, s.threads.Keys, now)
  }

  lemma ErrorIsTaken(s: StoreState, id: TurnId)
    requires Consistent(s) && id in s.turns
    ensures var failed := s.turns[id].(error := Some(INTERRUPTED));
      UpdateTurn(s, failed) == Ok(s.(turns := s.turns[id := failed])) && Consistent(UpdateTurn(s, failed).value)
  {
    assert TurnOk(s, s.turns[id]);
    StoreProofs.UpdateTurnKeeps(s, s.turns[id].(error := Some(INTERRUPTED)));
  }

  lemma MovedToFailed(s: StoreState, id: TurnId, now: Timestamp)
    requires Consistent(s) && id in s.turns && s.turns[id].status == TurnRunning
    ensures var moved := TransitionTurn(s, id, TurnRunning, TurnFailed, now);
      && moved.Ok? && Consistent(moved.value)
      && moved.value == s.(turns := s.turns[id := s.turns[id].(status := TurnFailed, completedAt := Some(now))])
  {
    StoreProofs.TransitionTurnKeeps(s, id, TurnRunning, TurnFailed, now);
  }

  lemma FailedInTwo(turns: map<TurnId, Turn>, id: TurnId, now: Timestamp)
    requires id in turns && turns[id].status == TurnRunning
    ensures var moved := turns[id := turns[id].(status := TurnFailed, completedAt := Some(now))];
      moved[id := moved[id].(error := Some(INTERRUPTED))] == turns[id := Failing(turns[id], now)]
  {
  }

  lemma FailKeeps(s: StoreState, id: TurnId, now: Timestamp)
    requires Consistent(s) && id in s.turns && s.turns[id].status == TurnRunning
    ensures var moved := TransitionTurn(s, id, TurnRunning, TurnFailed, now);
      && moved.Ok? && Consistent(moved.value) && id in moved.value.turns
      && var failed := moved.value.turns[id].(error := Some(INTERRUPTED));
        && UpdateTurn(moved.value, failed) == Ok(s.(turns := s.turns[id := Failing(s.turns[id], now)]))
        && Consistent(UpdateTurn(moved.value, failed).value)
  {
    MovedToFailed(s, id, now);
    ErrorIsTaken(TransitionTurn(s, id, TurnRunning, TurnFailed, now).value, id);
    FailedInTwo(s.turns, id, now);
  }

  lemma StartKeeps(s: StoreState, id: TurnId, now: Timestamp)
    requires Consistent(s) && id in s.turns && s.turns[id].status == Queued
    ensures var started := TransitionTurn(s, id, Queued, TurnRunning, now);
      && started.Ok? && Consistent(started.value)
      && started.value == s.(turns := s.turns[id := s.turns[id].(status := TurnRunning, startedAt := Some(now))])
  {
    StoreProofs.TransitionTurnKeeps(s, id, Queued, TurnRunning, now);
  }

  lemma FailedTwice(turns: map<TurnId, Turn>, id: TurnId, now: Timestamp)
    requires id in turns && turns[id].status == Queued
    ensures var started := turns[id := turns[id].(status := TurnRunning, startedAt := Some(now))];
      started[id := Failing(started[id], now)] == turns[id := Failing(turns[id], now)]
  {
  }

  /** One turn, through the transitions of the store; none of them can fail. */
  method FailTurn(s: StoreState, id: TurnId, now: Timestamp) returns (r: Outcome)
    requires Consistent(s) && id in s.turns && s.turns[id].status.Unfinished()
    ensures r == Ok(s.(turns := s.turns[id := Failing(s.turns[id], now)]))
    ensures Consistent(r.value)
  {
    if s.turns[id].status == Queued {
      StartKeeps(s, id, now);
      FailedTwice(s.turns, id, now);
      var started := TransitionTurn(s, id, Queued, TurnRunning, now);
      r := FailRunning(started.value, id, now);
    } else {
      r := FailRunning(s, id, now);
    }
  }

  method FailRunning(s: StoreState, id: TurnId, now: Timestamp) returns (r: Outcome)
    requires Consistent(s) && id in s.turns && s.turns[id].status == TurnRunning
    ensures r == Ok(s.(turns := s.turns[id := Failing(s.turns[id], now)]))
    ensures Consistent(r.value)
  {
    FailKeeps(s, id, now);
    var moved := TransitionTurn(s, id, TurnRunning, TurnFailed, now);
    r := UpdateTurn(moved.value, moved.value.turns[id].(error := Some(INTERRUPTED)));
  }

  lemma RestKeeps(s: StoreState, id: ThreadId, now: Timestamp)
    requires Consistent(s) && id in s.threads && s.threads[id].status == Running
    ensures var rested := TransitionThread(s, id, Running, Idle, now);
      rested == Ok(s.(threads := s.threads[id := Resting(s.threads[id], now)])) && Consistent(rested.value)
  {
    StoreProofs.TransitionThreadKeeps(s, id, Running, Idle, now);
  }

  // ---------------------------------------------------------------------------------------------
  // The loops

  lemma FailOneMore(turns: map<TurnId, Turn>, done: set<TurnId>, id: TurnId, now: Timestamp)
    requires id in turns
    ensures var part := FailAll(turns, done, now);
      && (part[id].status.Unfinished() ==> FailAll(turns, done + {id}, now) == part[id := Failing(part[id], now)])
      && (!part[id].status.Unfinished() ==> FailAll(turns, done + {id}, now) == part)
  {
  }

  lemma RestOneMore(threads: map<ThreadId, Thread>, done: set<ThreadId>, id: ThreadId, now: Timestamp)
    requires id in threads && id !in done
    ensures var part := RestAll(threads, done, now);
      && part[id] == threads[id]
      && (part[id].status == Running ==> RestAll(threads, done + {id}, now) == part[id := Resting(part[id], now)])
      && (part[id].status != Running ==> RestAll(threads, done + {id}, now) == part)
  {
  }

  lemma ElementsGrow(q: seq<nat>, i: nat)
    requires i < |q|
    ensures Elements(q[..i + 1]) == Elements(q[..i]) + {q[i]}
  {
    assert q[..i + 1] == q[..i] + [q[i]];
  }

  /** All turns of one thread, in their listed order. */
  method FailTurnsOf(s: StoreState, list: seq<TurnId>, now: Timestamp) returns (r: StoreState)
    requires Consistent(s) && forall i | 0 <= i < |list| :: list[i] in s.turns
    ensures r == s.(turns := FailAll(s.turns, Elements(list), now)) && Consistent(r)
  {
    r := s;
    var i := 0;
    assert FailAll(s.turns, Elements(list[..0]), now) == s.turns;
    while i < |list|
      invariant 0 <= i <= |list|
      invariant r == s.(turns := FailAll(s.turns, Elements(list[..i]), now)) && Consistent(r)
    {
      FailOneMore(s.turns, Elements(list[..i]), list[i], now);
      ElementsGrow(list, i);
      if r.turns[list[i]].status.Unfinished() {
        var failed := FailTurn(r, list[i], now);
        r := failed.value;
      }
      i := i + 1;
    }
    assert list[..i] == list;
  }

  function TurnsOf(turns: map<TurnId, Turn>, threads: set<ThreadId>): set<TurnId> {
    set u | u in turns && turns[u].threadId in threads
  }

  lemma FailAllTwice(turns: map<TurnId, Turn>, a: set<TurnId>, b: set<TurnId>, now: Timestamp)
    ensures FailAll(FailAll(turns, a, now), b, now) == FailAll(turns, a + b, now)
  {
  }

  function ListOf(s: StoreState, t: ThreadId): seq<TurnId> { if t in s.turnOrder then s.turnOrder[t] else [] }

  lemma ListedTurns(s: StoreState, t: ThreadId)
    requires Keyed(s) && OrderOk(s.threads.Keys, s.turnOrder, TurnOwners(s.turns))
    ensures forall i | 0 <= i < |ListOf(s, t)| :: ListOf(s, t)[i] in s.turns
    ensures Elements(ListOf(s, t)) == TurnsOf(s.turns, {t})
  {
    StoreProofs.ListedIsOwned(s.threads.Keys, s.turnOrder, TurnOwners(s.turns), t);
    assert Elements(ListOf(s, t)) == Listed(s.turnOrder, t);
  }

  method RestThread(s: StoreState, t: ThreadId, now: Timestamp) returns (r: StoreState)
    requires Consistent(s) && t in s.threads
    ensures r == s.(threads := RestAll(s.threads, {t}, now)) && Consistent(r)
  {
    RestOneMore(s.threads, {}, t, now);
    assert RestAll(s.threads, {}, now) == s.threads && {} + {t} == {t};
    r := s;
    if s.threads[t].status == Running {
      RestKeeps(s, t, now);
      var rested := TransitionThread(s, t, Running, Idle, now);
      r := rested.value;
    }
  }

  /** One thread: its turns, then the thread itself. */
  method RecoverThread(s: StoreState, t: ThreadId, now: Timestamp) returns (r: StoreState)
    requires Consistent(s) && t in s.threads
    ensures r == Progress(s, TurnsOf(s.turns, {t}), {t}, now) && Consistent(r)
  {
    var list := ListOf(s, t);
    ListedTurns(s, t);
    r := FailTurnsOf(s, list, now);
    r := RestThread(r, t, now);
  }

  lemma ProgressGrows(s: StoreState, done: set<ThreadId>, t: ThreadId, now: Timestamp)
    requires t in s.threads && t !in done
    ensures var part := Progress(s, TurnsOf(s.turns, done), done, now);
      Progress(part, TurnsOf(part.turns, {t}), {t}, now) == Progress(s, TurnsOf(s.turns, done + {t}), done + {t}, now)
  {
    var part := Progress(s, TurnsOf(s.turns, done), done, now);
    FailAllTwice(s.turns, TurnsOf(s.turns, done), TurnsOf(part.turns, {t}), now);
    assert TurnsOf(part.turns, {t}) == TurnsOf(s.turns, {t});
    assert TurnsOf(s.turns, done) + TurnsOf(s.turns, {t}) == TurnsOf(s.turns, done + {t});
    assert RestAll(part.threads, {t}, now) == RestAll(s.threads, done + {t}, now);
  }

  /** The state when these threads have been dealt with. */
  function After(s: StoreState, done: set<ThreadId>, now: Timestamp): StoreState {
    Progress(s, TurnsOf(s.turns, done), done, now)
  }

  lemma AfterNone(s: StoreState, now: Timestamp)
    ensures After(s, {}, now) == s
  {
    assert FailAll(s.turns, TurnsOf(s.turns, {}), now) == s.turns;
    assert RestAll(s.threads, {}, now) == s.threads;
  }

  lemma AfterAll(s: StoreState, now: Timestamp)
    requires TurnsOk(s)
    ensures After(s, s.threads.Keys, now) == RecoveredTurns(s, now)
  {
    AllTurnsOwned(s);
  }

  /** No transition of the whole recovery can fail on a consistent store, and the outcome is consistent. */
  method RecoverInterruptedTurns(s: StoreState, now: Timestamp) returns (r: StoreState)
    requires Consistent(s)
    ensures r == RecoveredTurns(s, now) && Consistent(r)
  {
    r := s;
    var threads := s.threads.Keys;
    var done: set<ThreadId> := {};
    var todo := threads;
    AfterNone(s, now);
    while todo != {}
      invariant done <= threads && todo == threads - done
      invariant r == After(s, done, now) && Consistent(r)
      decreases todo
    {
      var t :| t in todo;
      ProgressGrows(s, done, t, now);
      r := RecoverThread(r, t, now);
      done, todo := done + {t}, todo - {t};
    }
    assert done == threads;
    AfterAll(s, now);
  }

  lemma AllTurnsOwned(s: StoreState)
    requires TurnsOk(s)
    ensures TurnsOf(s.turns, s.threads.Keys) == s.turns.Keys
  {
    assert forall u | u in s.turns :: TurnOk(s, s.turns[u]);
  }

  /** Afterwards nothing is unfinished and nothing runs; finished turns and resting threads are as they were. */
  lemma NothingIsLeftRunning(s: StoreState, now: Timestamp, u: TurnId, t: ThreadId)
    requires u in s.turns && t in s.threads
    ensures var r := RecoveredTurns(s, now);
      && r == s.(turns := r.turns, threads := r.threads)
      && r.turns.Keys == s.turns.Keys && r.threads.Keys == s.threads.Keys
      && !r.turns[u].status.Unfinished()
      && (!s.turns[u].status.Unfinished() ==> r.turns[u] == s.turns[u])
      && (s.turns[u].status.Unfinished() ==>
          r.turns[u].status == TurnFailed && r.turns[u].error.Some? && r.turns[u].completedAt.Some?
          && r.turns[u].threadId == s.turns[u].threadId && r.turns[u].inputMessageId == s.turns[u].inputMessageId)
      && r.threads[t].status != Running
      && (s.threads[t].status != Running ==> r.threads[t] == s.threads[t])
  {
  }
}
