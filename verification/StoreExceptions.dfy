/** The four exceptions happen: consistent states in which the local checks accept a mutation that breaks integrity. */
module StoreExceptions {
  import opened Prelude
  import opened Domain
  import opened Stores
  import opened StoreOps
  import opened StoreProofs

  /**
   In any consistent state, the input message of one turn can be moved to another turn of its thread:
   the update is accepted, and integrity is lost.
   */
  lemma InputCanBeMoved(s: StoreState, from: TurnId, to: TurnId)
    requires Consistent(s) && from in s.turns && to in s.turns && from != to
    requires s.turns[from].threadId == s.turns[to].threadId
    ensures s.turns[from].inputMessageId in s.messages
    ensures var m := s.messages[s.turns[from].inputMessageId].(turnId := Some(to));
      UpdateMessage(s, m).Ok? && !Integrity(UpdateMessage(s, m).value)
  {
    var input := s.turns[from].inputMessageId;
    assert TurnOk(s, s.turns[from]) && MessageOk(s, s.messages[input]);
    var m := s.messages[input].(turnId := Some(to));
    MovedIsOk(s, s.messages[input], m);
    CheckReferencesMeaning(s, m.threadId, m.references);
    CheckPartsMeaning(s, m, m.parts);
    assert m.id == input;
    UpdateMessageKeepsUnlessMisassigned(s, m);
    assert s.turns[from].inputMessageId == m.id && m.turnId != Some(from);
  }

  lemma MovedIsOk(s: StoreState, m: Message, moved: Message)
    requires MessageOk(s, m) && moved == m.(turnId := moved.turnId)
    requires moved.turnId.Some? && moved.turnId.value in s.turns && s.turns[moved.turnId.value].threadId == m.threadId
    ensures MessageOk(s, moved)
  {
    forall i | 0 <= i < |moved.parts|
      ensures PartOk(s, moved, moved.parts[i])
    {
      assert PartOk(s, m, m.parts[i]);
    }
  }

  lemma UnattachedIsNotPresented(s: StoreState, m: Message, id: ArtifactId)
    requires MessageOk(s, m) && id in s.artifacts && s.artifacts[id].messageId.None?
    ensures !PresentsArtifact(m, id)
  {
    assert forall i | 0 <= i < |m.parts| :: PartOk(s, m, m.parts[i]);
  }

  /** An artifact that only tool results name can be deleted, which breaks them. */
  lemma NamedArtifactCanBeDeleted(s: StoreState, id: ArtifactId)
    requires Consistent(s) && id in s.artifacts && s.artifacts[id].messageId.None? && NamedByToolResult(s, id)
    ensures DeleteArtifact(s, id).Ok? && !Integrity(DeleteArtifact(s, id).value)
  {
    forall m | m in s.messages
      ensures !PresentsArtifact(s.messages[m], id)
    {
      UnattachedIsNotPresented(s, s.messages[m], id);
    }
    DeleteArtifactKeepsUnlessNamed(s, id);
  }

  /** A thread, or a workspace, can be the first thing in the store, and is then alone. */
  lemma LoneRecordsAreAccepted(t: Thread, w: Workspace)
    requires t.references == []
    ensures InsertThread(EMPTY_STATE, t).Ok? && !Integrity(InsertThread(EMPTY_STATE, t).value)
    ensures InsertWorkspace(EMPTY_STATE, w).Ok? && !Integrity(InsertWorkspace(EMPTY_STATE, w).value)
  {
    assert t.id in InsertThread(EMPTY_STATE, t).value.threads;
    assert w.id in InsertWorkspace(EMPTY_STATE, w).value.workspaces;
  }

  // ---------------------------------------------------------------------------------------------
  // A consistent state with two turns in a thread and an artifact that a tool has reported

  const INPUT_ONE := Message(1, 1, Some(1), User, [], [], 0)
  const INPUT_TWO := Message(2, 1, Some(2), User, [], [], 0)
  const REPORT := Message(3, 1, None, Tool, [ToolResult("call", "draw", [OutputArtifact(1, "")], false, "")], [], 0)
  const IMAGE := Artifact(1, 1, None, Image, "image/png", "a.png", ["artifacts", "a.png"], 1, "p", "m", "", 0)
  const TURN_ONE := Turn(1, 1, 1, Completed, 0, Some(0), Some(0), None, "")
  const TURN_TWO := Turn(2, 1, 2, Completed, 0, Some(0), Some(0), None, "")

  const BUSY_STATE := EMPTY_STATE.(
    threads := map[1 := Thread(1, "title", 1, Idle, Deferred, [], 0, 0, "")],
    workspaces := map[1 := Workspace(1, 1, "/w", 0)],
    workspaceByThread := map[1 := 1],
    messages := map[1 := INPUT_ONE, 2 := INPUT_TWO, 3 := REPORT],
    messageOrder := map[1 := [1, 2, 3]],
    artifacts := map[1 := IMAGE],
    turns := map[1 := TURN_ONE, 2 := TURN_TWO],
    turnOrder := map[1 := [1, 2]])

  lemma BusyMessages()
    ensures MessagesOk(BUSY_STATE)
  {
    var s := BUSY_STATE;
    assert PartOk(s, REPORT, REPORT.parts[0]);
    assert MessageOk(s, REPORT) && MessageOk(s, INPUT_ONE) && MessageOk(s, INPUT_TWO);
  }

  lemma BusyOthers()
    ensures ThreadsOk(BUSY_STATE) && ArtifactsOk(BUSY_STATE) && TurnsOk(BUSY_STATE) && ProcessesOk(BUSY_STATE)
  {
    var s := BUSY_STATE;
    assert !IsWhitespace("p"[0]) && !IsWhitespace("m"[0]);
    assert ArtifactOk(s, IMAGE);
    assert TurnOk(s, TURN_ONE) && TurnOk(s, TURN_TWO);
  }

  lemma BusyIndexes()
    ensures IndexesOk(BUSY_STATE)
  {
    var s := BUSY_STATE;
    assert [1, 2, 3][0] == 1 && [1, 2, 3][1] == 2 && [1, 2, 3][2] == 3;
    assert [1, 2][0] == 1 && [1, 2][1] == 2;
    assert OrderOk(s.threads.Keys, s.messageOrder, MessageOwners(s.messages));
    assert OrderOk(s.threads.Keys, s.turnOrder, TurnOwners(s.turns));
  }

  lemma BusyIsKeyed()
    ensures Keyed(BUSY_STATE)
  {
  }

  predicate TwoTurns(s: StoreState, from: TurnId, to: TurnId) {
    from in s.turns && to in s.turns && from != to && s.turns[from].threadId == s.turns[to].threadId
  }

  predicate OnlyReported(s: StoreState, id: ArtifactId) {
    id in s.artifacts && s.artifacts[id].messageId.None? && NamedByToolResult(s, id)
  }

  lemma BusyTurns()
    ensures TwoTurns(BUSY_STATE, 1, 2)
  {
  }

  lemma BusyArtifact()
    ensures OnlyReported(BUSY_STATE, 1)
  {
    assert REPORT.parts[0].output[0] == OutputArtifact(1, "");
    assert BUSY_STATE.messages[3] == REPORT && Reports(REPORT.parts[0], 1);
  }

  lemma BusyState() returns (s: StoreState)
    ensures Consistent(s) && TwoTurns(s, 1, 2) && OnlyReported(s, 1)
  {
    BusyMessages();
    BusyOthers();
    BusyIndexes();
    BusyIsKeyed();
    BusyTurns();
    BusyArtifact();
    s := BUSY_STATE;
  }

  /** The state is consistent, the mutation accepted, and its outcome not consistent. */
  predicate Broken(s: StoreState, outcome: Outcome) {
    Consistent(s) && outcome.Ok? && !Integrity(outcome.value)
  }

  lemma AppliedUpdate(s: StoreState, m: Message, now: Timestamp)
    ensures Apply(s, MUpdateMessage(m), now) == UpdateMessage(s, m)
  {
  }

  lemma AppliedDeletion(s: StoreState, id: ArtifactId, now: Timestamp)
    ensures Apply(s, MDeleteArtifact(id), now) == DeleteArtifact(s, id)
  {
  }

  lemma MovingBreaks(s: StoreState, from: TurnId, to: TurnId) returns (m: Message)
    requires Consistent(s) && TwoTurns(s, from, to)
    ensures Broken(s, UpdateMessage(s, m))
  {
    InputCanBeMoved(s, from, to);
    m := s.messages[s.turns[from].inputMessageId].(turnId := Some(to));
  }

  lemma DeletionBreaks(s: StoreState, id: ArtifactId)
    requires Consistent(s) && OnlyReported(s, id)
    ensures Broken(s, DeleteArtifact(s, id))
  {
    NamedArtifactCanBeDeleted(s, id);
  }

  /** So the two kinds of mutation that are sometimes exceptions are so in some consistent state. */
  lemma ExceptionsHappen(now: Timestamp)
    ensures exists s, m :: Broken(s, Apply(s, MUpdateMessage(m), now))
    ensures exists s, a :: Broken(s, Apply(s, MDeleteArtifact(a), now))
  {
    var s := BusyState();
    var m := MovingBreaks(s, 1, 2);
    AppliedUpdate(s, m, now);
    DeletionBreaks(s, 1);
    AppliedDeletion(s, 1, now);
  }
}
