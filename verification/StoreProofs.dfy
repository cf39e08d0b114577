/** Which mutations keep the integrity of the state with only their local checks, and which do not. */
module StoreProofs {
  import opened Prelude
  import opened Domain
  import opened Stores
  import opened StoreOps

  // ---------------------------------------------------------------------------------------------
  // Order lists

  lemma PushKeepsOrder(threads: set<ThreadId>, order: map<ThreadId, seq<nat>>, owner: map<nat, ThreadId>, t: ThreadId,
                       id: nat)
    requires OrderOk(threads, order, owner) && t in threads && id !in owner
    ensures OrderOk(threads, Push(order, t, id), owner[id := t])
  {
    var order', owner' := Push(order, t, id), owner[id := t];
    var before := if t in order then order[t] else [];
    assert order'[t] == before + [id];
    forall k | k in owner'
      ensures owner'[k] in order' && k in order'[owner'[k]]
    {
      if k != id {
        assert k in order[owner[k]];
      }
    }
  }

  lemma {:induction false} RetainIsFilter(q: seq<nat>, id: nat)
    requires NoDuplicates(q)
    ensures NoDuplicates(Retain(q, id))
    ensures forall k :: k in Retain(q, id) <==> k in q && k != id
  {
    if q != [] {
      RetainIsFilter(q[1..], id);
      assert q == [q[0]] + q[1..];
      var r := Retain(q[1..], id);
      assert q[0] !in r;
      assert Retain(q, id) == (if q[0] == id then [] else [q[0]]) + r;
    }
  }

  lemma UnlistKeepsOrder(threads: set<ThreadId>, order: map<ThreadId, seq<nat>>, owner: map<nat, ThreadId>, id: nat)
    requires OrderOk(threads, order, owner) && id in owner
    ensures OrderOk(threads, Unlist(order, owner[id], id), owner - {id})
  {
    var t := owner[id];
    RetainIsFilter(order[t], id);
    var order', owner' := Unlist(order, t, id), owner - {id};
    forall u | u in order'
      ensures u in threads && NoDuplicates(order'[u])
      ensures forall i | 0 <= i < |order'[u]| :: order'[u][i] in owner' && owner'[order'[u][i]] == u
    {
      forall i | 0 <= i < |order'[u]|
        ensures order'[u][i] in owner' && owner'[order'[u][i]] == u
      {
        assert order'[u][i] in order[u];
      }
    }
    forall k | k in owner'
      ensures owner'[k] in order' && k in order'[owner'[k]]
    {
      assert k in order[owner[k]];
    }
  }

  lemma MoreThreadsKeepOrder(threads: set<ThreadId>, more: set<ThreadId>, order: map<ThreadId, seq<nat>>,
                             owner: map<nat, ThreadId>)
    requires OrderOk(threads, order, owner) && threads <= more
    ensures OrderOk(more, order, owner)
  {
  }

  lemma DropThreadKeepsOrder(threads: set<ThreadId>, order: map<ThreadId, seq<nat>>, owner: map<nat, ThreadId>,
                             t: ThreadId)
    requires OrderOk(threads, order, owner)
    ensures Listed(order, t) == set id | id in owner && owner[id] == t
    ensures OrderOk(threads - {t}, order - {t}, owner - Listed(order, t))
  {
    assert forall id | id in Listed(order, t) :: id in owner && owner[id] == t;
    forall id | id in owner && owner[id] == t
      ensures id in Listed(order, t)
    {
      assert id in order[t];
    }
    var order', owner' := order - {t}, owner - Listed(order, t);
    forall u | u in order'
      ensures u in threads - {t} && NoDuplicates(order'[u])
      ensures forall i | 0 <= i < |order'[u]| :: order'[u][i] in owner' && owner'[order'[u][i]] == u
    {
      assert order'[u] == order[u];
    }
    forall k | k in owner'
      ensures owner'[k] in order' && k in order'[owner'[k]]
    {
      assert k in order[owner[k]];
    }
  }

  // ---------------------------------------------------------------------------------------------
  // Frames

  /** Everything a link can point at is still there and still belongs to the same thread. */
  predicate Extends(s: StoreState, s': StoreState) {
    && s.projects.Keys <= s'.projects.Keys
    && s.threads.Keys <= s'.threads.Keys
    && (forall m | m in s.messages :: m in s'.messages && s'.messages[m].threadId == s.messages[m].threadId)
    && (forall t | t in s.turns :: t in s'.turns && s'.turns[t].threadId == s.turns[t].threadId)
    && (forall a | a in s.artifacts :: a in s'.artifacts && s'.artifacts[a] == s.artifacts[a])
  }

  /** The links of a list of references all lead somewhere in the new state. */
  predicate TargetsSurvive(s': StoreState, refs: seq<ContextReference>) {
    forall i | 0 <= i < |refs| ::
      match refs[i]
      case ProjectReference(projectId, _) => projectId in s'.projects
      case ThreadReference(threadId, _, ids) =>
        threadId in s'.threads && forall j | 0 <= j < |ids| :: SelectedOk(s', threadId, ids[j])
  }

  lemma ReferencesTransfer(s: StoreState, s': StoreState, owner: ThreadId, refs: seq<ContextReference>)
    requires ReferencesOk(s, owner, refs) && TargetsSurvive(s', refs)
    ensures ReferencesOk(s', owner, refs)
  {
    forall i | 0 <= i < |refs|
      ensures ReferenceOk(s', owner, refs[i])
    {
      assert ReferenceOk(s, owner, refs[i]);
    }
  }

  lemma ReferencesExtend(s: StoreState, s': StoreState, owner: ThreadId, refs: seq<ContextReference>)
    requires Extends(s, s') && ReferencesOk(s, owner, refs)
    ensures ReferencesOk(s', owner, refs)
  {
    forall i | 0 <= i < |refs|
      ensures match refs[i]
        case ProjectReference(projectId, _) => projectId in s'.projects
        case ThreadReference(threadId, _, ids) =>
          threadId in s'.threads && forall j | 0 <= j < |ids| :: SelectedOk(s', threadId, ids[j])
    {
      assert ReferenceOk(s, owner, refs[i]);
      if refs[i].ThreadReference? {
        forall j | 0 <= j < |refs[i].messageIds|
          ensures SelectedOk(s', refs[i].threadId, refs[i].messageIds[j])
        {
          assert SelectedOk(s, refs[i].threadId, refs[i].messageIds[j]);
        }
      }
    }
    ReferencesTransfer(s, s', owner, refs);
  }

  lemma MessageExtends(s: StoreState, s': StoreState, m: Message)
    requires Extends(s, s') && MessageOk(s, m)
    ensures MessageOk(s', m)
  {
    ReferencesExtend(s, s', m.threadId, m.references);
    forall i | 0 <= i < |m.parts|
      ensures PartOk(s', m, m.parts[i])
    {
      assert PartOk(s, m, m.parts[i]);
      if m.parts[i].ToolResult? {
        forall j | 0 <= j < |m.parts[i].output|
          ensures OutputPartOk(s', m.threadId, m.parts[i].output[j])
        {
          assert OutputPartOk(s, m.threadId, m.parts[i].output[j]);
        }
      }
    }
  }

  /** Records that fitted before and are kept still fit when links only gain targets. */
  predicate KeepsOrFits(s: StoreState, s': StoreState) {
    && (forall t | t in s'.threads ::
        (t in s.threads && s'.threads[t].references == s.threads[t].references)
          || ReferencesOk(s', t, s'.threads[t].references))
    && (forall m | m in s'.messages ::
        (m in s.messages && s'.messages[m] == s.messages[m]) || MessageOk(s', s'.messages[m]))
    && (forall a | a in s'.artifacts :: a in s.artifacts || ArtifactOk(s', s'.artifacts[a]))
    && (forall p | p in s'.processes ::
        (p in s.processes && s'.processes[p] == s.processes[p]) || ProcessOk(s', s'.processes[p]))
  }

  /** Turns stay sound while their thread, and their input message's thread and turn, stay. */
  predicate TurnsKeepOrFit(s: StoreState, s': StoreState) {
    && s.threads.Keys <= s'.threads.Keys
    && (forall t | t in s'.turns ::
        || TurnOk(s', s'.turns[t])
        || (t in s.turns
            && s'.turns[t].id == s.turns[t].id && s'.turns[t].threadId == s.turns[t].threadId
            && s'.turns[t].inputMessageId == s.turns[t].inputMessageId))
    && (forall m | m in s.messages ::
        && m in s'.messages
        && s'.messages[m].threadId == s.messages[m].threadId
        && s'.messages[m].turnId == s.messages[m].turnId)
  }

  lemma LinksExtend(s: StoreState, s': StoreState)
    requires LinksOk(s) && Extends(s, s') && KeepsOrFits(s, s') && TurnsKeepOrFit(s, s')
    ensures LinksOk(s')
  {
    forall t | t in s'.threads
      ensures ReferencesOk(s', t, s'.threads[t].references)
    {
      if t in s.threads && s'.threads[t].references == s.threads[t].references {
        ReferencesExtend(s, s', t, s.threads[t].references);
      }
    }
    forall m | m in s'.messages
      ensures MessageOk(s', s'.messages[m])
    {
      if m in s.messages && s'.messages[m] == s.messages[m] {
        MessageExtends(s, s', s.messages[m]);
      }
    }
  }

  // ---------------------------------------------------------------------------------------------
  // One lemma per mutation

  lemma ProjectFiledKeeps(s: StoreState, p: Project)
    requires Consistent(s) && RootsOk(s.projects[p.id := p])
    ensures Consistent(s.(projects := s.projects[p.id := p]))
  {
    var s' := s.(projects := s.projects[p.id := p]);
    LinksExtend(s, s');
    ProjectIndexes(s, p);
    assert Keyed(s') by {
      assert Keyed(s) && ProjectsKeyed(s'.projects);
    }
  }

  lemma ProjectIndexes(s: StoreState, p: Project)
    requires IndexesOk(s) && RootsOk(s.projects[p.id := p])
    ensures IndexesOk(s.(projects := s.projects[p.id := p]))
  {
  }

  lemma InsertProjectKeeps(s: StoreState, p: Project)
    requires Consistent(s) && InsertProject(s, p).Ok?
    ensures Consistent(InsertProject(s, p).value)
  {
    ProjectFiledKeeps(s, p);
  }

  lemma UpdateProjectKeeps(s: StoreState, p: Project)
    requires Consistent(s) && UpdateProject(s, p).Ok?
    ensures Consistent(UpdateProject(s, p).value)
  {
    ProjectFiledKeeps(s, p);
  }

  lemma DeleteProjectKeeps(s: StoreState, id: ProjectId)
    requires Consistent(s) && DeleteProject(s, id).Ok?
    ensures Consistent(DeleteProject(s, id).value)
  {
    DeleteProjectLinks(s, id);
    DetachedProcesses(s.processes, s.processByOrigin, id);
  }

  lemma DetachedProcesses(processes: map<ProcessId, ManagedProcess>, index: map<ProcessOrigin, ProcessId>,
                          id: ProjectId)
    requires ProcessesKeyed(processes) && ProcessIndexOk(processes, index)
    ensures var processes' := map p | p in processes :: Detached(processes[p], id);
      ProcessesKeyed(processes') && ProcessIndexOk(processes', index)
  {
  }

  lemma DeleteProjectLinks(s: StoreState, id: ProjectId)
    requires LinksOk(s) && DeleteProject(s, id).Ok?
    ensures LinksOk(DeleteProject(s, id).value)
  {
    var s' := DeleteProject(s, id).value;
    forall t | t in s.threads
      ensures ReferencesOk(s', t, s.threads[t].references)
    {
      ReferencesWithoutProject(s, s', t, s.threads[t].references, id);
    }
    forall m | m in s.messages
      ensures MessageOk(s', s.messages[m])
    {
      assert MessageOk(s, s.messages[m]);
      ReferencesWithoutProject(s, s', s.messages[m].threadId, s.messages[m].references, id);
      PartsDependOnArtifacts(s, s', s.messages[m]);
    }
    DetachedLinks(s, s', id);
  }

  lemma ReferencesWithoutProject(s: StoreState, s': StoreState, owner: ThreadId, refs: seq<ContextReference>,
                                 id: ProjectId)
    requires s'.projects == s.projects - {id} && s'.threads == s.threads && s'.messages == s.messages
    requires ReferencesOk(s, owner, refs) && !ReferencesProject(refs, id)
    ensures ReferencesOk(s', owner, refs)
  {
    forall i | 0 <= i < |refs|
      ensures ReferenceOk(s', owner, refs[i])
    {
      assert ReferenceOk(s, owner, refs[i]);
      if refs[i].ThreadReference? {
        SelectedElsewhere(s, s', refs[i]);
      }
    }
  }

  lemma DetachedLinks(s: StoreState, s': StoreState, id: ProjectId)
    requires ArtifactsOk(s) && TurnsOk(s) && ProcessesOk(s)
    requires s'.projects == s.projects - {id} && s'.threads == s.threads && s'.messages == s.messages
    requires s'.artifacts == s.artifacts && s'.turns == s.turns
    requires s'.processes == map p | p in s.processes :: Detached(s.processes[p], id)
    ensures ArtifactsOk(s') && TurnsOk(s') && ProcessesOk(s')
  {
    forall p | p in s'.processes
      ensures ProcessOk(s', s'.processes[p])
    {
      assert ProcessOk(s, s.processes[p]);
    }
  }

  lemma SelectedElsewhere(s: StoreState, s': StoreState, r: ContextReference)
    requires s.messages == s'.messages && r.ThreadReference?
    ensures forall i | 0 <= i < |r.messageIds| ::
      SelectedOk(s, r.threadId, r.messageIds[i]) ==> SelectedOk(s', r.threadId, r.messageIds[i])
  {
  }

  lemma PartsDependOnArtifacts(s: StoreState, s': StoreState, m: Message)
    requires s.artifacts == s'.artifacts && forall i | 0 <= i < |m.parts| :: PartOk(s, m, m.parts[i])
    ensures forall i | 0 <= i < |m.parts| :: PartOk(s', m, m.parts[i])
  {
    forall i | 0 <= i < |m.parts|
      ensures PartOk(s', m, m.parts[i])
    {
      assert PartOk(s, m, m.parts[i]);
    }
  }

  /** A thread inserted without its workspace always leaves it pointing at nothing. */
  lemma InsertThreadBreaks(s: StoreState, t: Thread)
    requires Consistent(s) && InsertThread(s, t).Ok?
    ensures Keyed(InsertThread(s, t).value) && !Integrity(InsertThread(s, t).value)
  {
    var s' := InsertThread(s, t).value;
    assert s'.threads[t.id] == t;
    assert forall w | w in s.workspaces :: s.workspaces[w].threadId in s.threads;
  }

  lemma InsertThreadWithWorkspaceKeeps(s: StoreState, t: Thread, w: Workspace)
    requires Consistent(s) && InsertThreadWithWorkspace(s, t, w).Ok?
    ensures Consistent(InsertThreadWithWorkspace(s, t, w).value)
  {
    PairIndexes(s, t, w);
    PairLinks(s, t, w);
    assert Keyed(InsertThreadWithWorkspace(s, t, w).value) by {
      assert Keyed(s);
    }
  }

  lemma PairLinks(s: StoreState, t: Thread, w: Workspace)
    requires LinksOk(s) && Keyed(s) && InsertThreadWithWorkspace(s, t, w).Ok?
    ensures LinksOk(InsertThreadWithWorkspace(s, t, w).value)
  {
    CheckReferencesMeaning(s, t.id, t.references);
    NewThreadLinks(s, t, s.workspaces[w.id := w], s.workspaceByThread[t.id := w.id]);
  }

  lemma PairIndexes(s: StoreState, t: Thread, w: Workspace)
    requires IndexesOk(s) && t.workspaceId == w.id && w.threadId == t.id
    requires t.id !in s.threads && w.id !in s.workspaces && t.id !in s.workspaceByThread
    ensures IndexesOk(s.(threads := s.threads[t.id := t], workspaces := s.workspaces[w.id := w],
                         workspaceByThread := s.workspaceByThread[t.id := w.id]))
  {
    var more := s.threads[t.id := t].Keys;
    MoreThreadsKeepOrder(s.threads.Keys, more, s.messageOrder, MessageOwners(s.messages));
    MoreThreadsKeepOrder(s.threads.Keys, more, s.turnOrder, TurnOwners(s.turns));
    PairKeepsWorkspaces(s.threads, s.workspaces, s.workspaceByThread, t, w);
  }

  lemma PairKeepsWorkspaces(threads: map<ThreadId, Thread>, workspaces: map<WorkspaceId, Workspace>,
                            index: map<ThreadId, WorkspaceId>, t: Thread, w: Workspace)
    requires WorkspacesOk(threads, workspaces, index)
    requires t.workspaceId == w.id && w.threadId == t.id
    requires t.id !in threads && w.id !in workspaces && t.id !in index
    ensures WorkspacesOk(threads[t.id := t], workspaces[w.id := w], index[t.id := w.id])
  {
  }

  lemma NewThreadLinks(s: StoreState, t: Thread, workspaces: map<WorkspaceId, Workspace>,
                       index: map<ThreadId, WorkspaceId>)
    requires LinksOk(s) && ReferencesOk(s, t.id, t.references)
    ensures LinksOk(s.(threads := s.threads[t.id := t], workspaces := workspaces, workspaceByThread := index))
  {
    var s' := s.(threads := s.threads[t.id := t], workspaces := workspaces, workspaceByThread := index);
    ReferencesExtend(s, s', t.id, t.references);
    LinksExtend(s, s');
  }

  /** Replacing a thread by one with the same workspace and sound references keeps integrity. */
  lemma ReplaceThreadKeeps(s: StoreState, t: Thread)
    requires Consistent(s) && t.id in s.threads && s.threads[t.id].workspaceId == t.workspaceId
    requires ReferencesOk(s, t.id, t.references)
    ensures Consistent(s.(threads := s.threads[t.id := t]))
  {
    NewThreadLinks(s, t, s.workspaces, s.workspaceByThread);
    assert s.threads[t.id := t].Keys == s.threads.Keys;
  }

  lemma UpdateThreadKeeps(s: StoreState, t: Thread)
    requires Consistent(s) && UpdateThread(s, t).Ok?
    ensures Consistent(UpdateThread(s, t).value)
  {
    CheckReferencesMeaning(s, t.id, t.references);
    ReplaceThreadKeeps(s, t);
  }

  lemma UpdateTitleKeeps(s: StoreState, id: ThreadId, title: string, now: Timestamp)
    requires Consistent(s) && UpdateThreadTitleIfDefault(s, id, title, now).Ok?
    ensures Consistent(UpdateThreadTitleIfDefault(s, id, title, now).value)
  {
    assert s.threads[id].id == id && ReferencesOk(s, id, s.threads[id].references);
    ReplaceThreadKeeps(s, s.threads[id].(title := title, updatedAt := now));
  }

  lemma TransitionThreadKeeps(s: StoreState, id: ThreadId, a: ThreadStatus, b: ThreadStatus, now: Timestamp)
    requires Consistent(s) && TransitionThread(s, id, a, b, now).Ok?
    ensures Consistent(TransitionThread(s, id, a, b, now).value)
  {
    var t := s.threads[id];
    assert t.id == id && ReferencesOk(s, id, t.references);
    var workflow := if a == Running && b == Idle then NewProgress else t.workflow;
    ReplaceThreadKeeps(s, t.(status := b, workflow := workflow, updatedAt := now));
  }

  lemma TransitionWorkflowKeeps(s: StoreState, id: ThreadId, v: WorkflowState, w: WorkflowState, now: Timestamp)
    requires Consistent(s) && TransitionWorkflow(s, id, v, w, now).Ok?
    ensures Consistent(TransitionWorkflow(s, id, v, w, now).value)
  {
    assert s.threads[id].id == id && ReferencesOk(s, id, s.threads[id].references);
    ReplaceThreadKeeps(s, s.threads[id].(workflow := w, updatedAt := now));
  }

  /** In a consistent state a thread without workspace does not exist, so this insert always breaks it. */
  lemma InsertWorkspaceBreaks(s: StoreState, w: Workspace)
    requires Consistent(s) && InsertWorkspace(s, w).Ok?
    ensures Keyed(InsertWorkspace(s, w).value) && !Integrity(InsertWorkspace(s, w).value)
  {
    var s' := InsertWorkspace(s, w).value;
    assert s'.workspaces[w.id] == w;
    assert forall t | t in s.threads :: s.threads[t].workspaceId in s.workspaces;
  }

  lemma UpdateWorkspaceKeeps(s: StoreState, w: Workspace)
    requires Consistent(s) && UpdateWorkspace(s, w).Ok?
    ensures Consistent(UpdateWorkspace(s, w).value)
  {
    LinksExtend(s, s.(workspaces := s.workspaces[w.id := w]));
  }

  /** In a consistent state every workspace has its thread, so it cannot be deleted on its own. */
  lemma DeleteWorkspaceRefuses(s: StoreState, id: WorkspaceId)
    requires Consistent(s)
    ensures DeleteWorkspace(s, id).Err?
  {
  }

  lemma AddMessageOrder(s: StoreState, m: Message)
    requires OrderOk(s.threads.Keys, s.messageOrder, MessageOwners(s.messages))
    requires m.threadId in s.threads && m.id !in s.messages
    ensures OrderOk(s.threads.Keys, AddMessage(s, m).messageOrder, MessageOwners(AddMessage(s, m).messages))
  {
    PushKeepsOrder(s.threads.Keys, s.messageOrder, MessageOwners(s.messages), m.threadId, m.id);
    assert MessageOwners(AddMessage(s, m).messages) == MessageOwners(s.messages)[m.id := m.threadId];
  }

  lemma AddedMessageKeeps(s: StoreState, m: Message)
    requires Consistent(s) && MessageOk(s, m) && m.id !in s.messages
    ensures Consistent(AddMessage(s, m))
  {
    AddMessageOrder(s, m);
    NewMessageLinks(s, m);
  }

  lemma AppendMessageKeeps(s: StoreState, m: Message)
    requires Consistent(s) && AppendMessage(s, m).Ok?
    ensures Consistent(AppendMessage(s, m).value)
  {
    CheckReferencesMeaning(s, m.threadId, m.references);
    CheckPartsMeaning(s, m, m.parts);
    AddedMessageKeeps(s, m);
  }

  lemma NewMessageLinks(s: StoreState, m: Message)
    requires LinksOk(s) && MessageOk(s, m) && m.id !in s.messages
    ensures LinksOk(AddMessage(s, m))
  {
    MessageExtends(s, AddMessage(s, m), m);
    LinksExtend(s, AddMessage(s, m));
  }

  /** The new version of an input message names another turn than the one it is the input of. */
  predicate MisassignsInput(s: StoreState, m: Message) {
    exists t :: t in s.turns && s.turns[t].inputMessageId == m.id && m.turnId.Some? && m.turnId != Some(t)
  }

  lemma ChangedMessageKeeps(s: StoreState, m: Message)
    requires Consistent(s) && MessageOk(s, m) && m.id in s.messages && s.messages[m.id].threadId == m.threadId
    requires !MisassignsInput(s, m)
    ensures Consistent(s.(messages := s.messages[m.id := m]))
  {
    assert MessageOwners(s.messages[m.id := m]) == MessageOwners(s.messages);
    ChangedMessageLinks(s, m);
  }

  lemma UpdatedMessage(s: StoreState, m: Message)
    requires UpdateMessage(s, m).Ok?
    ensures MessageOk(s, m) && m.id in s.messages && s.messages[m.id].threadId == m.threadId
    ensures UpdateMessage(s, m).value == s.(messages := s.messages[m.id := m])
  {
    CheckReferencesMeaning(s, m.threadId, m.references);
    CheckPartsMeaning(s, m, m.parts);
  }

  lemma UpdateMessageKeepsUnlessMisassigned(s: StoreState, m: Message)
    requires Consistent(s) && UpdateMessage(s, m).Ok?
    ensures Keyed(UpdateMessage(s, m).value)
    ensures Integrity(UpdateMessage(s, m).value) <==> !MisassignsInput(s, m)
  {
    UpdatedMessage(s, m);
    if MisassignsInput(s, m) {
      MisassignedLinks(s, m);
    } else {
      ChangedMessageKeeps(s, m);
    }
  }

  lemma MisassignedLinks(s: StoreState, m: Message)
    requires LinksOk(s) && TurnsKeyed(s.turns) && m.id in s.messages && MisassignsInput(s, m)
    ensures !LinksOk(s.(messages := s.messages[m.id := m]))
  {
    var s' := s.(messages := s.messages[m.id := m]);
    var t :| t in s.turns && s.turns[t].inputMessageId == m.id && m.turnId.Some? && m.turnId != Some(t);
    assert !TurnOk(s', s'.turns[t]);
  }

  lemma ChangedMessageLinks(s: StoreState, m: Message)
    requires LinksOk(s) && TurnsKeyed(s.turns) && !MisassignsInput(s, m)
    requires MessageOk(s, m) && m.id in s.messages && s.messages[m.id].threadId == m.threadId
    ensures LinksOk(s.(messages := s.messages[m.id := m]))
  {
    var s' := s.(messages := s.messages[m.id := m]);
    MessageExtends(s, s', m);
    assert forall t | t in s.turns :: TurnOk(s, s.turns[t]) && TurnOk(s', s'.turns[t]);
    forall k | k in s.messages && k != m.id
      ensures MessageOk(s', s'.messages[k])
    {
      MessageExtends(s, s', s.messages[k]);
    }
    forall t | t in s.threads
      ensures ReferencesOk(s', t, s.threads[t].references)
    {
      ReferencesExtend(s, s', t, s.threads[t].references);
    }
  }

  lemma DeleteMessageKeeps(s: StoreState, id: MessageId)
    requires Consistent(s) && DeleteMessage(s, id).Ok?
    ensures Consistent(DeleteMessage(s, id).value)
  {
    DeleteMessageIndexes(s, id);
    DeleteMessageLinks(s, id);
    DeleteMessageKeyed(s, id);
  }

  lemma DeleteMessageKeyed(s: StoreState, id: MessageId)
    requires Keyed(s) && DeleteMessage(s, id).Ok?
    ensures Keyed(DeleteMessage(s, id).value)
  {
  }

  lemma DeleteMessageIndexes(s: StoreState, id: MessageId)
    requires IndexesOk(s) && DeleteMessage(s, id).Ok?
    ensures IndexesOk(DeleteMessage(s, id).value)
  {
    UnlistKeepsOrder(s.threads.Keys, s.messageOrder, MessageOwners(s.messages), id);
    assert MessageOwners(s.messages - {id}) == MessageOwners(s.messages) - {id};
  }

  lemma OtherMessageStays(s: StoreState, m: MessageId, id: MessageId)
    requires LinksOk(s) && MessagesKeyed(s.messages) && DeleteMessage(s, id).Ok? && m in s.messages && m != id
    ensures MessageOk(DeleteMessage(s, id).value, s.messages[m])
  {
    var s' := DeleteMessage(s, id).value;
    assert MessageOk(s, s.messages[m]);
    UnselectedReferences(s, s', s.messages[m].threadId, s.messages[m].references, id);
    PartsOfOthers(s, s', s.messages[m], id);
  }

  lemma DeleteMessageLinks(s: StoreState, id: MessageId)
    requires LinksOk(s) && MessagesKeyed(s.messages) && DeleteMessage(s, id).Ok?
    ensures LinksOk(DeleteMessage(s, id).value)
  {
    var s' := DeleteMessage(s, id).value;
    forall t | t in s.threads
      ensures ReferencesOk(s', t, s.threads[t].references)
    {
      UnselectedReferences(s, s', t, s.threads[t].references, id);
    }
    forall m | m in s'.messages
      ensures MessageOk(s', s'.messages[m])
    {
      OtherMessageStays(s, m, id);
    }
    DeletedInputLinks(s, s', id);
  }

  lemma DeletedInputLinks(s: StoreState, s': StoreState, id: MessageId)
    requires ArtifactsOk(s) && TurnsOk(s) && s'.threads == s.threads && s'.turns == s.turns
      && s'.messages == s.messages - {id}
    requires s'.artifacts == map a | a in s.artifacts :: Unpresented(s.artifacts[a], id)
    requires forall t | t in s.turns :: s.turns[t].inputMessageId != id
    ensures ArtifactsOk(s') && TurnsOk(s')
  {
    forall a | a in s'.artifacts
      ensures ArtifactOk(s', s'.artifacts[a])
    {
      assert ArtifactOk(s, s.artifacts[a]);
    }
    forall t | t in s'.turns
      ensures TurnOk(s', s'.turns[t])
    {
      assert TurnOk(s, s.turns[t]);
    }
  }

  lemma UnselectedReferences(s: StoreState, s': StoreState, owner: ThreadId, refs: seq<ContextReference>, id: MessageId)
    requires s'.projects == s.projects && s'.threads == s.threads && s'.messages == s.messages - {id}
    requires ReferencesOk(s, owner, refs) && !ReferencesMessage(refs, id)
    ensures ReferencesOk(s', owner, refs)
  {
    forall i | 0 <= i < |refs|
      ensures ReferenceOk(s', owner, refs[i])
    {
      assert ReferenceOk(s, owner, refs[i]);
      if refs[i].ThreadReference? {
        forall j | 0 <= j < |refs[i].messageIds|
          ensures SelectedOk(s', refs[i].threadId, refs[i].messageIds[j])
        {
          assert SelectedOk(s, refs[i].threadId, refs[i].messageIds[j]);
          assert refs[i].messageIds[j] in refs[i].messageIds;
        }
      }
    }
  }

  lemma PartsOfOthers(s: StoreState, s': StoreState, m: Message, id: MessageId)
    requires m.id != id && s'.artifacts == map a | a in s.artifacts :: Unpresented(s.artifacts[a], id)
    requires forall i | 0 <= i < |m.parts| :: PartOk(s, m, m.parts[i])
    ensures forall i | 0 <= i < |m.parts| :: PartOk(s', m, m.parts[i])
  {
    forall i | 0 <= i < |m.parts|
      ensures PartOk(s', m, m.parts[i])
    {
      assert PartOk(s, m, m.parts[i]);
      if m.parts[i].ToolResult? {
        forall j | 0 <= j < |m.parts[i].output|
          ensures OutputPartOk(s', m.threadId, m.parts[i].output[j])
        {
          assert OutputPartOk(s, m.threadId, m.parts[i].output[j]);
        }
      }
    }
  }

  predicate Reports(part: MessagePart, id: ArtifactId) {
    part.ToolResult? && exists j ::
      0 <= j < |part.output| && part.output[j].OutputArtifact? && part.output[j].artifactId == id
  }

  /** Some tool result still names the artifact. */
  predicate NamedByToolResult(s: StoreState, id: ArtifactId) {
    exists m, i :: m in s.messages && 0 <= i < |s.messages[m].parts| && Reports(s.messages[m].parts[i], id)
  }

  lemma DeleteArtifactKeepsUnlessNamed(s: StoreState, id: ArtifactId)
    requires Consistent(s) && DeleteArtifact(s, id).Ok?
    ensures Keyed(DeleteArtifact(s, id).value)
    ensures Integrity(DeleteArtifact(s, id).value) <==> !NamedByToolResult(s, id)
  {
    if NamedByToolResult(s, id) {
      NamedArtifactLinks(s, id);
    } else {
      DeleteArtifactLinks(s, id);
    }
  }

  lemma NamedArtifactLinks(s: StoreState, id: ArtifactId)
    requires NamedByToolResult(s, id)
    ensures !LinksOk(s.(artifacts := s.artifacts - {id}))
  {
    var s' := s.(artifacts := s.artifacts - {id});
    var m, i :| m in s.messages && 0 <= i < |s.messages[m].parts| && Reports(s.messages[m].parts[i], id);
    var part := s.messages[m].parts[i];
    var j :| 0 <= j < |part.output| && part.output[j].OutputArtifact? && part.output[j].artifactId == id;
    assert !OutputPartOk(s', s.messages[m].threadId, part.output[j]);
    assert !PartOk(s', s.messages[m], part);
    assert !MessageOk(s', s'.messages[m]);
  }

  lemma DeleteArtifactLinks(s: StoreState, id: ArtifactId)
    requires LinksOk(s) && DeleteArtifact(s, id).Ok? && !NamedByToolResult(s, id)
    ensures LinksOk(DeleteArtifact(s, id).value)
  {
    var s' := DeleteArtifact(s, id).value;
    forall owner, refs: seq<ContextReference> | ReferencesOk(s, owner, refs)
      ensures ReferencesOk(s', owner, refs)
    {
      ReferencesSame(s, s', owner, refs);
    }
    forall m | m in s'.messages
      ensures MessageOk(s', s'.messages[m])
    {
      assert MessageOk(s, s.messages[m]);
      PartsNotNaming(s, s', s.messages[m], id);
    }
  }

  lemma ReferencesSame(s: StoreState, s': StoreState, owner: ThreadId, refs: seq<ContextReference>)
    requires s'.projects == s.projects && s'.threads == s.threads && s'.messages == s.messages
    requires ReferencesOk(s, owner, refs)
    ensures ReferencesOk(s', owner, refs)
  {
    forall i | 0 <= i < |refs|
      ensures ReferenceOk(s', owner, refs[i])
    {
      assert ReferenceOk(s, owner, refs[i]);
      if refs[i].ThreadReference? {
        SelectedElsewhere(s, s', refs[i]);
      }
    }
  }

  lemma PartsNotNaming(s: StoreState, s': StoreState, m: Message, id: ArtifactId)
    requires s'.artifacts == s.artifacts - {id}
    requires forall i | 0 <= i < |m.parts| :: PartOk(s, m, m.parts[i]) && !Reports(m.parts[i], id)
    requires !PresentsArtifact(m, id)
    ensures forall i | 0 <= i < |m.parts| :: PartOk(s', m, m.parts[i])
  {
    forall i | 0 <= i < |m.parts|
      ensures PartOk(s', m, m.parts[i])
    {
      assert PartOk(s, m, m.parts[i]);
      if m.parts[i].ToolResult? {
        assert !Reports(m.parts[i], id);
        forall j | 0 <= j < |m.parts[i].output|
          ensures OutputPartOk(s', m.threadId, m.parts[i].output[j])
        {
          assert OutputPartOk(s, m.threadId, m.parts[i].output[j]);
        }
      }
    }
  }

  lemma {:induction false} AddArtifactsKeyed(artifacts: map<ArtifactId, Artifact>, added: seq<Artifact>)
    requires ArtifactsKeyed(artifacts) && AddArtifacts(artifacts, added).Some?
    ensures ArtifactsKeyed(AddArtifacts(artifacts, added).value)
    decreases |added|
  {
    if added != [] {
      AddArtifactsKeyed(artifacts[added[0].id := added[0]], added[1..]);
    }
  }

  lemma {:induction false} AddImagesKeyed(artifacts: map<ArtifactId, Artifact>, added: seq<Artifact>, owner: Message)
    requires ArtifactsKeyed(artifacts) && AddImages(artifacts, added, owner).Ok?
    ensures ArtifactsKeyed(AddImages(artifacts, added, owner).value)
    decreases |added|
  {
    if added != [] {
      AddImagesKeyed(artifacts[added[0].id := added[0]], added[1..], owner);
    }
  }

  /** The mutations that validate the whole candidate commit only consistent states. */
  lemma InsertArtifactsKeeps(s: StoreState, added: seq<Artifact>)
    requires Keyed(s) && InsertArtifacts(s, added).Ok?
    ensures Consistent(InsertArtifacts(s, added).value)
  {
    AddArtifactsKeyed(s.artifacts, added);
  }

  lemma AppendImageGenerationKeeps(s: StoreState, user: Message, assistant: Message, added: seq<Artifact>)
    requires Keyed(s) && AppendImageGeneration(s, user, assistant, added).Ok?
    ensures Consistent(AppendImageGeneration(s, user, assistant, added).value)
  {
    AddImagesKeyed(s.artifacts, added, assistant);
    MessageKeyed(s.messages, user);
    MessageKeyed(s.messages[user.id := user], assistant);
    TouchedKeyed(s.threads, assistant.threadId, assistant.createdAt);
  }

  lemma InsertTurnInputKeeps(s: StoreState, input: Message, t: Turn, added: seq<Artifact>)
    requires Keyed(s) && InsertTurnInput(s, input, t, added).Ok?
    ensures Consistent(InsertTurnInput(s, input, t, added).value)
  {
    AddArtifactsKeyed(s.artifacts, added);
    MessageKeyed(s.messages, input);
    TurnKeyed(s.turns, t);
    TouchedKeyed(s.threads, input.threadId, input.createdAt);
  }

  lemma MessageKeyed(messages: map<MessageId, Message>, m: Message)
    requires MessagesKeyed(messages)
    ensures MessagesKeyed(messages[m.id := m])
  {
  }

  lemma TurnKeyed(turns: map<TurnId, Turn>, t: Turn)
    requires TurnsKeyed(turns)
    ensures TurnsKeyed(turns[t.id := t])
  {
  }

  lemma TouchedKeyed(threads: map<ThreadId, Thread>, id: ThreadId, at: Timestamp)
    requires ThreadsKeyed(threads)
    ensures ThreadsKeyed(Touched(threads, id, at))
  {
  }

  lemma NewTurnLinks(s: StoreState, t: Turn, order: map<ThreadId, seq<TurnId>>)
    requires LinksOk(s) && TurnOk(s, t) && (t.id in s.turns ==> s.turns[t.id].threadId == t.threadId)
    ensures LinksOk(s.(turns := s.turns[t.id := t], turnOrder := order))
  {
    LinksExtend(s, s.(turns := s.turns[t.id := t], turnOrder := order));
  }

  lemma NewTurnIndexes(s: StoreState, t: Turn)
    requires IndexesOk(s) && t.threadId in s.threads && t.id !in s.turns
    ensures IndexesOk(AddTurn(s, t))
  {
    PushKeepsOrder(s.threads.Keys, s.turnOrder, TurnOwners(s.turns), t.threadId, t.id);
    assert TurnOwners(s.turns[t.id := t]) == TurnOwners(s.turns)[t.id := t.threadId];
  }

  lemma InsertTurnKeeps(s: StoreState, t: Turn)
    requires Consistent(s) && InsertTurn(s, t).Ok?
    ensures Consistent(InsertTurn(s, t).value)
  {
    NewTurnLinks(s, t, Push(s.turnOrder, t.threadId, t.id));
    NewTurnIndexes(s, t);
    TurnKeyed(s.turns, t);
  }

  lemma ReplaceTurnKeeps(s: StoreState, t: Turn)
    requires Consistent(s) && t.id in s.turns && TurnOk(s, t) && s.turns[t.id].threadId == t.threadId
    ensures Consistent(s.(turns := s.turns[t.id := t]))
  {
    NewTurnLinks(s, t, s.turnOrder);
    TurnKeyed(s.turns, t);
    assert TurnOwners(s.turns[t.id := t]) == TurnOwners(s.turns);
  }

  lemma UpdateTurnKeeps(s: StoreState, t: Turn)
    requires Consistent(s) && UpdateTurn(s, t).Ok?
    ensures Consistent(UpdateTurn(s, t).value)
  {
    ReplaceTurnKeeps(s, t);
  }

  lemma TransitionTurnKeeps(s: StoreState, id: TurnId, a: TurnStatus, b: TurnStatus, now: Timestamp)
    requires Consistent(s) && TransitionTurn(s, id, a, b, now).Ok?
    ensures Consistent(TransitionTurn(s, id, a, b, now).value)
  {
    assert TurnOk(s, s.turns[id]) && s.turns[id].id == id;
    ReplaceTurnKeeps(s, MovedTurn(s.turns[id], b, now));
  }

  lemma DeleteTurnKeeps(s: StoreState, id: TurnId)
    requires Consistent(s) && DeleteTurn(s, id).Ok?
    ensures Consistent(DeleteTurn(s, id).value)
  {
    DeleteTurnIndexes(s, id);
    DeleteTurnLinks(s, id);
  }

  lemma DeleteTurnIndexes(s: StoreState, id: TurnId)
    requires IndexesOk(s) && DeleteTurn(s, id).Ok?
    ensures IndexesOk(DeleteTurn(s, id).value)
  {
    UnlistKeepsOrder(s.threads.Keys, s.turnOrder, TurnOwners(s.turns), id);
    assert TurnOwners(s.turns - {id}) == TurnOwners(s.turns) - {id};
  }

  lemma MessageWithoutTurn(s: StoreState, m: MessageId, id: TurnId)
    requires LinksOk(s) && DeleteTurn(s, id).Ok? && m in s.messages
    ensures MessageOk(DeleteTurn(s, id).value, s.messages[m])
  {
    var s' := DeleteTurn(s, id).value;
    assert MessageOk(s, s.messages[m]);
    ReferencesSame(s, s', s.messages[m].threadId, s.messages[m].references);
    PartsDependOnArtifacts(s, s', s.messages[m]);
  }

  lemma DeleteTurnLinks(s: StoreState, id: TurnId)
    requires LinksOk(s) && DeleteTurn(s, id).Ok?
    ensures LinksOk(DeleteTurn(s, id).value)
  {
    var s' := DeleteTurn(s, id).value;
    forall t | t in s.threads
      ensures ReferencesOk(s', t, s.threads[t].references)
    {
      ReferencesSame(s, s', t, s.threads[t].references);
    }
    forall m | m in s.messages
      ensures MessageOk(s', s.messages[m])
    {
      MessageWithoutTurn(s, m, id);
    }
  }

  lemma NewProcessLinks(s: StoreState, p: ManagedProcess, index: map<ProcessOrigin, ProcessId>)
    requires LinksOk(s) && ProcessOk(s, p)
    ensures LinksOk(s.(processes := s.processes[p.id := p], processByOrigin := index))
  {
    LinksExtend(s, s.(processes := s.processes[p.id := p], processByOrigin := index));
  }

  lemma ProcessFiled(processes: map<ProcessId, ManagedProcess>, index: map<ProcessOrigin, ProcessId>, p: ManagedProcess)
    requires ProcessesKeyed(processes) && ProcessIndexOk(processes, index)
    requires if p.id in processes then processes[p.id].origin == p.origin else p.origin !in index
    ensures ProcessesKeyed(processes[p.id := p])
    ensures ProcessIndexOk(processes[p.id := p], index[p.origin := p.id])
  {
  }

  lemma InsertProcessKeeps(s: StoreState, p: ManagedProcess)
    requires Consistent(s) && InsertProcess(s, p).Ok?
    ensures Consistent(InsertProcess(s, p).value)
  {
    NewProcessLinks(s, p, s.processByOrigin[p.origin := p.id]);
    ProcessFiled(s.processes, s.processByOrigin, p);
  }

  lemma ReplaceProcessKeeps(s: StoreState, p: ManagedProcess)
    requires Consistent(s) && ReplaceProcess(s, p).Ok?
    ensures Consistent(ReplaceProcess(s, p).value)
  {
    ReplacementFits(s, p);
    FiledProcessKeeps(s, p);
  }

  lemma FiledProcessKeeps(s: StoreState, p: ManagedProcess)
    requires Consistent(s) && p.id in s.processes && s.processes[p.id].origin == p.origin && ProcessOk(s, p)
    ensures Consistent(s.(processes := s.processes[p.id := p]))
  {
    NewProcessLinks(s, p, s.processByOrigin);
    FiledProcessIndex(s.processes, s.processByOrigin, p);
  }

  lemma FiledProcessIndex(processes: map<ProcessId, ManagedProcess>, index: map<ProcessOrigin, ProcessId>,
                          p: ManagedProcess)
    requires ProcessesKeyed(processes) && ProcessIndexOk(processes, index)
    requires p.id in processes && processes[p.id].origin == p.origin
    ensures ProcessesKeyed(processes[p.id := p]) && ProcessIndexOk(processes[p.id := p], index)
  {
    ProcessFiled(processes, index, p);
    assert index[p.origin := p.id] == index;
  }

  lemma TransitionIsReplacement(s: StoreState, id: ProcessId, a: ProcessStatus, b: ProcessStatus, now: Timestamp)
    requires TransitionProcess(s, id, a, b, now).Ok?
    ensures id in s.processes
    ensures TransitionProcess(s, id, a, b, now) == ReplaceProcess(s, MovedProcess(s.processes[id], b, now))
  {
  }

  lemma TransitionProcessKeeps(s: StoreState, id: ProcessId, a: ProcessStatus, b: ProcessStatus, now: Timestamp)
    requires Consistent(s) && TransitionProcess(s, id, a, b, now).Ok?
    ensures Consistent(TransitionProcess(s, id, a, b, now).value)
  {
    TransitionIsReplacement(s, id, a, b, now);
    ReplaceProcessKeeps(s, MovedProcess(s.processes[id], b, now));
  }

  lemma ReplacementFits(s: StoreState, p: ManagedProcess)
    requires ReplaceProcess(s, p).Ok?
    ensures p.id in s.processes && s.processes[p.id].origin == p.origin && ProcessOk(s, p)
    ensures ReplaceProcess(s, p).value == s.(processes := s.processes[p.id := p])
  {
  }

  lemma DeleteProcessKeeps(s: StoreState, id: ProcessId)
    requires Consistent(s) && DeleteProcess(s, id).Ok?
    ensures Consistent(DeleteProcess(s, id).value)
  {
    ProcessUnfiled(s.processes, s.processByOrigin, id);
    DeleteProcessLinks(s, id);
  }

  lemma ProcessUnfiled(processes: map<ProcessId, ManagedProcess>, index: map<ProcessOrigin, ProcessId>, id: ProcessId)
    requires ProcessesKeyed(processes) && ProcessIndexOk(processes, index) && id in processes
    ensures ProcessesKeyed(processes - {id})
    ensures ProcessIndexOk(processes - {id}, index - {processes[id].origin})
  {
  }

  lemma DeleteProcessLinks(s: StoreState, id: ProcessId)
    requires LinksOk(s) && DeleteProcess(s, id).Ok?
    ensures LinksOk(DeleteProcess(s, id).value)
  {
    LinksExtend(s, DeleteProcess(s, id).value);
  }

  // ---------------------------------------------------------------------------------------------
  // The cascade of a deleted thread

  function WorkspacesWithout(m: map<WorkspaceId, Workspace>, id: ThreadId): map<WorkspaceId, Workspace> {
    map w | w in m && m[w].threadId != id :: m[w]
  }

  function MessagesWithout(m: map<MessageId, Message>, id: ThreadId): map<MessageId, Message> {
    map k | k in m && m[k].threadId != id :: m[k]
  }

  function TurnsWithout(m: map<TurnId, Turn>, id: ThreadId): map<TurnId, Turn> {
    map t | t in m && m[t].threadId != id :: m[t]
  }

  function ProcessesWithout(m: map<ProcessId, ManagedProcess>, id: ThreadId): map<ProcessId, ManagedProcess> {
    map p | p in m && m[p].threadId != id :: m[p]
  }

  function OriginsWithout(m: map<ProcessId, ManagedProcess>, index: map<ProcessOrigin, ProcessId>, id: ThreadId)
    : map<ProcessOrigin, ProcessId>
    requires ProcessIndexOk(m, index)
  {
    map o | o in index && m[index[o]].threadId != id :: index[o]
  }

  /** The state without everything the thread owns, described by ownership alone. */
  function WithoutThread(s: StoreState, id: ThreadId): StoreState
    requires ProcessIndexOk(s.processes, s.processByOrigin)
  {
    s.(threads := s.threads - {id},
       workspaces := WorkspacesWithout(s.workspaces, id),
       workspaceByThread := s.workspaceByThread - {id},
       messages := MessagesWithout(s.messages, id),
       messageOrder := s.messageOrder - {id},
       artifacts := map a | a in s.artifacts && s.artifacts[a].threadId != id :: s.artifacts[a],
       turns := TurnsWithout(s.turns, id),
       turnOrder := s.turnOrder - {id},
       processes := ProcessesWithout(s.processes, id),
       processByOrigin := OriginsWithout(s.processes, s.processByOrigin, id))
  }

  /**
   Deleting a thread follows its order lists and indexes, and that removes exactly what the thread
   owns: its workspace, messages, turns, artifacts and processes and their index entries.
   */
  lemma DeleteThreadRemovesExactlyItsOwn(s: StoreState, id: ThreadId)
    requires IndexesOk(s) && id in s.threads
    ensures Cascade(s, id) == WithoutThread(s, id)
  {
    OwnedEntries(s, id);
    OwnedWorkspace(s.threads, s.workspaces, s.workspaceByThread, id);
    OwnedProcesses(s.processes, s.processByOrigin, id);
  }

  lemma OwnedEntries(s: StoreState, id: ThreadId)
    requires OrderOk(s.threads.Keys, s.messageOrder, MessageOwners(s.messages))
    requires OrderOk(s.threads.Keys, s.turnOrder, TurnOwners(s.turns))
    ensures s.messages - Listed(s.messageOrder, id) == MessagesWithout(s.messages, id)
    ensures s.turns - Listed(s.turnOrder, id) == TurnsWithout(s.turns, id)
  {
    ListedIsOwned(s.threads.Keys, s.messageOrder, MessageOwners(s.messages), id);
    ListedIsOwned(s.threads.Keys, s.turnOrder, TurnOwners(s.turns), id);
  }

  lemma ListedIsOwned(threads: set<ThreadId>, order: map<ThreadId, seq<nat>>, owner: map<nat, ThreadId>, t: ThreadId)
    requires OrderOk(threads, order, owner)
    ensures forall id :: id in Listed(order, t) <==> id in owner && owner[id] == t
  {
    DropThreadKeepsOrder(threads, order, owner, t);
  }

  lemma OwnedWorkspace(threads: map<ThreadId, Thread>, workspaces: map<WorkspaceId, Workspace>,
                       index: map<ThreadId, WorkspaceId>, id: ThreadId)
    requires WorkspacesOk(threads, workspaces, index) && id in threads
    ensures workspaces - {threads[id].workspaceId} == WorkspacesWithout(workspaces, id)
  {
  }

  lemma OwnedProcesses(processes: map<ProcessId, ManagedProcess>, index: map<ProcessOrigin, ProcessId>, id: ThreadId)
    requires ProcessIndexOk(processes, index)
    ensures var gone := ProcessesOf(processes, id);
      && processes - gone == ProcessesWithout(processes, id)
      && index - OriginsOf(processes, gone) == OriginsWithout(processes, index, id)
  {
  }

  lemma DeleteThreadKeeps(s: StoreState, id: ThreadId)
    requires Consistent(s) && DeleteThread(s, id).Ok?
    ensures Consistent(DeleteThread(s, id).value)
  {
    DeleteThreadRemovesExactlyItsOwn(s, id);
    WithoutThreadIndexes(s, id);
    WithoutThreadLinks(s, id);
    WithoutThreadKeyed(s, id);
  }

  lemma WithoutThreadKeyed(s: StoreState, id: ThreadId)
    requires Keyed(s) && ProcessIndexOk(s.processes, s.processByOrigin)
    ensures Keyed(WithoutThread(s, id))
  {
  }

  lemma WithoutThreadIndexes(s: StoreState, id: ThreadId)
    requires IndexesOk(s)
    ensures IndexesOk(WithoutThread(s, id))
  {
    WithoutThreadMessageOrder(s, id);
    WithoutThreadTurnOrder(s, id);
    WithoutThreadWorkspaces(s.threads, s.workspaces, s.workspaceByThread, id);
    WithoutThreadProcesses(s.processes, s.processByOrigin, id);
  }

  lemma WithoutThreadMessageOrder(s: StoreState, id: ThreadId)
    requires OrderOk(s.threads.Keys, s.messageOrder, MessageOwners(s.messages))
    ensures OrderOk(s.threads.Keys - {id}, s.messageOrder - {id},
                    MessageOwners(map m | m in s.messages && s.messages[m].threadId != id :: s.messages[m]))
  {
    var owner := MessageOwners(s.messages);
    OtherOwners(s.threads.Keys, s.messageOrder, owner, id);
    assert MessageOwners(map m | m in s.messages && s.messages[m].threadId != id :: s.messages[m]) ==
      map k | k in owner && owner[k] != id :: owner[k];
  }

  lemma WithoutThreadTurnOrder(s: StoreState, id: ThreadId)
    requires OrderOk(s.threads.Keys, s.turnOrder, TurnOwners(s.turns))
    ensures OrderOk(s.threads.Keys - {id}, s.turnOrder - {id},
                    TurnOwners(map t | t in s.turns && s.turns[t].threadId != id :: s.turns[t]))
  {
    var owner := TurnOwners(s.turns);
    OtherOwners(s.threads.Keys, s.turnOrder, owner, id);
    assert TurnOwners(map t | t in s.turns && s.turns[t].threadId != id :: s.turns[t]) ==
      map k | k in owner && owner[k] != id :: owner[k];
  }

  lemma OtherOwners(threads: set<ThreadId>, order: map<ThreadId, seq<nat>>, owner: map<nat, ThreadId>, t: ThreadId)
    requires OrderOk(threads, order, owner)
    ensures OrderOk(threads - {t}, order - {t}, map id | id in owner && owner[id] != t :: owner[id])
  {
    DropThreadKeepsOrder(threads, order, owner, t);
    assert (map id | id in owner && owner[id] != t :: owner[id]) == owner - Listed(order, t);
  }

  lemma WithoutThreadProcesses(processes: map<ProcessId, ManagedProcess>, index: map<ProcessOrigin, ProcessId>,
                               id: ThreadId)
    requires ProcessIndexOk(processes, index)
    ensures ProcessIndexOk(
      map p | p in processes && processes[p].threadId != id :: processes[p],
      map o | o in index && processes[index[o]].threadId != id :: index[o])
  {
  }

  lemma WithoutThreadWorkspaces(threads: map<ThreadId, Thread>, workspaces: map<WorkspaceId, Workspace>,
                                index: map<ThreadId, WorkspaceId>, id: ThreadId)
    requires WorkspacesOk(threads, workspaces, index)
    ensures WorkspacesOk(threads - {id}, map w | w in workspaces && workspaces[w].threadId != id :: workspaces[w],
      index - {id})
  {
  }

  /** Nothing outside the thread refers to it. */
  predicate Unreferenced(s: StoreState, id: ThreadId) {
    && (forall t | t in s.threads && t != id :: !ReferencesThread(s.threads[t].references, id))
    && (forall m | m in s.messages && s.messages[m].threadId != id :: !ReferencesThread(s.messages[m].references, id))
  }

  lemma ReferencesAvoiding(s: StoreState, s': StoreState, owner: ThreadId, refs: seq<ContextReference>, id: ThreadId)
    requires s'.projects == s.projects && s'.threads == s.threads - {id}
    requires s'.messages == map m | m in s.messages && s.messages[m].threadId != id :: s.messages[m]
    requires ReferencesOk(s, owner, refs) && !ReferencesThread(refs, id)
    ensures ReferencesOk(s', owner, refs)
  {
    forall i | 0 <= i < |refs|
      ensures ReferenceOk(s', owner, refs[i])
    {
      assert ReferenceOk(s, owner, refs[i]);
      if refs[i].ThreadReference? {
        forall j | 0 <= j < |refs[i].messageIds|
          ensures SelectedOk(s', refs[i].threadId, refs[i].messageIds[j])
        {
          assert SelectedOk(s, refs[i].threadId, refs[i].messageIds[j]);
        }
      }
    }
  }

  lemma PartsAvoiding(s: StoreState, s': StoreState, m: Message, id: ThreadId)
    requires m.threadId != id
    requires s'.artifacts == map a | a in s.artifacts && s.artifacts[a].threadId != id :: s.artifacts[a]
    requires forall i | 0 <= i < |m.parts| :: PartOk(s, m, m.parts[i])
    ensures forall i | 0 <= i < |m.parts| :: PartOk(s', m, m.parts[i])
  {
    forall i | 0 <= i < |m.parts|
      ensures PartOk(s', m, m.parts[i])
    {
      assert PartOk(s, m, m.parts[i]);
      if m.parts[i].ToolResult? {
        forall j | 0 <= j < |m.parts[i].output|
          ensures OutputPartOk(s', m.threadId, m.parts[i].output[j])
        {
          assert OutputPartOk(s, m.threadId, m.parts[i].output[j]);
        }
      }
    }
  }

  lemma WithoutThreadLinks(s: StoreState, id: ThreadId)
    requires LinksOk(s) && ProcessIndexOk(s.processes, s.processByOrigin) && Keyed(s)
    requires DeleteThread(s, id).Ok?
    ensures LinksOk(WithoutThread(s, id))
  {
    var s' := WithoutThread(s, id);
    assert Unreferenced(s, id);
    WithoutThreadTalk(s, id);
    WithoutThreadRecords(s, id);
  }

  lemma WithoutThreadTalk(s: StoreState, id: ThreadId)
    requires ThreadsOk(s) && MessagesOk(s) && Unreferenced(s, id) && ProcessIndexOk(s.processes, s.processByOrigin)
    ensures ThreadsOk(WithoutThread(s, id)) && MessagesOk(WithoutThread(s, id))
  {
    var s' := WithoutThread(s, id);
    forall t | t in s'.threads
      ensures ReferencesOk(s', t, s'.threads[t].references)
    {
      ReferencesAvoiding(s, s', t, s.threads[t].references, id);
    }
    forall m | m in s'.messages
      ensures MessageOk(s', s'.messages[m])
    {
      assert MessageOk(s, s.messages[m]);
      ReferencesAvoiding(s, s', s.messages[m].threadId, s.messages[m].references, id);
      PartsAvoiding(s, s', s.messages[m], id);
    }
  }

  lemma WithoutThreadRecords(s: StoreState, id: ThreadId)
    requires ArtifactsOk(s) && TurnsOk(s) && ProcessesOk(s) && ProcessIndexOk(s.processes, s.processByOrigin)
    ensures var s' := WithoutThread(s, id);
      ArtifactsOk(s') && TurnsOk(s') && ProcessesOk(s')
  {
    var s' := WithoutThread(s, id);
    forall a | a in s'.artifacts
      ensures ArtifactOk(s', s'.artifacts[a])
    {
      assert ArtifactOk(s, s.artifacts[a]);
    }
    forall t | t in s'.turns
      ensures TurnOk(s', s'.turns[t])
    {
      assert TurnOk(s, s.turns[t]);
    }
    forall p | p in s'.processes
      ensures ProcessOk(s', s'.processes[p])
    {
      assert ProcessOk(s, s.processes[p]);
    }
  }

  // ---------------------------------------------------------------------------------------------
  // All mutations

  /** The four ways a mutation that passes its own checks can still break the whole. */
  predicate Breaks(s: StoreState, m: Mutation) {
    match m
    case MInsertThread(_) => true
    case MInsertWorkspace(_) => true
    case MUpdateMessage(message) => MisassignsInput(s, message)
    case MDeleteArtifact(id) => NamedByToolResult(s, id)
    case _ => false
  }

  predicate OfConversation(m: Mutation) {
    m.MInsertProject? || m.MUpdateProject? || m.MDeleteProject? || m.MInsertThreadWithWorkspace? ||
    m.MUpdateThread? || m.MUpdateTitle? || m.MTransitionThread? || m.MTransitionWorkflow? || m.MDeleteThread? ||
    m.MUpdateWorkspace? || m.MDeleteWorkspace? || m.MAppendMessage? || m.MDeleteMessage?
  }

  predicate OfImages(m: Mutation) { m.MInsertArtifacts? || m.MAppendImageGeneration? || m.MInsertTurnInput? }

  predicate OfTurns(m: Mutation) { m.MInsertTurn? || m.MUpdateTurn? || m.MTransitionTurn? || m.MDeleteTurn? }

  predicate OfProcesses(m: Mutation) {
    m.MInsertProcess? || m.MUpdateProcess? || m.MTransitionProcess? || m.MDeleteProcess?
  }

  lemma ConversationKeeps(s: StoreState, m: Mutation, now: Timestamp)
    requires Consistent(s) && Apply(s, m, now).Ok? && OfConversation(m)
    ensures Consistent(Apply(s, m, now).value)
  {
    if m.MInsertProject? {
      InsertProjectKeeps(s, m.project);
    } else if m.MUpdateProject? {
      UpdateProjectKeeps(s, m.project);
    } else if m.MDeleteProject? {
      DeleteProjectKeeps(s, m.projectId);
    } else if m.MInsertThreadWithWorkspace? {
      InsertThreadWithWorkspaceKeeps(s, m.thread, m.workspace);
    } else if m.MUpdateThread? {
      UpdateThreadKeeps(s, m.thread);
    } else if m.MUpdateTitle? {
      UpdateTitleKeeps(s, m.threadId, m.title, now);
    } else if m.MTransitionThread? {
      TransitionThreadKeeps(s, m.threadId, m.fromThread, m.toThread, now);
    } else if m.MTransitionWorkflow? {
      TransitionWorkflowKeeps(s, m.threadId, m.fromWorkflow, m.toWorkflow, now);
    } else if m.MDeleteThread? {
      DeleteThreadKeeps(s, m.threadId);
    } else if m.MUpdateWorkspace? {
      UpdateWorkspaceKeeps(s, m.workspace);
    } else if m.MDeleteWorkspace? {
      DeleteWorkspaceRefuses(s, m.workspaceId);
    } else if m.MAppendMessage? {
      AppendMessageKeeps(s, m.message);
    } else {
      DeleteMessageKeeps(s, m.messageId);
    }
  }

  lemma ImagesKeep(s: StoreState, m: Mutation, now: Timestamp)
    requires Consistent(s) && Apply(s, m, now).Ok? && OfImages(m)
    ensures Consistent(Apply(s, m, now).value)
  {
    if m.MInsertArtifacts? {
      InsertArtifactsKeeps(s, m.artifacts);
    } else if m.MAppendImageGeneration? {
      AppendImageGenerationKeeps(s, m.user, m.assistant, m.artifacts);
    } else {
      InsertTurnInputKeeps(s, m.input, m.turn, m.artifacts);
    }
  }

  lemma TurnInserted(s: StoreState, m: Mutation, now: Timestamp)
    requires Consistent(s) && Apply(s, m, now).Ok? && m.MInsertTurn?
    ensures Consistent(Apply(s, m, now).value)
  {
    InsertTurnKeeps(s, m.turn);
  }

  lemma TurnUpdated(s: StoreState, m: Mutation, now: Timestamp)
    requires Consistent(s) && Apply(s, m, now).Ok? && m.MUpdateTurn?
    ensures Consistent(Apply(s, m, now).value)
  {
    UpdateTurnKeeps(s, m.turn);
  }

  lemma TurnMoved(s: StoreState, m: Mutation, now: Timestamp)
    requires Consistent(s) && Apply(s, m, now).Ok? && m.MTransitionTurn?
    ensures Consistent(Apply(s, m, now).value)
  {
    TransitionTurnKeeps(s, m.turnId, m.fromTurn, m.toTurn, now);
  }

  lemma TurnDeleted(s: StoreState, m: Mutation, now: Timestamp)
    requires Consistent(s) && Apply(s, m, now).Ok? && m.MDeleteTurn?
    ensures Consistent(Apply(s, m, now).value)
  {
    DeleteTurnKeeps(s, m.turnId);
  }

  lemma TurnsKeep(s: StoreState, m: Mutation, now: Timestamp)
    requires Consistent(s) && Apply(s, m, now).Ok? && OfTurns(m)
    ensures Consistent(Apply(s, m, now).value)
  {
    if m.MInsertTurn? {
      TurnInserted(s, m, now);
    } else if m.MUpdateTurn? {
      TurnUpdated(s, m, now);
    } else if m.MTransitionTurn? {
      TurnMoved(s, m, now);
    } else {
      TurnDeleted(s, m, now);
    }
  }

  lemma ProcessInserted(s: StoreState, m: Mutation, now: Timestamp)
    requires Consistent(s) && Apply(s, m, now).Ok? && m.MInsertProcess?
    ensures Consistent(Apply(s, m, now).value)
  {
    InsertProcessKeeps(s, m.process);
  }

  lemma ProcessUpdated(s: StoreState, m: Mutation, now: Timestamp)
    requires Consistent(s) && Apply(s, m, now).Ok? && m.MUpdateProcess?
    ensures Consistent(Apply(s, m, now).value)
  {
    ReplaceProcessKeeps(s, m.process);
  }

  lemma ProcessMoved(s: StoreState, m: Mutation, now: Timestamp)
    requires Consistent(s) && Apply(s, m, now).Ok? && m.MTransitionProcess?
    ensures Consistent(Apply(s, m, now).value)
  {
    TransitionProcessKeeps(s, m.processId, m.fromProcess, m.toProcess, now);
  }

  lemma ProcessDeleted(s: StoreState, m: Mutation, now: Timestamp)
    requires Consistent(s) && Apply(s, m, now).Ok? && m.MDeleteProcess?
    ensures Consistent(Apply(s, m, now).value)
  {
    DeleteProcessKeeps(s, m.processId);
  }

  lemma ProcessesKeep(s: StoreState, m: Mutation, now: Timestamp)
    requires Consistent(s) && Apply(s, m, now).Ok? && OfProcesses(m)
    ensures Consistent(Apply(s, m, now).value)
  {
    if m.MInsertProcess? {
      ProcessInserted(s, m, now);
    } else if m.MUpdateProcess? {
      ProcessUpdated(s, m, now);
    } else if m.MTransitionProcess? {
      ProcessMoved(s, m, now);
    } else {
      ProcessDeleted(s, m, now);
    }
  }

  predicate Suspect(m: Mutation) { m.MInsertThread? || m.MInsertWorkspace? || m.MUpdateMessage? || m.MDeleteArtifact? }

  lemma OthersKeep(s: StoreState, m: Mutation, now: Timestamp)
    requires Consistent(s) && Apply(s, m, now).Ok? && !Suspect(m)
    ensures Consistent(Apply(s, m, now).value)
  {
    if OfConversation(m) {
      ConversationKeeps(s, m, now);
    } else if OfImages(m) {
      ImagesKeep(s, m, now);
    } else if OfTurns(m) {
      TurnsKeep(s, m, now);
    } else {
      ProcessesKeep(s, m, now);
    }
  }

  lemma OthersAreNoExceptions(s: StoreState, m: Mutation)
    requires !Suspect(m)
    ensures !Breaks(s, m)
  {
  }

  /** The four kinds of mutation among which the exceptions are. */
  lemma Suspects(s: StoreState, m: Mutation, now: Timestamp)
    requires Consistent(s) && Apply(s, m, now).Ok? && Suspect(m)
    ensures Keyed(Apply(s, m, now).value)
    ensures Integrity(Apply(s, m, now).value) <==> !Breaks(s, m)
  {
    if m.MInsertThread? {
      InsertThreadBreaks(s, m.thread);
    } else if m.MInsertWorkspace? {
      InsertWorkspaceBreaks(s, m.workspace);
    } else if m.MUpdateMessage? {
      UpdateMessageKeepsUnlessMisassigned(s, m.message);
    } else {
      DeleteArtifactKeepsUnlessNamed(s, m.artifactId);
    }
  }

  /**
   From a consistent state, a mutation that its local checks accept leads to a consistent state
   unless it is one of the four exceptions, and then it never does.
   */
  lemma LocalChecksSuffice(s: StoreState, m: Mutation, now: Timestamp)
    requires Consistent(s) && Apply(s, m, now).Ok?
    ensures Keyed(Apply(s, m, now).value)
    ensures Integrity(Apply(s, m, now).value) <==> !Breaks(s, m)
  {
    if Suspect(m) {
      Suspects(s, m, now);
    } else {
      OthersKeep(s, m, now);
      OthersAreNoExceptions(s, m);
    }
  }
}
