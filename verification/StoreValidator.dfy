/**
 The validator that runs on every commit and every load. It counts: each index has as many entries
 as what it indexes, and each order list contributes unseen identifiers until all are seen. This
 module proves that counting accepts exactly the states with integrity.
 */
module StoreValidator {
  import opened Prelude
  import opened Domain
  import opened Stores

  lemma {:induction false} InjectiveImageSize<K>(f: map<nat, K>)
    requires forall a, b | a in f && b in f && a != b :: f[a] != f[b]
    ensures |f.Values| == |f.Keys|
    decreases |f.Keys|
  {
    if f.Keys == {} {
      assert f.Values == {};
    } else {
      var k :| k in f.Keys;
      var rest := f - {k};
      assert rest.Keys == f.Keys - {k};
      assert rest.Values == f.Values - {f[k]} by {
        forall v | v in f.Values - {f[k]}
          ensures v in rest.Values
        {
          var j :| j in f && f[j] == v;
          assert j in rest && rest[j] == v;
        }
      }
      InjectiveImageSize(rest);
      assert f[k] in f.Values;
    }
  }

  lemma SameSizeSubset<T>(a: set<T>, b: set<T>)
    requires a <= b && |a| == |b|
    ensures a == b
  {
    assert b == a + (b - a) && |b| == |a| + |b - a|;
  }

  /** An index as large as what it indexes, and right for every entry, has no stray entry. */
  lemma CountedIndexIsExact<K>(keyOf: map<nat, K>, index: map<K, nat>)
    requires |index.Keys| == |keyOf.Keys|
    requires forall id | id in keyOf :: keyOf[id] in index && index[keyOf[id]] == id
    ensures forall k | k in index :: index[k] in keyOf && keyOf[index[k]] == k
  {
    InjectiveImageSize(keyOf);
    assert keyOf.Values <= index.Keys;
    SameSizeSubset(keyOf.Values, index.Keys);
    forall k | k in index
      ensures index[k] in keyOf && keyOf[index[k]] == k
    {
      assert k in keyOf.Values;
      var id :| id in keyOf && keyOf[id] == k;
    }
  }

  /** And conversely an exact index has that size. */
  lemma ExactIndexIsCounted<K>(keyOf: map<nat, K>, index: map<K, nat>)
    requires forall id | id in keyOf :: keyOf[id] in index && index[keyOf[id]] == id
    requires forall k | k in index :: index[k] in keyOf && keyOf[index[k]] == k
    ensures |index.Keys| == |keyOf.Keys|
  {
    InjectiveImageSize(keyOf);
    assert keyOf.Values == index.Keys by {
      forall k | k in index
        ensures k in keyOf.Values
      {
        assert index[k] in keyOf && keyOf[index[k]] == k;
      }
    }
  }

  method ValidateRoots(projects: map<ProjectId, Project>) returns (ok: bool)
    ensures ok <==> RootsOk(projects)
  {
    var roots: set<string> := {};
    var todo := projects.Keys;
    while todo != {}
      invariant todo <= projects.Keys
      invariant roots == set k | k in projects && k !in todo :: projects[k].root
      invariant forall a, b | a in projects && b in projects && a !in todo && b !in todo && a != b ::
        projects[a].root != projects[b].root
      decreases todo
    {
      var k :| k in todo;
      if projects[k].root in roots {
        return false;
      }
      roots := roots + {projects[k].root};
      todo := todo - {k};
    }
    ok := true;
  }

  /** The lists of the threads visited so far are sound and `seen` is what they name. */
  ghost predicate Visited(threads: set<ThreadId>, order: map<ThreadId, seq<nat>>, owner: map<nat, ThreadId>,
                          done: set<ThreadId>, seen: set<nat>)
  {
    && (forall t | t in done && t in order ::
        t in threads && NoDuplicates(order[t]) &&
        forall i | 0 <= i < |order[t]| :: order[t][i] in owner && owner[order[t][i]] == t)
    && (forall id | id in seen :: id in owner && owner[id] in done && owner[id] in order && id in order[owner[id]])
    && (forall t | t in done && t in order :: forall i | 0 <= i < |order[t]| :: order[t][i] in seen)
  }

  /** Walks all order lists, refusing unknown threads, repeated, missing or misfiled identifiers. */
  method ValidateOrder(threads: set<ThreadId>, order: map<ThreadId, seq<nat>>, owner: map<nat, ThreadId>)
    returns (ok: bool)
    ensures ok <==> OrderOk(threads, order, owner)
  {
    var seen: set<nat> := {};
    var todo := order.Keys;
    while todo != {}
      invariant todo <= order.Keys
      invariant Visited(threads, order, owner, order.Keys - todo, seen)
      decreases todo
    {
      var t :| t in todo;
      if t !in threads {
        return false;
      }
      ghost var before := seen;
      var listOk;
      listOk, seen := ValidateList(order[t], t, owner, seen);
      if !listOk {
        BadList(threads, order, owner, order.Keys - todo, before, t);
        return false;
      }
      todo := todo - {t};
    }
    assert order.Keys - todo == order.Keys;
    SeenIsAll(threads, order, owner, seen);
    ok := |seen| == |owner|;
  }

  method ValidateList(list: seq<nat>, t: ThreadId, owner: map<nat, ThreadId>, seen: set<nat>)
    returns (ok: bool, seen': set<nat>)
    ensures ok <==> ListOk(list, t, owner) && forall i | 0 <= i < |list| :: list[i] !in seen
    ensures ok ==> seen' == seen + (set id | id in list)
  {
    seen' := seen;
    var i := 0;
    while i < |list|
      invariant 0 <= i <= |list|
      invariant ListOk(list[..i], t, owner) && forall j | 0 <= j < i :: list[j] !in seen
      invariant seen' == seen + set id | id in list[..i]
    {
      assert list[i] in list;
      if list[i] in seen' {
        assert list[i] !in seen ==> exists j :: 0 <= j < i && list[j] == list[i];
        return false, seen';
      }
      seen' := seen' + {list[i]};
      if list[i] !in owner || owner[list[i]] != t {
        return false, seen';
      }
      assert list[..i + 1] == list[..i] + [list[i]];
      i := i + 1;
    }
    assert list[..i] == list;
    ok := true;
  }

  predicate ListOk(list: seq<nat>, t: ThreadId, owner: map<nat, ThreadId>) {
    NoDuplicates(list) && forall i | 0 <= i < |list| :: list[i] in owner && owner[list[i]] == t
  }

  lemma BadList(threads: set<ThreadId>, order: map<ThreadId, seq<nat>>, owner: map<nat, ThreadId>,
                done: set<ThreadId>, seen: set<nat>, t: ThreadId)
    requires Visited(threads, order, owner, done, seen) && t in order && t !in done
    requires !(ListOk(order[t], t, owner) && forall i | 0 <= i < |order[t]| :: order[t][i] !in seen)
    ensures !OrderOk(threads, order, owner)
  {
    assert OrderOk(threads, order, owner) ==> ListOk(order[t], t, owner);
  }

  lemma SeenIsAll(threads: set<ThreadId>, order: map<ThreadId, seq<nat>>, owner: map<nat, ThreadId>, seen: set<nat>)
    requires Visited(threads, order, owner, order.Keys, seen)
    ensures |seen| == |owner.Keys| <==> OrderOk(threads, order, owner)
  {
    assert seen <= owner.Keys;
    if |seen| == |owner.Keys| {
      SameSizeSubset(seen, owner.Keys);
    }
    if OrderOk(threads, order, owner) {
      forall id | id in owner
        ensures id in seen
      {
        assert id in order[owner[id]];
      }
      assert seen == owner.Keys;
    }
  }

  method ValidateWorkspaces(s: StoreState) returns (ok: bool)
    requires ThreadsKeyed(s.threads) && WorkspacesKeyed(s.workspaces)
    ensures ok <==> WorkspacesOk(s.threads, s.workspaces, s.workspaceByThread)
  {
    ghost var keyOf := map w | w in s.workspaces :: s.workspaces[w].threadId;
    assert keyOf.Keys == s.workspaces.Keys;
    if |s.workspaceByThread.Keys| != |s.workspaces.Keys| {
      if WorkspacesOk(s.threads, s.workspaces, s.workspaceByThread) {
        ExactIndexIsCounted(keyOf, s.workspaceByThread);
      }
      return false;
    }
    if exists w :: w in s.workspaces &&
         !(s.workspaces[w].threadId in s.workspaceByThread && s.workspaceByThread[s.workspaces[w].threadId] == w) {
      return false;
    }
    CountedIndexIsExact(keyOf, s.workspaceByThread);
    if exists w :: w in s.workspaces &&
         !(s.workspaces[w].threadId in s.threads && s.threads[s.workspaces[w].threadId].workspaceId == w) {
      return false;
    }
    ok := forall t | t in s.threads :: s.threads[t].workspaceId in s.workspaces && ThreadWorkspaceOk(s, s.threads[t]);
  }

  method ValidateProcessIndex(s: StoreState) returns (ok: bool)
    ensures ok <==> ProcessIndexOk(s.processes, s.processByOrigin)
  {
    ghost var keyOf := map p | p in s.processes :: s.processes[p].origin;
    assert keyOf.Keys == s.processes.Keys;
    if |s.processByOrigin.Keys| != |s.processes.Keys| {
      if ProcessIndexOk(s.processes, s.processByOrigin) {
        ExactIndexIsCounted(keyOf, s.processByOrigin);
      }
      return false;
    }
    if exists p :: p in s.processes &&
         !(s.processes[p].origin in s.processByOrigin && s.processByOrigin[s.processes[p].origin] == p) {
      return false;
    }
    CountedIndexIsExact(keyOf, s.processByOrigin);
    ok := true;
  }

  /** The commit-time validation accepts exactly the states with integrity. */
  method ValidateStoreState(s: StoreState) returns (ok: bool)
    requires Keyed(s)
    ensures ok <==> Integrity(s)
  {
    var step := ValidateRoots(s.projects);
    if !step {
      return false;
    }
    step := ValidateWorkspaces(s);
    if !step {
      return false;
    }
    if !ThreadsOk(s) {
      return false;
    }
    step := ValidateOrder(s.threads.Keys, s.messageOrder, MessageOwners(s.messages));
    if !step || !MessagesOk(s) || !ArtifactsOk(s) {
      return false;
    }
    step := ValidateOrder(s.threads.Keys, s.turnOrder, TurnOwners(s.turns));
    if !step || !TurnsOk(s) {
      return false;
    }
    step := ValidateProcessIndex(s);
    ok := step && ProcessesOk(s);
  }
}
