/** The idempotency window for thread creation: a hash table that must behave like a plain FIFO list. */
module RequestCaches {
  import opened Prelude

  datatype Record = Record(fingerprint: string, thread: nat, workspace: nat, turn: nat, project: Option<nat>)

  /** The window as a list from oldest to newest. */
  type Window = seq<(string, Record)>

  predicate Distinct(w: Window) { forall i, j | 0 <= i < j < |w| :: w[i].0 != w[j].0 }

  predicate Has(w: Window, id: string) { exists i :: 0 <= i < |w| && w[i].0 == id }

  function Lookup(w: Window, id: string): Option<Record> {
    if w == [] then None else if w[0].0 == id then Some(w[0].1) else Lookup(w[1..], id)
  }

  function Overwritten(w: Window, id: string, r: Record): (w': Window)
    ensures |w'| == |w|
    ensures forall i | 0 <= i < |w| :: w'[i] == if w[i].0 == id then (id, r) else w[i]
  {
    seq(|w|, i requires 0 <= i < |w| => if w[i].0 == id then (id, r) else w[i])
  }

  /** Oldest entries leave until there is room for one more. */
  function Room(w: Window, capacity: nat): Window
    requires capacity > 0
  {
    if |w| >= capacity then w[|w| - capacity + 1..] else w
  }

  function Inserted(w: Window, capacity: nat, id: string, r: Record): Window
    requires capacity > 0
  {
    if Has(w, id) then Overwritten(w, id, r) else Room(w, capacity) + [(id, r)]
  }

  // ---------------------------------------------------------------------------------------------
  // The implementation

  /** The queue names every key of the table once. */
  predicate Matches(order: seq<string>, records: map<string, Record>) {
    && (forall i, j | 0 <= i < j < |order| :: order[i] != order[j])
    && (forall i | 0 <= i < |order| :: order[i] in records)
    && (forall id | id in records :: id in order)
  }

  function Listed(order: seq<string>, records: map<string, Record>): (w: Window)
    requires forall i | 0 <= i < |order| :: order[i] in records
    ensures |w| == |order| && forall i | 0 <= i < |w| :: w[i] == (order[i], records[order[i]])
  {
    seq(|order|, i requires 0 <= i < |order| => (order[i], records[order[i]]))
  }

  lemma ListedHas(order: seq<string>, records: map<string, Record>, id: string)
    requires Matches(order, records)
    ensures Has(Listed(order, records), id) <==> id in records
    ensures Distinct(Listed(order, records))
    ensures Lookup(Listed(order, records), id) == if id in records then Some(records[id]) else None
  {
    var w := Listed(order, records);
    FoundAt(w, id);
    if id in records {
      var i :| 0 <= i < |order| && order[i] == id;
      assert w[i].0 == id;
    }
  }

  lemma MatchesWithout(order: seq<string>, records: map<string, Record>)
    requires Matches(order, records) && order != []
    ensures Matches(order[1..], records - {order[0]})
  {
    var rest, table := order[1..], records - {order[0]};
    forall id | id in table
      ensures id in rest
    {
      var i :| 0 <= i < |order| && order[i] == id;
      assert rest[i - 1] == id;
    }
  }

  lemma ListedWithout(order: seq<string>, records: map<string, Record>)
    requires Matches(order, records) && order != []
    ensures Matches(order[1..], records - {order[0]})
    ensures Listed(order[1..], records - {order[0]}) == Listed(order, records)[1..]
  {
    MatchesWithout(order, records);
  }

  lemma OneFewer(records: map<string, Record>, id: string)
    requires id in records
    ensures |records - {id}| == |records| - 1
  {
    assert (records - {id}).Keys == records.Keys - {id};
  }

  lemma ListedWith(order: seq<string>, records: map<string, Record>, id: string, r: Record)
    requires Matches(order, records) && id !in records
    ensures Matches(order + [id], records[id := r])
    ensures Listed(order + [id], records[id := r]) == Listed(order, records) + [(id, r)]
  {
    assert id !in order by {
      assert forall i | 0 <= i < |order| :: order[i] in records;
    }
  }

  class CreateRequestCache {
    var records: map<string, Record>
    var insertionOrder: seq<string>
    const capacity: nat

    constructor (capacity: nat)
      ensures Valid() && Contents() == []
      ensures this.capacity == if capacity == 0 then 1 else capacity
    {
      records, insertionOrder := map[], [];
      this.capacity := if capacity == 0 then 1 else capacity;
    }

    ghost predicate Valid()
      reads this
    {
      0 < capacity && |insertionOrder| <= capacity && Matches(insertionOrder, records)
    }

    ghost function Contents(): Window
      reads this
      requires Valid()
    {
      Listed(insertionOrder, records)
    }

    method Get(id: string) returns (r: Option<Record>)
      requires Valid()
      ensures r == Lookup(Contents(), id)
    {
      ListedHas(insertionOrder, records, id);
      r := if id in records then Some(records[id]) else None;
    }

    method Insert(id: string, r: Record)
      requires Valid()
      modifies this
      ensures Valid()
      ensures Contents() == Inserted(old(Contents()), capacity, id, r)
    {
      ListedHas(insertionOrder, records, id);
      if id in records {
        records := records[id := r];
        return;
      }
      MakeRoom();
      ListedWith(insertionOrder, records, id, r);
      insertionOrder := insertionOrder + [id];
      records := records[id := r];
    }

    method MakeRoom()
      requires Valid()
      modifies this
      ensures Valid() && |insertionOrder| < capacity
      ensures Contents() == Room(old(Contents()), capacity)
      ensures records.Keys <= old(records).Keys
    {
      insertionOrder, records := Evicted(insertionOrder, records, capacity);
    }
  }

  /** The eviction loop. */
  method Evicted(order: seq<string>, records: map<string, Record>, capacity: nat)
    returns (order': seq<string>, records': map<string, Record>)
    requires Matches(order, records) && 0 < capacity && |order| <= capacity
    ensures Matches(order', records') && |order'| < capacity
    ensures Listed(order', records') == Room(Listed(order, records), capacity)
    ensures records'.Keys <= records.Keys
  {
    order', records' := order, records;
    SizeOfDistinct(records.Keys, order);
    if |order| == capacity {
      ListedWithout(order, records);
      OneFewer(records, order[0]);
    }
    while |records'| >= capacity
      invariant (order' == order && records' == records) ||
        (|order| == capacity && order' == order[1..] && records' == records - {order[0]})
      decreases |order'|
    {
      var oldest := order'[0];
      order' := order'[1..];
      records' := records' - {oldest};
    }
  }

  lemma {:induction false} SizeOfDistinct(s: set<string>, q: seq<string>)
    requires forall i, j | 0 <= i < j < |q| :: q[i] != q[j]
    requires forall x :: x in s <==> x in q
    ensures |s| == |q|
  {
    if q == [] {
      assert s == {};
    } else {
      assert q == [q[0]] + q[1..];
      SizeOfDistinct(s - {q[0]}, q[1..]);
    }
  }

  lemma {:induction false} FoundAt(w: Window, id: string)
    ensures Lookup(w, id).Some? <==> Has(w, id)
    ensures Distinct(w) ==> forall i | 0 <= i < |w| && w[i].0 == id :: Lookup(w, id) == Some(w[i].1)
  {
    if w != [] {
      FoundAt(w[1..], id);
      assert forall i | 0 < i < |w| :: w[i] == w[1..][i - 1];
      if Has(w[1..], id) {
        var i :| 0 <= i < |w[1..]| && w[1..][i].0 == id;
        assert w[i + 1].0 == id;
      }
    }
  }

  // ---------------------------------------------------------------------------------------------
  // The window over time

  lemma InsertedIsValid(w: Window, capacity: nat, id: string, r: Record)
    requires capacity > 0 && Distinct(w) && |w| <= capacity
    ensures var w' := Inserted(w, capacity, id, r);
      Distinct(w') && |w'| <= capacity && Lookup(w', id) == Some(r)
  {
    var w' := Inserted(w, capacity, id, r);
    FoundAt(w', id);
    if Has(w, id) {
      var i :| 0 <= i < |w| && w[i].0 == id;
      assert w'[i] == (id, r);
    } else {
      assert w'[|w'| - 1] == (id, r);
    }
  }

  /** Overwriting keeps every place; a new entry pushes out the oldest only, and only when full. */
  lemma InsertionKeepsPlaces(w: Window, capacity: nat, id: string, r: Record, place: nat)
    requires capacity > 0 && Distinct(w) && |w| <= capacity && place < |w| && w[place].0 != id
    ensures var w' := Inserted(w, capacity, id, r);
      if Has(w, id) then |w'| == |w| && w'[place] == w[place]
      else if |w| < capacity then |w'| == |w| + 1 && w'[place] == w[place]
      else |w'| == |w| && (if place == 0 then !Has(w', w[0].0) else w'[place - 1] == w[place])
  {
  }

  // ---------------------------------------------------------------------------------------------
  // Serving requests

  /**
   How the work behind a request turns out, with the project of its working directory if that was
   imported before the outcome. Each deletion of a rollback may itself fail.
   */
  datatype Attempt =
    | CreateFails(imported: Option<nat>)
    | PrepareFails(imported: Option<nat>, threadGoes: bool, projectGoes: bool)
    | ReadBackFails(imported: Option<nat>)
    | Done(imported: Option<nat>)

  datatype Request = Request(id: string, fingerprint: string, attempt: Attempt)

  datatype Reply = Answer(thread: nat, turn: nat, created: bool) | Conflict | Error

  /** Threads with the project they refer to; `next` supplies identifiers, `created` lists the threads made so far. */
  datatype Service = Service(
    window: Window, threads: map<nat, Option<nat>>, projects: set<nat>, next: nat, created: seq<nat>)

  function Imported(s: Service, imported: Option<nat>): Service {
    if imported.Some? then s.(projects := s.projects + {imported.value}) else s
  }

  predicate Refers(s: Service, p: nat) { exists t :: t in s.threads && s.threads[t] == Some(p) }

  function DeleteThread(s: Service, thread: nat, written: bool): Service {
    if written then s.(threads := s.threads - {thread}) else s
  }

  /** The store refuses to delete a project that a thread still refers to. */
  function DeleteProject(s: Service, p: nat, written: bool): Service {
    if written && !Refers(s, p) then s.(projects := s.projects - {p}) else s
  }

  /** Deletes the thread, then its project unless that was there before; errors are ignored. */
  function RolledBack(before: Service, during: Service, thread: nat, a: Attempt): Service
    requires a.PrepareFails?
  {
    var s := DeleteThread(during, thread, a.threadGoes);
    if a.imported.Some? && a.imported.value !in before.projects then DeleteProject(s, a.imported.value, a.projectGoes)
    else s
  }

  function Created(s: Service, imported: Option<nat>): Service {
    Imported(s, imported).(threads := s.threads[s.next := imported], next := s.next + 3)
  }

  /** The whole request runs under the lock of the window, so requests are served one at a time. */
  function Serve(s: Service, capacity: nat, q: Request): (Service, Reply)
    requires capacity > 0
  {
    var known := Lookup(s.window, q.id);
    if known.Some? then
      if known.value.fingerprint != q.fingerprint then (s, Conflict)
      else if q.attempt.ReadBackFails? then (s, Error)
      else (s, Answer(known.value.thread, known.value.turn, false))
    else
      var thread := s.next;
      var record := Record(q.fingerprint, thread, s.next + 1, s.next + 2,
        if q.attempt.Done? then q.attempt.imported else None);
      match q.attempt
      case CreateFails(imported) => (Imported(s, imported), Error)
      case PrepareFails(imported, _, _) => (RolledBack(s, Created(s, imported), thread, q.attempt), Error)
      case ReadBackFails(imported) => (Created(s, imported).(created := s.created + [thread]), Error)
      case Done(imported) =>
        (Created(s, imported).(created := s.created + [thread], window := Inserted(s.window, capacity, q.id, record)),
         Answer(thread, record.turn, true))
  }

  function After(s: Service, capacity: nat, requests: seq<Request>): Service
    requires capacity > 0
    decreases |requests|
  {
    if requests == [] then s else After(Serve(s, capacity, requests[0]).0, capacity, requests[1..])
  }

  predicate ReferencesOk(s: Service) {
    && (forall t | t in s.threads :: t < s.next)
    && (forall t | t in s.threads && s.threads[t].Some? :: s.threads[t].value in s.projects)
  }

  predicate ServiceOk(s: Service, capacity: nat) {
    Distinct(s.window) && |s.window| <= capacity && ReferencesOk(s)
  }

  /** How many of the requests enter the window as new entries. */
  function Entering(s: Service, capacity: nat, requests: seq<Request>): nat
    requires capacity > 0
    decreases |requests|
  {
    if requests == [] then 0
    else
      (if Lookup(s.window, requests[0].id).None? && requests[0].attempt.Done? then 1 else 0)
      + Entering(Serve(s, capacity, requests[0]).0, capacity, requests[1..])
  }

  lemma ServeKeepsReferences(s: Service, capacity: nat, q: Request)
    requires capacity > 0 && ReferencesOk(s)
    ensures ReferencesOk(Serve(s, capacity, q).0)
  {
  }

  lemma ServeKeepsOk(s: Service, capacity: nat, q: Request)
    requires capacity > 0 && ServiceOk(s, capacity)
    ensures ServiceOk(Serve(s, capacity, q).0, capacity)
  {
    ServeKeepsReferences(s, capacity, q);
    var w' := Serve(s, capacity, q).0.window;
    if w' != s.window {
      InsertedIsValid(s.window, capacity, q.id, w'[|w'| - 1].1);
    }
  }

  /**
   An entry stays, unchanged, until so many new ones have entered that all older ones and the free
   places are used up, and is gone with the next.
   */
  lemma {:induction false} EntryStays(s: Service, capacity: nat, requests: seq<Request>, place: nat)
    requires capacity > 0 && ServiceOk(s, capacity) && place < |s.window|
    requires Entering(s, capacity, requests) <= capacity - |s.window| + place
    ensures var w := After(s, capacity, requests).window; var id := s.window[place].0;
      Distinct(w) && Lookup(w, id) == Some(s.window[place].1)
    decreases |requests|
  {
    if requests == [] {
      FoundAt(s.window, s.window[place].0);
    } else {
      var q := requests[0];
      var s' := Serve(s, capacity, q).0;
      ServeKeepsOk(s, capacity, q);
      FoundAt(s.window, q.id);
      if Lookup(s.window, q.id).None? && q.attempt.Done? {
        var record := Lookup(s'.window, q.id);
        assert s.window[place].0 != q.id;
        var place' := if |s.window| < capacity then place else place - 1;
        EntryStays(s', capacity, requests[1..], place');
      } else {
        EntryStays(s', capacity, requests[1..], place);
      }
    }
  }

  /** And is gone with the next new one. */
  lemma OldestLeaves(s: Service, capacity: nat, q: Request)
    requires capacity > 0 && ServiceOk(s, capacity) && |s.window| == capacity
    requires Lookup(s.window, q.id).None? && q.attempt.Done?
    ensures Lookup(Serve(s, capacity, q).0.window, s.window[0].0).None?
  {
    FoundAt(s.window, q.id);
    FoundAt(Serve(s, capacity, q).0.window, s.window[0].0);
  }

  /**
   As long as an answered request is in the window, however often it is retried and whatever else
   is served in between, the retry creates nothing and gets the same thread and turn, or a conflict
   when its parameters differ.
   */
  lemma RetryCreatesNothing(s: Service, capacity: nat, first: Request, between: seq<Request>, retry: Request)
    requires capacity > 0 && ServiceOk(s, capacity)
    requires Serve(s, capacity, first).1.Answer? && Serve(s, capacity, first).1.created && retry.id == first.id
    requires Entering(Serve(s, capacity, first).0, capacity, between) < capacity
    ensures var answer := Serve(s, capacity, first).1;
      var later := After(Serve(s, capacity, first).0, capacity, between);
      var (after, reply) := Serve(later, capacity, retry);
      && after == later
      && (retry.fingerprint != first.fingerprint ==> reply == Conflict)
      && (retry.fingerprint == first.fingerprint ==>
          reply == answer.(created := false) || (retry.attempt.ReadBackFails? && reply == Error))
  {
    var s1 := Serve(s, capacity, first).0;
    ServeKeepsOk(s, capacity, first);
    FoundAt(s.window, first.id);
    EntryStays(s1, capacity, between, |s1.window| - 1);
  }

  // ---------------------------------------------------------------------------------------------
  // Creations that fail

  predicate Fails(q: Request) { q.attempt.CreateFails? || q.attempt.PrepareFails? }

  predicate NewImport(s: Service, q: Request, p: nat) { q.attempt.imported == Some(p) && p !in s.projects }

  /**
   What a failed creation leaves behind. A thread stays if and only if its deletion failed. A project
   stays if and only if it is new and the failure came between import and thread, or one of the two
   deletions failed: with the thread still there the store refuses to delete its project.
   */
  lemma FailedCreationLeavesNothingIff(s: Service, capacity: nat, q: Request)
    requires capacity > 0 && ServiceOk(s, capacity) && Lookup(s.window, q.id).None? && Fails(q)
    ensures var s' := Serve(s, capacity, q).0; var a := q.attempt;
      && s'.window == s.window && s'.created == s.created
      && (s'.threads == s.threads <==> a.CreateFails? || a.threadGoes)
      && s.projects <= s'.projects
      && (forall p | p in s'.projects - s.projects :: a.imported == Some(p))
      && (s'.projects == s.projects <==>
          || a.imported.None? || a.imported.value in s.projects
          || (a.PrepareFails? && a.threadGoes && a.projectGoes))
  {
    if q.attempt.PrepareFails? {
      var during := Created(s, q.attempt.imported);
      assert during.threads - {s.next} == s.threads;
      assert s.next in during.threads && during.threads[s.next] == q.attempt.imported;
    }
  }

  predicate Orphan(s: Service, p: nat) { p in s.projects && !Refers(s, p) }

  /** The two ways to leave a project nobody refers to. */
  predicate Strands(s: Service, q: Request, p: nat) {
    && Lookup(s.window, q.id).None? && NewImport(s, q, p)
    && (q.attempt.CreateFails? || (q.attempt.PrepareFails? && q.attempt.threadGoes && !q.attempt.projectGoes))
  }

  lemma StrandsExactly(s: Service, capacity: nat, q: Request, p: nat)
    requires capacity > 0 && ServiceOk(s, capacity) && !Orphan(s, p)
    ensures Orphan(Serve(s, capacity, q).0, p) <==> Strands(s, q, p)
  {
    var s' := Serve(s, capacity, q).0;
    if Refers(s, p) {
      var t :| t in s.threads && s.threads[t] == Some(p);
      assert t in s'.threads && s'.threads[t] == Some(p);
    } else if Lookup(s.window, q.id).None? && NewImport(s, q, p) && !q.attempt.CreateFails? {
      if !q.attempt.PrepareFails? || !q.attempt.threadGoes {
        assert s.next in s'.threads && s'.threads[s.next] == Some(p);
      } else {
        assert Created(s, q.attempt.imported).threads - {s.next} == s.threads;
      }
    }
  }

  predicate StrandedAt(s: Service, capacity: nat, requests: seq<Request>, i: nat, p: nat)
    requires capacity > 0 && i < |requests|
  {
    Strands(After(s, capacity, requests[..i]), requests[i], p)
  }

  /** However many requests are served, a project ends up unused only through such a failure. */
  lemma {:induction false} OrphansWereStranded(s: Service, capacity: nat, requests: seq<Request>, p: nat)
    requires capacity > 0 && ServiceOk(s, capacity) && !Orphan(s, p) && Orphan(After(s, capacity, requests), p)
    ensures exists i :: 0 <= i < |requests| && StrandedAt(s, capacity, requests, i, p)
    decreases |requests|
  {
    var q := requests[0];
    var s1 := Serve(s, capacity, q).0;
    StrandsExactly(s, capacity, q, p);
    if Orphan(s1, p) {
      assert requests[..0] == [];
      assert StrandedAt(s, capacity, requests, 0, p);
    } else {
      ServeKeepsOk(s, capacity, q);
      OrphansWereStranded(s1, capacity, requests[1..], p);
      var i :| 0 <= i < |requests[1..]| && StrandedAt(s1, capacity, requests[1..], i, p);
      assert requests[..i + 1][0] == q && requests[..i + 1][1..] == requests[1..][..i];
      assert StrandedAt(s, capacity, requests, i + 1, p);
    }
  }

  /** It happens: a first request whose workspace directory cannot be made leaves its project behind. */
  lemma FirstFailureStrandsProject()
    ensures var s := Service([], map[], {}, 0, []);
      var q := Request("r", "f", CreateFails(Some(7)));
      ServiceOk(s, 1) && Orphan(Serve(s, 1, q).0, 7)
  {
    var s := Service([], map[], {}, 0, []);
    StrandsExactly(s, 1, Request("r", "f", CreateFails(Some(7))), 7);
  }

  /**
   The one gap: when the thread and turn exist but reading them back fails, nothing enters the
   window, so a retry makes a second thread.
   */
  lemma ReadBackFailureForgets(s: Service, capacity: nat, q: Request, retry: Request)
    requires capacity > 0 && Lookup(s.window, q.id).None? && retry.id == q.id && retry.attempt.Done?
    requires q.attempt.ReadBackFails? || q.attempt.Done?
    ensures var s' := Serve(s, capacity, q).0;
      var s'' := Serve(s', capacity, retry).0;
      |s''.created| == |s.created| + 2 <==> q.attempt.ReadBackFails?
  {
    FoundAt(s.window, q.id);
    if q.attempt.Done? {
      var w' := Serve(s, capacity, q).0.window;
      assert w'[|w'| - 1].0 == q.id;
      FoundAt(w', q.id);
    }
  }
}
