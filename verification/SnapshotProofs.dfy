/** Saving and loading a state gives the state back. */
module SnapshotProofs {
  import opened Prelude
  import opened Domain
  import opened Stores
  import opened StoreOps
  import opened Snapshots

  // ---------------------------------------------------------------------------------------------
  // Filing

  predicate Entries<K(==), T(==)>(pairs: seq<(K, T)>, m: map<K, T>) {
    forall i | 0 <= i < |pairs| :: pairs[i].0 in m && m[pairs[i].0] == pairs[i].1
  }

  predicate DistinctKeys<K(==), T>(pairs: seq<(K, T)>) {
    forall i, j | 0 <= i < j < |pairs| :: pairs[i].0 != pairs[j].0
  }

  predicate HasKey<K(==), T>(pairs: seq<(K, T)>, k: K) {
    exists i :: 0 <= i < |pairs| && pairs[i].0 == k
  }

  /** The entries of the map that the pairs name. */
  ghost function Named<K, T>(pairs: seq<(K, T)>, m: map<K, T>): map<K, T> {
    map k | k in m && HasKey(pairs, k) :: m[k]
  }

  lemma HasKeySplits<K, T>(pairs: seq<(K, T)>, k: K)
    requires pairs != []
    ensures HasKey(pairs, k) <==> k == pairs[0].0 || HasKey(pairs[1..], k)
  {
    if HasKey(pairs[1..], k) {
      var i :| 0 <= i < |pairs[1..]| && pairs[1..][i].0 == k;
      assert pairs[i + 1].0 == k;
    }
    if HasKey(pairs, k) && k != pairs[0].0 {
      var i :| 0 <= i < |pairs| && pairs[i].0 == k;
      assert pairs[1..][i - 1].0 == k;
    }
  }

  lemma {:induction false} FiledGathers<K, T>(pairs: seq<(K, T)>, m: map<K, T>, acc: map<K, T>)
    requires Entries(pairs, m) && DistinctKeys(pairs)
    requires forall i | 0 <= i < |pairs| :: pairs[i].0 !in acc
    ensures Filed(pairs, acc) == Some(acc + Named(pairs, m))
    decreases |pairs|
  {
    if pairs == [] {
      assert acc == acc + Named(pairs, m);
    } else {
      assert Entries(pairs[1..], m) && DistinctKeys(pairs[1..]);
      FiledGathers(pairs[1..], m, acc[pairs[0].0 := pairs[0].1]);
      forall k {
        HasKeySplits(pairs, k);
      }
      assert acc[pairs[0].0 := pairs[0].1] + Named(pairs[1..], m) ==
        acc + Named(pairs, m);
    }
  }

  predicate HasPair<K(==), T(==)>(pairs: seq<(K, T)>, k: K, v: T) {
    exists i :: 0 <= i < |pairs| && pairs[i] == (k, v)
  }

  predicate CameFrom<K(==), T(==)>(pairs: seq<(K, T)>, acc: map<K, T>, m: map<K, T>) {
    forall k | k in m :: (k in acc && m[k] == acc[k]) || HasPair(pairs, k, m[k])
  }

  lemma CameFromTail<K, T>(pairs: seq<(K, T)>, acc: map<K, T>, m: map<K, T>)
    requires pairs != [] && CameFrom(pairs[1..], acc[pairs[0].0 := pairs[0].1], m)
    ensures CameFrom(pairs, acc, m)
  {
    forall k | k in m
      ensures (k in acc && m[k] == acc[k]) || HasPair(pairs, k, m[k])
    {
      if HasPair(pairs[1..], k, m[k]) {
        var i :| 0 <= i < |pairs[1..]| && pairs[1..][i] == (k, m[k]);
        assert pairs[i + 1] == (k, m[k]);
      } else if k == pairs[0].0 {
        assert pairs[0] == (k, m[k]);
      }
    }
  }

  /** Filing fails exactly when some key comes twice, and invents nothing. */
  lemma {:induction false} FiledFails<K, T>(pairs: seq<(K, T)>, acc: map<K, T>)
    ensures Filed(pairs, acc).Some? <==> DistinctKeys(pairs) && forall i | 0 <= i < |pairs| :: pairs[i].0 !in acc
    ensures Filed(pairs, acc).Some? ==> CameFrom(pairs, acc, Filed(pairs, acc).value)
    decreases |pairs|
  {
    if pairs != [] {
      var acc' := acc[pairs[0].0 := pairs[0].1];
      FiledFails(pairs[1..], acc');
      assert forall i | 0 < i < |pairs| :: pairs[i] == pairs[1..][i - 1];
      if pairs[0].0 !in acc && Filed(pairs[1..], acc').Some? {
        CameFromTail(pairs, acc, Filed(pairs[1..], acc').value);
      }
    }
  }

  lemma {:induction false} FiledHolds<K, T>(pairs: seq<(K, T)>, acc: map<K, T>)
    requires Filed(pairs, acc).Some?
    ensures Entries(pairs, Filed(pairs, acc).value)
    ensures forall k | k in acc :: k in Filed(pairs, acc).value && Filed(pairs, acc).value[k] == acc[k]
    decreases |pairs|
  {
    if pairs != [] {
      FiledHolds(pairs[1..], acc[pairs[0].0 := pairs[0].1]);
      assert forall i | 0 < i < |pairs| :: pairs[i] == pairs[1..][i - 1];
    }
  }

  /** Filing one pair per entry, in any order, rebuilds the map. */
  lemma FiledRebuilds<K, T>(pairs: seq<(K, T)>, m: map<K, T>)
    requires Entries(pairs, m) && DistinctKeys(pairs)
    requires forall k | k in m :: HasKey(pairs, k)
    ensures Filed(pairs, map[]) == Some(m)
  {
    FiledGathers(pairs, m, map[]);
    assert map[] + Named(pairs, m) == m;
  }

  // ---------------------------------------------------------------------------------------------
  // Listings

  /** The identifiers list every entry once. */
  predicate Enumerates<T>(ids: seq<nat>, m: map<nat, T>) {
    && (forall i | 0 <= i < |ids| :: ids[i] in m)
    && (forall k | k in m :: k in ids)
    && NoDuplicates(ids)
  }

  lemma SortedEnumerates<T>(m: map<nat, T>, created: map<nat, Timestamp>)
    requires created.Keys == m.Keys
    ensures Enumerates(SortedIds(created), m)
  {
    SortedIdsIsSorting(created);
    var ids := SortedIds(created);
    forall i | 0 <= i < |ids|
      ensures ids[i] in m
    {
      assert ids[i] in ids;
    }
  }

  lemma KeyedListing<T>(pairs: seq<(nat, T)>, ids: seq<nat>, m: map<nat, T>)
    requires Enumerates(ids, m) && |pairs| == |ids|
    requires forall i | 0 <= i < |ids| :: pairs[i] == (ids[i], m[ids[i]])
    ensures Filed(pairs, map[]) == Some(m)
  {
    forall k | k in m
      ensures HasKey(pairs, k)
    {
      var i :| 0 <= i < |ids| && ids[i] == k;
      assert pairs[i].0 == k;
    }
    FiledRebuilds(pairs, m);
  }

  lemma IndexListing<K>(pairs: seq<(K, nat)>, ids: seq<nat>, keyOf: map<nat, K>, index: map<K, nat>)
    requires Enumerates(ids, keyOf) && |pairs| == |ids|
    requires forall i | 0 <= i < |ids| :: pairs[i] == (keyOf[ids[i]], ids[i])
    requires forall id | id in keyOf :: keyOf[id] in index && index[keyOf[id]] == id
    requires forall k | k in index :: index[k] in keyOf && keyOf[index[k]] == k
    ensures Filed(pairs, map[]) == Some(index)
  {
    forall k | k in index
      ensures HasKey(pairs, k)
    {
      var i :| 0 <= i < |ids| && ids[i] == index[k];
      assert pairs[i].0 == k;
    }
    assert DistinctKeys(pairs) by {
      forall i, j | 0 <= i < j < |pairs|
        ensures pairs[i].0 != pairs[j].0
      {
        assert index[pairs[i].0] == ids[i] && index[pairs[j].0] == ids[j];
      }
    }
    FiledRebuilds(pairs, index);
  }

  // ---------------------------------------------------------------------------------------------
  // Order lists

  function FlatIds(threads: seq<ThreadId>, order: map<ThreadId, seq<nat>>): seq<nat> {
    if threads == [] then []
    else (if threads[0] in order then order[threads[0]] else []) + FlatIds(threads[1..], order)
  }

  lemma {:induction false} InOrderIsListing<T>(threads: seq<ThreadId>, order: map<ThreadId, seq<nat>>, m: map<nat, T>)
    requires forall t, i | t in order && 0 <= i < |order[t]| :: order[t][i] in m
    ensures forall i | 0 <= i < |FlatIds(threads, order)| :: FlatIds(threads, order)[i] in m
    ensures InOrder(threads, order, m) == Listing(FlatIds(threads, order), m)
  {
    if threads != [] {
      InOrderIsListing(threads[1..], order, m);
    }
  }

  lemma {:induction false} FlatIdsOwned(threads: seq<ThreadId>, all: set<ThreadId>, order: map<ThreadId, seq<nat>>,
                                        owner: map<nat, ThreadId>)
    requires OrderOk(all, order, owner) && NoDuplicates(threads)
    ensures forall i | 0 <= i < |FlatIds(threads, order)| ::
      FlatIds(threads, order)[i] in owner && owner[FlatIds(threads, order)[i]] in threads
    ensures NoDuplicates(FlatIds(threads, order))
    ensures forall id | id in owner && owner[id] in threads :: id in FlatIds(threads, order)
  {
    if threads != [] {
      var rest := FlatIds(threads[1..], order);
      assert NoDuplicates(threads[1..]) && threads[0] !in threads[1..];
      FlatIdsOwned(threads[1..], all, order, owner);
      var block := if threads[0] in order then order[threads[0]] else [];
      assert FlatIds(threads, order) == block + rest;
      forall i | 0 <= i < |rest|
        ensures rest[i] in owner && owner[rest[i]] in threads[1..] && owner[rest[i]] != threads[0] && rest[i] !in block
      {
        assert owner[rest[i]] in threads[1..];
      }
      assert forall t :: t in threads <==> t == threads[0] || t in threads[1..];
    }
  }

  function OwnerPairs(ids: seq<nat>, owner: map<nat, ThreadId>): seq<(ThreadId, nat)>
    requires forall i | 0 <= i < |ids| :: ids[i] in owner
  {
    seq(|ids|, i requires 0 <= i < |ids| => (owner[ids[i]], ids[i]))
  }

  lemma {:induction false} GroupedConcat(a: seq<(ThreadId, nat)>, b: seq<(ThreadId, nat)>,
                                         order: map<ThreadId, seq<nat>>)
    ensures Grouped(a + b, order) == Grouped(b, Grouped(a, order))
    decreases |a|
  {
    if a == [] {
      assert a + b == b;
    } else {
      assert (a + b)[1..] == a[1..] + b;
      GroupedConcat(a[1..], b, Push(order, a[0].0, a[0].1));
    }
  }

  lemma {:induction false} GroupedBlock(pairs: seq<(ThreadId, nat)>, ids: seq<nat>, t: ThreadId,
                                        order: map<ThreadId, seq<nat>>)
    requires |pairs| == |ids| && forall i | 0 <= i < |ids| :: pairs[i] == (t, ids[i])
    ensures Grouped(pairs, order) ==
      if ids == [] then order else order[t := (if t in order then order[t] else []) + ids]
    decreases |pairs|
  {
    if ids != [] {
      var order' := Push(order, t, ids[0]);
      GroupedBlock(pairs[1..], ids[1..], t, order');
      assert ids == [ids[0]] + ids[1..];
      assert (if t in order then order[t] else []) + ids == order'[t] + ids[1..];
      if ids[1..] == [] {
        assert order'[t] + ids[1..] == order'[t];
      } else {
        assert order'[t := order'[t] + ids[1..]] == order[t := order'[t] + ids[1..]];
      }
    }
  }

  function NonEmpty(order: map<ThreadId, seq<nat>>): map<ThreadId, seq<nat>> {
    map t | t in order && order[t] != [] :: order[t]
  }

  function Among(order: map<ThreadId, seq<nat>>, threads: seq<ThreadId>): map<ThreadId, seq<nat>> {
    map t | t in order && order[t] != [] && t in threads :: order[t]
  }

  function Block(order: map<ThreadId, seq<nat>>, t: ThreadId): seq<nat> {
    if t in order then order[t] else []
  }

  lemma AmongSplits(order: map<ThreadId, seq<nat>>, threads: seq<ThreadId>, acc: map<ThreadId, seq<nat>>)
    requires threads != [] && threads[0] !in threads[1..] && threads[0] !in acc
    ensures acc + Among(order, threads) ==
      (if Block(order, threads[0]) == [] then acc else acc[threads[0] := Block(order, threads[0])])
        + Among(order, threads[1..])
  {
    assert threads == [threads[0]] + threads[1..];
    assert forall t :: t in threads <==> t == threads[0] || t in threads[1..];
  }

  lemma PairsSplit(a: seq<nat>, b: seq<nat>, owner: map<nat, ThreadId>)
    requires forall i | 0 <= i < |a + b| :: (a + b)[i] in owner
    ensures forall i | 0 <= i < |a| :: a[i] in owner
    ensures forall i | 0 <= i < |b| :: b[i] in owner
    ensures OwnerPairs(a + b, owner) == OwnerPairs(a, owner) + OwnerPairs(b, owner)
  {
    assert forall i | 0 <= i < |a| :: a[i] == (a + b)[i];
    assert forall i | 0 <= i < |b| :: b[i] == (a + b)[|a| + i];
  }

  /** Regrouping the flattened lists gives the lists back, except empty ones. */
  lemma {:induction false} GroupedFlat(threads: seq<ThreadId>, all: set<ThreadId>, order: map<ThreadId, seq<nat>>,
                                       owner: map<nat, ThreadId>, acc: map<ThreadId, seq<nat>>)
    requires OrderOk(all, order, owner) && NoDuplicates(threads)
    requires forall i | 0 <= i < |threads| :: threads[i] !in acc
    requires forall i | 0 <= i < |FlatIds(threads, order)| :: FlatIds(threads, order)[i] in owner
    ensures Grouped(OwnerPairs(FlatIds(threads, order), owner), acc) == acc + Among(order, threads)
    decreases |threads|
  {
    if threads == [] {
      assert acc == acc + Among(order, threads);
    } else {
      var t0 := threads[0];
      var block := Block(order, t0);
      var rest := FlatIds(threads[1..], order);
      assert FlatIds(threads, order) == block + rest;
      PairsSplit(block, rest, owner);
      var acc' := if block == [] then acc else acc[t0 := block];
      assert t0 !in threads[1..];
      GroupedFlat(threads[1..], all, order, owner, acc');
      GroupedConcat(OwnerPairs(block, owner), OwnerPairs(rest, owner), acc);
      GroupedOwn(block, t0, owner, acc);
      AmongSplits(order, threads, acc);
    }
  }

  lemma GroupedOwn(block: seq<nat>, t: ThreadId, owner: map<nat, ThreadId>, acc: map<ThreadId, seq<nat>>)
    requires forall i | 0 <= i < |block| :: block[i] in owner && owner[block[i]] == t
    requires t !in acc
    ensures Grouped(OwnerPairs(block, owner), acc) == if block == [] then acc else acc[t := block]
  {
    GroupedBlock(OwnerPairs(block, owner), block, t, acc);
    assert [] + block == block;
  }
}
