/** Cutting the history of a thread to a budget without splitting a turn. */
module BudgetHistories {
  import opened Prelude

  /** `cost` is the serialised length of the parts; `calls` and `results` name the tool calls made and answered. */
  datatype Entry = Entry(turn: Option<nat>, cost: nat, calls: set<string>, results: set<string>)

  const USIZE_MAX: nat := U64_MAX

  function SaturatingAdd(a: nat, b: nat): nat { if a + b > USIZE_MAX then USIZE_MAX else a + b }

  function Cost(q: seq<Entry>): nat {
    if q == [] then 0 else Cost(q[..|q| - 1]) + q[|q| - 1].cost
  }

  function Flat(groups: seq<seq<Entry>>): seq<Entry> {
    if groups == [] then [] else Flat(groups[..|groups| - 1]) + groups[|groups| - 1]
  }

  function Reversed<T>(q: seq<T>): (r: seq<T>)
    ensures |r| == |q| && forall i | 0 <= i < |q| :: r[i] == q[|q| - 1 - i]
  {
    seq(|q|, i requires 0 <= i < |q| => q[|q| - 1 - i])
  }

  // ---------------------------------------------------------------------------------------------
  // What is promised

  /** A message that belongs to the same turn as the one before it stays with it. */
  predicate Joined(q: seq<Entry>, k: nat)
    requires k < |q|
  {
    k > 0 && q[k].turn.Some? && q[k - 1].turn == q[k].turn
  }

  predicate Boundary(q: seq<Entry>, k: nat) { k < |q| && !Joined(q, k) }

  predicate NewestBoundary(q: seq<Entry>, k: nat) {
    Boundary(q, k) && forall j | k < j < |q| :: Joined(q, j)
  }

  /** From a boundary on: the longest such suffix within the budget, or the newest group if even that exceeds it. */
  predicate WithinBudget(q: seq<Entry>, budget: nat, kept: seq<Entry>) {
    if q == [] then kept == []
    else
      && 0 < |kept| <= |q|
      && var k := |q| - |kept|;
      && kept == q[k..]
      && Boundary(q, k)
      && (Cost(kept) <= budget || NewestBoundary(q, k))
      && (forall j | 0 <= j < k && Boundary(q, j) :: Cost(q[j..]) > budget)
  }

  // ---------------------------------------------------------------------------------------------
  // Groups

  /** The last group takes the message if it is of the same turn as the message before. */
  function Extended(groups: seq<seq<Entry>>, last: Entry): seq<seq<Entry>> {
    var n := |groups| - 1;
    if last.turn.Some? && groups != [] && groups[n] != [] && groups[n][|groups[n]| - 1].turn == last.turn then
      groups[n := groups[n] + [last]]
    else
      groups + [[last]]
  }

  function Groups(q: seq<Entry>): seq<seq<Entry>> {
    if q == [] then [] else Extended(Groups(q[..|q| - 1]), q[|q| - 1])
  }

  lemma FlatLast(groups: seq<seq<Entry>>, group: seq<Entry>)
    ensures Flat(groups + [group]) == Flat(groups) + group
  {
    assert (groups + [group])[..|groups|] == groups;
  }

  lemma {:induction false} FlatConcat(a: seq<seq<Entry>>, b: seq<seq<Entry>>)
    ensures Flat(a + b) == Flat(a) + Flat(b)
    decreases |b|
  {
    if b == [] {
      assert a + b == a;
    } else {
      var init, last := b[..|b| - 1], b[|b| - 1];
      assert a + b == (a + init) + [last] && b == init + [last];
      FlatConcat(a, init);
      FlatLast(a + init, last);
    }
  }

  lemma LastGroupGrows(groups: seq<seq<Entry>>, last: Entry)
    requires groups != []
    ensures Flat(groups[|groups| - 1 := groups[|groups| - 1] + [last]]) == Flat(groups) + [last]
  {
    var t := |groups| - 1;
    assert groups == groups[..t] + [groups[t]];
    assert groups[t := groups[t] + [last]] == groups[..t] + [groups[t] + [last]];
    FlatLast(groups[..t], groups[t]);
    FlatLast(groups[..t], groups[t] + [last]);
  }

  predicate EndsWith(groups: seq<seq<Entry>>, last: Entry) {
    groups != [] && groups[|groups| - 1] != [] && groups[|groups| - 1][|groups[|groups| - 1]| - 1] == last
  }

  lemma ExtendedPartition(groups: seq<seq<Entry>>, last: Entry)
    requires forall t | 0 <= t < |groups| :: groups[t] != []
    ensures var more := Extended(groups, last);
      && Flat(more) == Flat(groups) + [last]
      && (forall t | 0 <= t < |more| :: more[t] != [])
      && EndsWith(more, last)
  {
    if |Extended(groups, last)| == |groups| {
      LastGroupGrows(groups, last);
    } else {
      FlatLast(groups, [last]);
    }
  }

  /** The group a message joins ends with the message before it, so grouping never looks further back. */
  lemma {:induction false} GroupsPartition(q: seq<Entry>)
    ensures Flat(Groups(q)) == q
    ensures forall t | 0 <= t < |Groups(q)| :: Groups(q)[t] != []
    ensures q != [] ==> EndsWith(Groups(q), q[|q| - 1])
  {
    if q != [] {
      var init, last := q[..|q| - 1], q[|q| - 1];
      GroupsPartition(init);
      ExtendedPartition(Groups(init), last);
      assert q == init + [last];
    }
  }

  function StartOf(groups: seq<seq<Entry>>, t: nat): nat
    requires t <= |groups|
  {
    |Flat(groups[..t])|
  }

  /** A position is where a group starts exactly when it is a boundary. */
  lemma {:induction false} GroupsStartAtBoundaries(q: seq<Entry>)
    ensures forall t | 0 <= t < |Groups(q)| :: Boundary(q, StartOf(Groups(q), t))
    ensures forall k | 0 <= k < |q| && Boundary(q, k) :: exists t :: 0 <= t < |Groups(q)| && StartOf(Groups(q), t) == k
  {
    if q != [] {
      var init, last := q[..|q| - 1], q[|q| - 1];
      var before, groups := Groups(init), Groups(q);
      GroupsPartition(init);
      GroupsStartAtBoundaries(init);
      assert forall k | 0 <= k < |init| :: q[k] == init[k];
      assert forall k | 0 <= k < |init| :: Boundary(q, k) <==> Boundary(init, k);
      assert forall t | 0 <= t < |before| :: groups[..t] == before[..t];
      if |groups| == |before| {
        assert Joined(q, |init|);
      } else {
        assert groups[..|before|] == before && StartOf(groups, |before|) == |init|;
        assert Boundary(q, |init|) by {
          if init != [] {
            assert before[|before| - 1][|before[|before| - 1]| - 1] == init[|init| - 1];
          }
        }
      }
      forall t | 0 <= t < |groups|
        ensures Boundary(q, StartOf(groups, t))
      {
        if t < |before| {
          assert groups[..t] == before[..t] && Boundary(init, StartOf(before, t));
        }
      }
      forall k | 0 <= k < |q| && Boundary(q, k)
        ensures exists t :: 0 <= t < |groups| && StartOf(groups, t) == k
      {
        if k < |init| {
          assert Boundary(init, k);
          var t :| 0 <= t < |before| && StartOf(before, t) == k;
          assert StartOf(groups, t) == k;
        }
      }
    }
  }

  lemma SuffixOfGroups(q: seq<Entry>, t: nat)
    requires t <= |Groups(q)|
    ensures StartOf(Groups(q), t) <= |q| && Flat(Groups(q)[t..]) == q[StartOf(Groups(q), t)..]
  {
    GroupsPartition(q);
    assert Groups(q) == Groups(q)[..t] + Groups(q)[t..];
    FlatConcat(Groups(q)[..t], Groups(q)[t..]);
  }

  lemma {:induction false} CostConcat(a: seq<Entry>, b: seq<Entry>)
    ensures Cost(a + b) == Cost(a) + Cost(b)
    decreases |b|
  {
    if b == [] {
      assert a + b == a;
    } else {
      assert (a + b)[..|a + b| - 1] == a + b[..|b| - 1];
      CostConcat(a, b[..|b| - 1]);
    }
  }

  lemma CostOfSuffix(q: seq<Entry>, j: nat, k: nat)
    requires j <= k <= |q|
    ensures Cost(q[k..]) <= Cost(q[j..])
  {
    assert q[j..] == q[j..k] + q[k..];
    CostConcat(q[j..k], q[k..]);
  }

  lemma StartOfNext(q: seq<Entry>, t: nat)
    requires t < |Groups(q)|
    ensures StartOf(Groups(q), t) < StartOf(Groups(q), t + 1)
  {
    var groups := Groups(q);
    GroupsPartition(q);
    assert groups[..t + 1] == groups[..t] + [groups[t]];
    FlatLast(groups[..t], groups[t]);
  }

  lemma {:induction false} StartsIncrease(q: seq<Entry>, s: nat, t: nat)
    requires s < t <= |Groups(q)|
    ensures StartOf(Groups(q), s) < StartOf(Groups(q), t)
    decreases t
  {
    StartOfNext(q, t - 1);
    if s < t - 1 {
      StartsIncrease(q, s, t - 1);
    }
  }

  lemma NewestGroupStart(q: seq<Entry>)
    requires q != []
    ensures Groups(q) != [] && NewestBoundary(q, StartOf(Groups(q), |Groups(q)| - 1))
  {
    var groups := Groups(q);
    GroupsPartition(q);
    GroupsStartAtBoundaries(q);
    var k := StartOf(groups, |groups| - 1);
    forall j | k < j < |q|
      ensures Joined(q, j)
    {
      if Boundary(q, j) {
        var u :| 0 <= u < |groups| && StartOf(groups, u) == j;
        if u < |groups| - 1 { StartsIncrease(q, u, |groups| - 1); }
      }
    }
  }

  lemma GroupBefore(q: seq<Entry>, t: nat, j: nat) returns (u: nat)
    requires t < |Groups(q)| && Boundary(q, j) && j < StartOf(Groups(q), t)
    ensures u < t && StartOf(Groups(q), u) == j
  {
    GroupsStartAtBoundaries(q);
    u :| 0 <= u < |Groups(q)| && StartOf(Groups(q), u) == j;
    if t < u { StartsIncrease(q, t, u); }
  }

  /** A boundary before group t is no later than the start of the group before it. */
  lemma EarlierStart(q: seq<Entry>, t: nat, j: nat)
    requires t < |Groups(q)| && Boundary(q, j) && j < StartOf(Groups(q), t)
    ensures t > 0 && j <= StartOf(Groups(q), t - 1)
  {
    var u := GroupBefore(q, t, j);
    if u < t - 1 {
      StartsIncrease(q, u, t - 1);
    }
  }

  lemma EarlierCostsMore(q: seq<Entry>, t: nat, j: nat)
    requires t < |Groups(q)| && Boundary(q, j) && j < StartOf(Groups(q), t)
    ensures t > 0 && Cost(q[j..]) >= Cost(Flat(Groups(q)[t - 1..]))
  {
    EarlierStart(q, t, j);
    SuffixOfGroups(q, t - 1);
    CostOfSuffix(q, j, StartOf(Groups(q), t - 1));
  }

  /** Keeping the groups from t on is what is promised, if they fit or are one, and one more would not fit. */
  lemma GroupsWithinBudget(q: seq<Entry>, budget: nat, t: nat)
    requires q != [] && t < |Groups(q)|
    requires Cost(Flat(Groups(q)[t..])) <= budget || t == |Groups(q)| - 1
    requires t > 0 ==> Cost(Flat(Groups(q)[t - 1..])) > budget
    ensures WithinBudget(q, budget, Flat(Groups(q)[t..]))
  {
    var k := StartOf(Groups(q), t);
    GroupsStartAtBoundaries(q);
    SuffixOfGroups(q, t);
    NewestGroupStart(q);
    assert Boundary(q, k);
    forall j | 0 <= j < k && Boundary(q, j)
      ensures Cost(q[j..]) > budget
    {
      EarlierCostsMore(q, t, j);
    }
  }

  // ---------------------------------------------------------------------------------------------
  // The algorithm

  lemma ReversedGrows(groups: seq<seq<Entry>>, t: nat)
    requires 0 < t <= |groups|
    ensures Reversed(groups[t - 1..]) == Reversed(groups[t..]) + [groups[t - 1]]
  {
  }

  lemma ReversedTwice(groups: seq<seq<Entry>>)
    ensures Reversed(Reversed(groups)) == groups
  {
  }

  function CostFrom(groups: seq<seq<Entry>>, t: nat): nat
    requires t <= |groups|
  {
    Cost(Flat(groups[t..]))
  }

  predicate CostsAddUp(groups: seq<seq<Entry>>) {
    forall t | 0 <= t < |groups| :: CostFrom(groups, t) == CostFrom(groups, t + 1) + Cost(groups[t]) <= USIZE_MAX
  }

  lemma CostsOfGroupsAddUp(q: seq<Entry>)
    requires Cost(q) <= USIZE_MAX
    ensures CostsAddUp(Groups(q))
  {
    forall t | 0 <= t < |Groups(q)|
      ensures CostFrom(Groups(q), t) == CostFrom(Groups(q), t + 1) + Cost(Groups(q)[t]) <= USIZE_MAX
    {
      CostOfGroups(q, t);
    }
  }

  /** Groups are taken from the newest backwards while they fit; the newest is taken in any case. */
  method SelectNewest(groups: seq<seq<Entry>>, budget: nat) returns (selected: seq<seq<Entry>>, t: nat)
    requires groups != [] && CostsAddUp(groups)
    ensures t < |groups| && selected == Reversed(groups[t..])
    ensures CostFrom(groups, t) <= budget || t == |groups| - 1
    ensures t > 0 ==> CostFrom(groups, t - 1) > budget
  {
    selected := [];
    var used: nat := 0;
    var i := |groups|;
    while i > 0
      invariant 0 <= i <= |groups|
      invariant selected == Reversed(groups[i..])
      invariant used == CostFrom(groups, i)
      invariant i < |groups| - 1 ==> used <= budget
    {
      var group := groups[i - 1];
      ReversedGrows(groups, i);
      assert CostFrom(groups, i - 1) == CostFrom(groups, i) + Cost(group) <= USIZE_MAX;
      if selected != [] && SaturatingAdd(used, Cost(group)) > budget {
        break;
      }
      used := SaturatingAdd(used, Cost(group));
      selected := selected + [group];
      i := i - 1;
    }
    t := i;
  }

  method BudgetHistory(messages: seq<Entry>, budget: nat) returns (kept: seq<Entry>)
    requires Cost(messages) <= USIZE_MAX
    ensures WithinBudget(messages, budget, kept)
  {
    if messages == [] {
      return [];
    }
    var groups := Group(messages);
    GroupsPartition(messages);
    CostsOfGroupsAddUp(messages);
    var selected, t := SelectNewest(groups, budget);
    ReversedTwice(groups[t..]);
    GroupsWithinBudget(messages, budget, t);
    kept := Flat(Reversed(selected));
  }

  lemma CostOfGroups(q: seq<Entry>, t: nat)
    requires t < |Groups(q)|
    ensures Cost(Flat(Groups(q)[t..])) == Cost(Flat(Groups(q)[t + 1..])) + Cost(Groups(q)[t]) <= Cost(q)
  {
    var groups := Groups(q);
    assert groups[t..] == [groups[t]] + groups[t + 1..];
    FlatConcat([groups[t]], groups[t + 1..]);
    FlatLast([], groups[t]);
    assert [] + [groups[t]] == [groups[t]] && Flat([]) + groups[t] == groups[t];
    CostConcat(groups[t], Flat(groups[t + 1..]));
    SuffixOfGroups(q, t);
    CostOfSuffix(q, 0, StartOf(groups, t));
    assert q[0..] == q;
  }

  method Group(messages: seq<Entry>) returns (groups: seq<seq<Entry>>)
    ensures groups == Groups(messages)
  {
    groups := [];
    var i := 0;
    while i < |messages|
      invariant 0 <= i <= |messages|
      invariant groups == Groups(messages[..i])
    {
      var message := messages[i];
      assert messages[..i + 1][..i] == messages[..i];
      var n := |groups|;
      if message.turn.Some? && n > 0 && groups[n - 1] != [] && groups[n - 1][|groups[n - 1]| - 1].turn == message.turn {
        groups := groups[n - 1 := groups[n - 1] + [message]];
      } else {
        groups := groups + [[message]];
      }
      i := i + 1;
    }
    assert messages[..i] == messages;
  }

  // ---------------------------------------------------------------------------------------------
  // Why turns are not split

  lemma NoLongerSuffix(q: seq<Entry>, budget: nat, a: seq<Entry>, b: seq<Entry>)
    requires q != [] && WithinBudget(q, budget, a) && WithinBudget(q, budget, b)
    ensures |a| <= |b|
  {
    assert Boundary(q, |q| - |a|) && Boundary(q, |q| - |b|);
  }

  /** The promise leaves no choice. */
  lemma WithinBudgetIsUnique(q: seq<Entry>, budget: nat, a: seq<Entry>, b: seq<Entry>)
    requires WithinBudget(q, budget, a) && WithinBudget(q, budget, b)
    ensures a == b
  {
    if q != [] {
      NoLongerSuffix(q, budget, a, b);
      NoLongerSuffix(q, budget, b, a);
    }
  }

  predicate TurnsContiguous(q: seq<Entry>) {
    forall i, j, k | 0 <= i < j < k < |q| && q[i].turn.Some? && q[i].turn == q[k].turn :: q[j].turn == q[i].turn
  }

  lemma TurnsJoin(q: seq<Entry>, j: nat, k: nat, i: nat)
    requires TurnsContiguous(q) && j < k <= i < |q| && q[i].turn.Some? && q[j].turn == q[i].turn
    ensures Joined(q, k)
  {
    assert k - 1 > j ==> q[k - 1].turn == q[j].turn;
    assert k < i ==> q[k].turn == q[j].turn;
  }

  predicate Answered(q: seq<Entry>, i: nat, call: string)
    requires i < |q|
  {
    q[i].turn.Some? && exists j :: 0 <= j < i && q[j].turn == q[i].turn && call in q[j].calls
  }

  /** Every tool result answers a call made earlier in its turn. */
  predicate ResultsHaveCalls(q: seq<Entry>) {
    forall i, call | 0 <= i < |q| && call in q[i].results :: Answered(q, i, call)
  }

  /** No tool result that is kept loses its call. */
  lemma KeptResultsHaveCalls(q: seq<Entry>, budget: nat, kept: seq<Entry>)
    requires WithinBudget(q, budget, kept) && TurnsContiguous(q) && ResultsHaveCalls(q)
    ensures ResultsHaveCalls(kept)
  {
    if q != [] {
      var k := |q| - |kept|;
      forall i, call | 0 <= i < |kept| && call in kept[i].results
        ensures Answered(kept, i, call)
      {
        assert kept[i] == q[k + i] && Answered(q, k + i, call);
        var j :| 0 <= j < k + i && q[j].turn == q[k + i].turn && call in q[j].calls;
        assert j >= k by {
          if j < k { TurnsJoin(q, j, k, k + i); }
        }
        assert kept[j - k] == q[j];
      }
    }
  }
}
