/** Runs of a machine: a sequence of actions, each of which takes the state to the next one. */
module StepMachines {

  function Steps<W, A>(next: (W, A) -> W, w: W, actions: seq<A>): W
    decreases |actions|
  {
    if actions == [] then w else Steps(next, next(w, actions[0]), actions[1..])
  }

  lemma {:induction false} StepsJoin<W, A>(next: (W, A) -> W, w: W, first: seq<A>, second: seq<A>)
    ensures Steps(next, w, first + second) == Steps(next, Steps(next, w, first), second)
    decreases |first|
  {
    if first == [] {
      assert first + second == second;
    } else {
      assert (first + second)[1..] == first[1..] + second;
      StepsJoin(next, next(w, first[0]), first[1..], second);
    }
  }

  lemma StepsOne<W, A>(next: (W, A) -> W, w: W, a: A)
    ensures Steps(next, w, [a]) == next(w, a)
  {
    assert Steps(next, next(w, a), []) == next(w, a);
  }

  /** One more action at the end. */
  lemma StepsExtend<W, A>(next: (W, A) -> W, w: W, first: seq<A>, last: A)
    ensures Steps(next, w, first + [last]) == next(Steps(next, w, first), last)
  {
    StepsJoin(next, w, first, [last]);
    StepsOne(next, Steps(next, w, first), last);
  }

  lemma StepsTwo<W, A>(next: (W, A) -> W, w: W, a: A, b: A)
    ensures Steps(next, w, [a, b]) == next(next(w, a), b)
  {
    StepsOne(next, w, a);
    assert [a] + [b] == [a, b];
    StepsExtend(next, w, [a], b);
  }

  lemma StepsThree<W, A>(next: (W, A) -> W, w: W, a: A, b: A, c: A)
    ensures Steps(next, w, [a, b, c]) == next(next(next(w, a), b), c)
  {
    StepsTwo(next, w, a, b);
    assert [a, b] + [c] == [a, b, c];
    StepsExtend(next, w, [a, b], c);
  }

  lemma StepsFour<W, A>(next: (W, A) -> W, w: W, a: A, b: A, c: A, d: A)
    ensures Steps(next, w, [a, b, c, d]) == next(next(next(next(w, a), b), c), d)
  {
    StepsThree(next, w, a, b, c);
    assert [a, b, c] + [d] == [a, b, c, d];
    StepsExtend(next, w, [a, b, c], d);
  }
}
