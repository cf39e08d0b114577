/** Closing every descriptor a guardian inherited, except the three it needs. */
module Descriptors {

  predicate Ascending(q: seq<int>) { forall i, j | 0 <= i < j < |q| :: q[i] <= q[j] }

  function Inserted(q: seq<int>, x: int): (r: seq<int>)
    requires Ascending(q)
    ensures Ascending(r)
    ensures forall d :: d in r <==> d == x || d in q
  {
    if q == [] then [x]
    else if x <= q[0] then [x] + q
    else
      var rest := Inserted(q[1..], x);
      assert forall d :: d in rest <==> d == x || d in q[1..];
      assert q == [q[0]] + q[1..];
      assert forall i | 0 <= i < |rest| ::
        rest[i] in rest && (rest[i] == x || exists j :: 0 <= j < |q[1..]| && q[1..][j] == rest[i]);
      [q[0]] + rest
  }

  function Sorted(q: seq<int>): (r: seq<int>)
    ensures Ascending(r)
    ensures forall d :: d in r <==> d in q
  {
    if q == [] then []
    else
      assert q == [q[0]] + q[1..];
      Inserted(Sorted(q[1..]), q[0])
  }

  /** What has to stay open: standard streams, retained descriptors, and numbers beyond the limit. */
  ghost function Kept(open: set<int>, maximum: int, retained: seq<int>): set<int> {
    set d | d in open && (d < 3 || d >= maximum || d in retained)
  }

  /** The descriptor table of the guardian; `answers` says which of the coming interval calls succeed. */
  class Table {
    var open: set<int>
    var answers: seq<bool>

    constructor (open: set<int>, answers: seq<bool>)
      ensures this.open == open && this.answers == answers
    {
      this.open, this.answers := open, answers;
    }

    method Close(d: int)
      modifies this`open
      ensures open == old(open) - {d}
    {
      open := open - {d};
    }

    /** Closes all of an interval or, where the kernel cannot do that, nothing. */
    method CloseRange(first: int, last: int) returns (ok: bool)
      modifies this
      ensures ok ==> open == set d | d in old(open) && !(first <= d <= last)
      ensures !ok ==> open == old(open)
    {
      ok := answers != [] && answers[0];
      if answers != [] {
        answers := answers[1..];
      }
      if ok {
        open := set d | d in open && !(first <= d <= last);
      }
    }

    /** The interval path; when a call fails, earlier intervals stay closed. */
    method CloseIntervals(maximum: int, retained: seq<int>) returns (ok: bool)
      requires 0 <= maximum
      modifies this
      ensures Kept(old(open), maximum, retained) <= open <= old(open)
      ensures ok ==> open == Kept(old(open), maximum, retained)
    {
      var ordered := Sorted(retained);
      var start := 3;
      var i := 0;
      ok := true;
      while i < |ordered|
        invariant 0 <= i <= |ordered| && 3 <= start
        invariant start == 3 || start <= maximum
        invariant forall j | 0 <= j < i :: ordered[j] < 3 || ordered[j] >= maximum || ordered[j] < start
        invariant Kept(old(open), maximum, retained) <= open <= old(open)
        invariant forall d | d in open :: d < 3 || d >= start || d in retained
      {
        var r := ordered[i];
        if 3 <= r < maximum {
          if start < r {
            ok := CloseRange(start, r - 1);
            if !ok {
              return;
            }
          }
          start := r + 1;
        }
        i := i + 1;
      }
      if start < maximum {
        ok := CloseRange(start, maximum - 1);
      }
    }

    /** Whatever the kernel supports, exactly the inherited descriptors below the limit are closed. */
    method CloseInherited(maximum: int, retained: seq<int>)
      requires 0 <= maximum
      modifies this
      ensures open == Kept(old(open), maximum, retained)
    {
      var done := CloseIntervals(maximum, retained);
      if done {
        return;
      }
      var d := 3;
      while d < maximum
        invariant 3 <= d && (d <= maximum || d == 3)
        invariant Kept(old(open), maximum, retained) <= open <= old(open)
        invariant forall k | k in open && 3 <= k < d :: k in retained
      {
        if d !in retained {
          Close(d);
        }
        d := d + 1;
      }
    }
  }
}
