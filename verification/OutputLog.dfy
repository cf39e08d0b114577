/**
 The bounded output log of one managed process.

 A log keeps the newest part of the merged stdout/stderr byte stream as a list of tagged records.
 It forgets from the front, first to respect a record limit and then to respect a byte limit.
 `Log` is the value the class `OutputLog` holds; `Tracks` relates it to the full stream, which the
 program never stores.
 */
module OutputLogs {
  import opened Prelude

  newtype byte = b: int | 0 <= b < 256

  datatype Stream = Stdout | Stderr

  /** One byte of the merged stream together with the stream it came from. */
  datatype Tagged = Tagged(stream: Stream, value: byte)

  datatype OutputRecord = OutputRecord(stream: Stream, cursor: nat, bytes: seq<byte>) {
    function EndCursor(): nat { cursor + |bytes| }

    /** The record without its first bytes, so that it starts at `w`. */
    function From(w: nat): OutputRecord
      requires cursor <= w <= EndCursor()
    {
      OutputRecord(stream, w, bytes[w - cursor..])
    }
  }

  datatype Log = Log(
    records: seq<OutputRecord>,
    endCursor: nat,
    lastEventSequence: nat,
    retainedBytes: nat,
    maxBytes: nat,
    maxRecords: nat)
  {
    function StartCursor(): nat {
      if records == [] then endCursor else records[0].cursor
    }
  }

  function EmptyLog(maxBytes: nat, maxRecords: nat): Log {
    Log([], 0, 0, 0, maxBytes, maxRecords)
  }

  // ---------------------------------------------------------------------------------------------
  // Record lists

  /** Records are nonempty and each starts where the previous one ends; the last ends at `end`. */
  predicate Contiguous(rs: seq<OutputRecord>, end: nat) {
    && (forall i | 0 <= i < |rs| :: |rs[i].bytes| > 0)
    && (forall i | 0 <= i < |rs| - 1 :: rs[i].EndCursor() == rs[i + 1].cursor)
    && (|rs| > 0 ==> rs[|rs| - 1].EndCursor() == end)
  }

  function TotalBytes(rs: seq<OutputRecord>): nat {
    if rs == [] then 0 else |rs[0].bytes| + TotalBytes(rs[1..])
  }

  predicate WellFormed(log: Log) {
    && Contiguous(log.records, log.endCursor)
    && log.retainedBytes == TotalBytes(log.records)
    && log.endCursor <= U64_MAX
    && log.lastEventSequence <= U64_MAX
  }

  predicate WithinLimits(log: Log) {
    |log.records| <= log.maxRecords && log.retainedBytes <= log.maxBytes
  }

  /** The part of the records at or after position `w`, splitting the record that straddles it. */
  function Suffix(rs: seq<OutputRecord>, w: nat): seq<OutputRecord> {
    if rs == [] || w <= rs[0].cursor then rs
    else if rs[0].EndCursor() <= w then Suffix(rs[1..], w)
    else [rs[0].From(w)] + rs[1..]
  }

  lemma {:induction false} TotalIsSpan(rs: seq<OutputRecord>, end: nat)
    requires Contiguous(rs, end) && rs != []
    ensures TotalBytes(rs) == end - rs[0].cursor
  {
    if |rs| > 1 {
      TotalIsSpan(rs[1..], end);
    } else {
      assert rs[1..] == [];
    }
  }

  lemma {:induction false} RecordsOrdered(rs: seq<OutputRecord>, end: nat, i: nat, j: nat)
    requires Contiguous(rs, end) && i < j < |rs|
    ensures rs[i].EndCursor() <= rs[j].cursor
    decreases j
  {
    if i + 1 < j {
      RecordsOrdered(rs, end, i, j - 1);
    }
  }

  /** Cutting a contiguous list leaves a contiguous list that starts exactly at the cut. */
  lemma {:induction false} SuffixContiguous(rs: seq<OutputRecord>, end: nat, w: nat)
    requires Contiguous(rs, end) && w <= end
    ensures Contiguous(Suffix(rs, w), end)
    ensures rs != [] && rs[0].cursor <= w < end ==> Suffix(rs, w) != [] && Suffix(rs, w)[0].cursor == w
    ensures w == end ==> Suffix(rs, w) == []
  {
    if rs == [] || w <= rs[0].cursor {
      if rs != [] {
        TotalIsSpan(rs, end);
      }
    } else if rs[0].EndCursor() <= w {
      assert rs[1..] != [] ==> rs[1..][0].cursor == rs[0].EndCursor();
      SuffixContiguous(rs[1..], end, w);
    } else {
      FirstCut(rs, end, w);
    }
  }

  lemma FirstCut(rs: seq<OutputRecord>, end: nat, w: nat)
    requires Contiguous(rs, end) && rs != [] && rs[0].cursor < w < rs[0].EndCursor()
    ensures Contiguous([rs[0].From(w)] + rs[1..], end) && w < end
  {
    var s := [rs[0].From(w)] + rs[1..];
    assert forall i | 0 < i < |s| :: s[i] == rs[i];
    if |rs| > 1 {
      RecordsOrdered(rs, end, 0, |rs| - 1);
    }
  }

  // ---------------------------------------------------------------------------------------------
  // Trimming to the limits

  /**
   Where the log has to start so that both limits hold: nothing earlier than the newest
   `maxRecords` records and nothing earlier than the newest `maxBytes` bytes.
   */
  function TrimmedStart(log: Log): nat
    requires WellFormed(log)
  {
    var n := |log.records|;
    var byRecords :=
      if n <= log.maxRecords then log.StartCursor()
      else if log.maxRecords == 0 then log.endCursor
      else log.records[n - log.maxRecords].cursor;
    Max(byRecords, log.endCursor - log.maxBytes)
  }

  function Trimmed(log: Log): Log
    requires WellFormed(log)
  {
    var w := TrimmedStart(log);
    var rs := Suffix(log.records, w);
    log.(records := rs, retainedBytes := TotalBytes(rs))
  }

  function Pushed(log: Log, stream: Stream, bytes: seq<byte>): Log {
    var rs := log.records;
    var coalesce := rs != [] && rs[|rs| - 1].stream == stream && rs[|rs| - 1].EndCursor() == log.endCursor;
    var rs' :=
      if coalesce then
        rs[|rs| - 1 := rs[|rs| - 1].(bytes := rs[|rs| - 1].bytes + bytes)]
      else
        rs + [OutputRecord(stream, log.endCursor, bytes)];
    log.(records := rs', endCursor := log.endCursor + |bytes|, retainedBytes := log.retainedBytes + |bytes|)
  }

  function Appended(log: Log, stream: Stream, bytes: seq<byte>): Log
    requires WellFormed(log) && log.endCursor + |bytes| <= U64_MAX
  {
    if bytes == [] then log
    else
      PushedWellFormed(log, stream, bytes);
      Trimmed(Pushed(log, stream, bytes))
  }

  lemma {:induction false} TotalConcat(a: seq<OutputRecord>, b: seq<OutputRecord>)
    ensures TotalBytes(a + b) == TotalBytes(a) + TotalBytes(b)
  {
    if a == [] {
      assert a + b == b;
    } else {
      assert (a + b)[1..] == a[1..] + b;
      TotalConcat(a[1..], b);
    }
  }

  lemma PushedWellFormed(log: Log, stream: Stream, bytes: seq<byte>)
    requires WellFormed(log) && bytes != [] && log.endCursor + |bytes| <= U64_MAX
    ensures WellFormed(Pushed(log, stream, bytes))
    ensures Pushed(log, stream, bytes).StartCursor() == log.StartCursor()
  {
    var rs := log.records;
    var p := Pushed(log, stream, bytes).records;
    if rs != [] && rs[|rs| - 1].stream == stream && rs[|rs| - 1].EndCursor() == log.endCursor {
      var last := rs[|rs| - 1];
      assert rs == rs[..|rs| - 1] + [last];
      assert p == rs[..|rs| - 1] + [last.(bytes := last.bytes + bytes)];
      TotalConcat(rs[..|rs| - 1], [last]);
      TotalConcat(rs[..|rs| - 1], [last.(bytes := last.bytes + bytes)]);
    } else {
      TotalConcat(rs, [OutputRecord(stream, log.endCursor, bytes)]);
    }
  }

  lemma TrimmedStartInRange(log: Log)
    requires WellFormed(log)
    ensures log.StartCursor() <= TrimmedStart(log) <= log.endCursor
  {
    var rs := log.records;
    if rs != [] {
      TotalIsSpan(rs, log.endCursor);
      if 0 < log.maxRecords < |rs| {
        RecordsOrdered(rs, log.endCursor, 0, |rs| - log.maxRecords);
        SuffixCount(rs, log.endCursor, |rs| - log.maxRecords, rs[|rs| - log.maxRecords].cursor);
      }
    }
  }

  /** Cutting inside record `i` (or at its start) keeps exactly the records from `i` on. */
  lemma {:induction false} SuffixCount(rs: seq<OutputRecord>, end: nat, i: nat, w: nat)
    requires Contiguous(rs, end) && i < |rs| && rs[i].cursor <= w < rs[i].EndCursor()
    ensures |Suffix(rs, w)| == |rs| - i && w <= end
    decreases i
  {
    if i == 0 {
      if |rs| > 1 {
        RecordsOrdered(rs, end, 0, |rs| - 1);
      }
    } else {
      RecordsOrdered(rs, end, 0, i);
      SuffixCount(rs[1..], end, i - 1, w);
    }
  }

  lemma {:induction false} RecordAt(rs: seq<OutputRecord>, end: nat, w: nat) returns (i: nat)
    requires Contiguous(rs, end) && rs != [] && rs[0].cursor <= w < end
    ensures i < |rs| && rs[i].cursor <= w < rs[i].EndCursor()
  {
    if w < rs[0].EndCursor() {
      i := 0;
    } else {
      assert |rs| > 1;
      var j := RecordAt(rs[1..], end, w);
      i := j + 1;
    }
  }

  /** A start position is admissible when what remains from it respects both limits. */
  ghost predicate Admissible(log: Log, w: nat) {
    log.endCursor - w <= log.maxBytes && |Suffix(log.records, w)| <= log.maxRecords
  }

  /**
   Trimming keeps a well-formed log, respects both limits, and forgets no more than it must:
   every earlier start position would break a limit.
   */
  lemma TrimmedIsTightest(log: Log)
    requires WellFormed(log)
    ensures var t := Trimmed(log);
      && WellFormed(t) && WithinLimits(t)
      && t.StartCursor() == TrimmedStart(log)
      && t.retainedBytes == t.endCursor - t.StartCursor()
      && Admissible(log, t.StartCursor())
      && (forall w: nat | log.StartCursor() <= w < t.StartCursor() :: !Admissible(log, w))
  {
    var rs, end, n := log.records, log.endCursor, |log.records|;
    var w := TrimmedStart(log);
    var t := Trimmed(log);
    TrimmedStartInRange(log);
    SuffixContiguous(rs, end, w);
    if t.records != [] {
      TotalIsSpan(t.records, end);
      var i := RecordAt(rs, end, w);
      SuffixCount(rs, end, i, w);
      if 0 < log.maxRecords < n && i < n - log.maxRecords {
        RecordsOrdered(rs, end, i, n - log.maxRecords);
      }
    }
    forall v: nat | log.StartCursor() <= v < w
      ensures !Admissible(log, v)
    {
      if end - v <= log.maxBytes {
        var i := RecordAt(rs, end, v);
        SuffixCount(rs, end, i, v);
        if 0 < log.maxRecords < n && n - log.maxRecords < i {
          RecordsOrdered(rs, end, n - log.maxRecords, i);
        }
      }
    }
  }

  // ---------------------------------------------------------------------------------------------
  // The full history

  ghost function Tag(stream: Stream, bytes: seq<byte>): (t: seq<Tagged>)
    ensures |t| == |bytes|
  {
    seq(|bytes|, i requires 0 <= i < |bytes| => Tagged(stream, bytes[i]))
  }

  /** The record holds exactly the history's bytes at the record's own positions. */
  ghost predicate CarriesOne(r: OutputRecord, history: seq<Tagged>) {
    r.EndCursor() <= |history| && history[r.cursor..r.EndCursor()] == Tag(r.stream, r.bytes)
  }

  ghost predicate Carries(rs: seq<OutputRecord>, history: seq<Tagged>) {
    forall i | 0 <= i < |rs| :: CarriesOne(rs[i], history)
  }

  lemma ByteAt(r: OutputRecord, history: seq<Tagged>, k: nat)
    requires CarriesOne(r, history) && k < |r.bytes|
    ensures r.cursor + k < |history| && history[r.cursor + k] == Tagged(r.stream, r.bytes[k])
  {
    assert history[r.cursor..r.EndCursor()][k] == history[r.cursor + k];
  }

  ghost predicate Alternating(rs: seq<OutputRecord>) {
    forall i | 0 <= i < |rs| - 1 :: rs[i].stream != rs[i + 1].stream
  }

  /** How many maximal same-stream runs a stretch of output has. */
  ghost function RunCount(h: seq<Tagged>): nat {
    if h == [] then 0
    else if |h| == 1 then 1
    else (if h[0].stream == h[1].stream then 0 else 1) + RunCount(h[1..])
  }

  ghost predicate Fits(history: seq<Tagged>, w: nat, maxBytes: nat, maxRecords: nat)
    requires w <= |history|
  {
    |history| - w <= maxBytes && RunCount(history[w..]) <= maxRecords
  }

  /**
   The log holds exactly the longest suffix of the history that fits both limits, one record per
   same-stream run. Nothing else about how the bytes arrived survives in it.
   */
  ghost predicate Tracks(log: Log, history: seq<Tagged>) {
    && WellFormed(log) && WithinLimits(log)
    && log.endCursor == |history|
    && Carries(log.records, history)
    && Alternating(log.records)
    && log.StartCursor() <= |history|
    && Fits(history, log.StartCursor(), log.maxBytes, log.maxRecords)
    && (forall w: nat | w < log.StartCursor() :: !Fits(history, w, log.maxBytes, log.maxRecords))
  }

  lemma {:induction false} RunCountDrop(h: seq<Tagged>, k: nat)
    requires k <= |h|
    ensures RunCount(h[k..]) <= RunCount(h)
  {
    if k > 0 {
      RunCountDrop(h[1..], k - 1);
      assert h[1..][k - 1..] == h[k..];
    } else {
      assert h[0..] == h;
    }
  }

  lemma {:induction false} RunCountExtend(h: seq<Tagged>, g: seq<Tagged>)
    ensures RunCount(h) <= RunCount(h + g)
  {
    if |h| <= 1 {
      assert h == [] ==> h + g == g;
      if |h| == 1 {
        if g != [] {
          assert (h + g)[1..] == g;
          RunCountPositive(g);
        } else {
          assert h + g == h;
        }
      }
    } else {
      assert (h + g)[1..] == h[1..] + g;
      RunCountExtend(h[1..], g);
    }
  }

  lemma {:induction false} RunCountPositive(g: seq<Tagged>)
    requires g != []
    ensures RunCount(g) >= 1
  {
    if |g| > 1 {
      RunCountPositive(g[1..]);
    }
  }

  /** A leading run of `k` bytes contributes one to the count. */
  lemma {:induction false} LeadingRun(h: seq<Tagged>, k: nat)
    requires 0 < k <= |h|
    requires forall j | 0 <= j < k :: h[j].stream == h[0].stream
    requires k < |h| ==> h[k].stream != h[0].stream
    ensures RunCount(h) == 1 + RunCount(h[k..])
  {
    if k > 1 {
      assert h[1..][k - 1..] == h[k..];
      LeadingRun(h[1..], k - 1);
    }
  }

  /** Seen from inside record `i`, the rest of the history has one run per remaining record. */
  lemma {:induction false} RunsFromRecord(rs: seq<OutputRecord>, history: seq<Tagged>, i: nat, w: nat)
    requires Contiguous(rs, |history|) && Carries(rs, history) && Alternating(rs)
    requires i < |rs| && rs[i].cursor <= w < rs[i].EndCursor()
    ensures w < |history| && RunCount(history[w..]) == |rs| - i
    decreases |rs| - i
  {
    SuffixCount(rs, |history|, i, w);
    var k := rs[i].EndCursor() - w;
    var h := history[w..];
    forall j | 0 <= j < k
      ensures h[j].stream == rs[i].stream
    {
      ByteAt(rs[i], history, w - rs[i].cursor + j);
    }
    if i + 1 < |rs| {
      RunsFromRecord(rs, history, i + 1, rs[i + 1].cursor);
      ByteAt(rs[i + 1], history, 0);
      assert h[k] == history[rs[i + 1].cursor];
      LeadingRun(h, k);
      assert h[k..] == history[rs[i + 1].cursor..];
    } else {
      LeadingRun(h, k);
      assert h[k..] == [];
    }
  }

  lemma EmptyTracks(maxBytes: nat, maxRecords: nat)
    ensures Tracks(EmptyLog(maxBytes, maxRecords), [])
  {
  }

  lemma PushCarries(log: Log, history: seq<Tagged>, stream: Stream, bytes: seq<byte>)
    requires WellFormed(log) && log.endCursor == |history| && bytes != []
    requires Carries(log.records, history) && Alternating(log.records)
    ensures Carries(Pushed(log, stream, bytes).records, history + Tag(stream, bytes))
    ensures Alternating(Pushed(log, stream, bytes).records)
  {
    var rs, rs' := log.records, Pushed(log, stream, bytes).records;
    var added := Tag(stream, bytes);
    var h' := history + added;
    forall i | 0 <= i < |rs'|
      ensures CarriesOne(rs'[i], h')
    {
      var r := rs'[i];
      if i < |rs| {
        var start, split := rs[i].cursor, rs[i].EndCursor();
        assert CarriesOne(rs[i], history);
        assert h'[start..split] == history[start..split];
        if r != rs[i] {
          assert h'[start..r.EndCursor()] == h'[start..split] + added;
        }
      } else {
        assert h'[r.cursor..r.EndCursor()] == added;
      }
    }
  }

  lemma {:induction false} SuffixCarries(rs: seq<OutputRecord>, history: seq<Tagged>, w: nat)
    requires Carries(rs, history) && Alternating(rs)
    ensures Carries(Suffix(rs, w), history) && Alternating(Suffix(rs, w))
  {
    if rs == [] || w <= rs[0].cursor {
    } else if rs[0].EndCursor() <= w {
      assert forall i | 0 <= i < |rs[1..]| :: rs[1..][i] == rs[i + 1];
      SuffixCarries(rs[1..], history, w);
    } else {
      var s := [rs[0].From(w)] + rs[1..];
      assert forall i | 0 < i < |s| :: s[i] == rs[i];
      var r := rs[0];
      assert CarriesOne(r, history);
      assert Tag(r.stream, r.bytes)[w - r.cursor..] == Tag(r.stream, r.bytes[w - r.cursor..]);
      assert history[r.cursor..r.EndCursor()][w - r.cursor..] == history[w..r.EndCursor()];
    }
  }

  /** In a log of alternating records, a start is admissible exactly when the history fits from there. */
  lemma AdmissibleIsFits(log: Log, history: seq<Tagged>, w: nat)
    requires WellFormed(log) && log.endCursor == |history|
    requires Carries(log.records, history) && Alternating(log.records)
    requires log.StartCursor() <= w <= |history|
    ensures Admissible(log, w) <==> Fits(history, w, log.maxBytes, log.maxRecords)
  {
    SuffixContiguous(log.records, log.endCursor, w);
    if w < |history| {
      var i := RecordAt(log.records, log.endCursor, w);
      SuffixCount(log.records, log.endCursor, i, w);
      RunsFromRecord(log.records, history, i, w);
    }
  }

  /** Appending keeps the log equal to the longest fitting suffix of the grown history. */
  lemma AppendTracks(log: Log, history: seq<Tagged>, stream: Stream, bytes: seq<byte>)
    requires Tracks(log, history) && log.endCursor + |bytes| <= U64_MAX
    ensures Tracks(Appended(log, stream, bytes), history + Tag(stream, bytes))
  {
    var h' := history + Tag(stream, bytes);
    if bytes == [] {
      assert h' == history;
      return;
    }
    var p := Pushed(log, stream, bytes);
    PushedWellFormed(log, stream, bytes);
    var t := Trimmed(p);
    PushCarries(log, history, stream, bytes);
    TrimmedIsTightest(p);
    TrimmedStartInRange(p);
    SuffixCarries(p.records, h', TrimmedStart(p));
    AdmissibleIsFits(p, h', t.StartCursor());
    forall w: nat | w < t.StartCursor()
      ensures !Fits(h', w, log.maxBytes, log.maxRecords)
    {
      if w < log.StartCursor() {
        assert h'[w..] == history[w..] + Tag(stream, bytes);
        RunCountExtend(history[w..], Tag(stream, bytes));
        assert !Fits(history, w, log.maxBytes, log.maxRecords);
      } else {
        assert !Admissible(p, w);
        AdmissibleIsFits(p, h', w);
      }
    }
  }

  /** Output only moves the cursors forward; the retained part never reaches back again. */
  lemma AppendOnlyAdvances(log: Log, stream: Stream, bytes: seq<byte>)
    requires WellFormed(log) && log.endCursor + |bytes| <= U64_MAX
    ensures var after := Appended(log, stream, bytes);
      && after.endCursor == log.endCursor + |bytes|
      && log.StartCursor() <= after.StartCursor() <= after.endCursor
  {
    StartsBeforeEnd(log.records, log.endCursor);
    if bytes != [] {
      var p := Pushed(log, stream, bytes);
      PushedWellFormed(log, stream, bytes);
      TrimmedIsTightest(p);
      TrimmedStartInRange(p);
      StartsBeforeEnd(Trimmed(p).records, p.endCursor);
    }
  }

  /** One write of a process to one of its output streams. */
  datatype Write = Write(stream: Stream, bytes: seq<byte>)

  ghost function Emitted(writes: seq<Write>): seq<Tagged> {
    if writes == [] then []
    else Emitted(writes[..|writes| - 1]) + Tag(writes[|writes| - 1].stream, writes[|writes| - 1].bytes)
  }

  ghost function LogAfter(writes: seq<Write>, maxBytes: nat, maxRecords: nat): (log: Log)
    requires |Emitted(writes)| <= U64_MAX
    ensures Tracks(log, Emitted(writes))
    ensures log.maxBytes == maxBytes && log.maxRecords == maxRecords
  {
    if writes == [] then
      EmptyTracks(maxBytes, maxRecords);
      EmptyLog(maxBytes, maxRecords)
    else
      var w := writes[|writes| - 1];
      var before := LogAfter(writes[..|writes| - 1], maxBytes, maxRecords);
      AppendTracks(before, Emitted(writes[..|writes| - 1]), w.stream, w.bytes);
      Appended(before, w.stream, w.bytes)
  }

  /** The history determines the log: two logs tracking the same stream hold the same records. */
  lemma TracksIsFunctional(a: Log, b: Log, history: seq<Tagged>)
    requires Tracks(a, history) && Tracks(b, history)
    requires a.maxBytes == b.maxBytes && a.maxRecords == b.maxRecords
    ensures a.records == b.records && a.StartCursor() == b.StartCursor() && a.retainedBytes == b.retainedBytes
  {
    assert !(a.StartCursor() < b.StartCursor());
    assert !(b.StartCursor() < a.StartCursor());
    SameRecords(a.records, b.records, history);
  }

  /** How the output was cut into writes leaves no trace in the log. */
  lemma ChunkingIsIrrelevant(a: seq<Write>, b: seq<Write>, maxBytes: nat, maxRecords: nat)
    requires Emitted(a) == Emitted(b) && |Emitted(a)| <= U64_MAX
    ensures LogAfter(a, maxBytes, maxRecords).records == LogAfter(b, maxBytes, maxRecords).records
  {
    TracksIsFunctional(LogAfter(a, maxBytes, maxRecords), LogAfter(b, maxBytes, maxRecords), Emitted(a));
  }

  lemma {:induction false} SameRecords(a: seq<OutputRecord>, b: seq<OutputRecord>, history: seq<Tagged>)
    requires Contiguous(a, |history|) && Carries(a, history) && Alternating(a)
    requires Contiguous(b, |history|) && Carries(b, history) && Alternating(b)
    requires a != [] ==> if b == [] then a[0].cursor == |history| else a[0].cursor == b[0].cursor
    requires b != [] && a == [] ==> b[0].cursor == |history|
    ensures a == b
  {
    StartsBeforeEnd(a, |history|);
    StartsBeforeEnd(b, |history|);
    if a != [] && b != [] {
      FirstNoLonger(a, b, history);
      FirstNoLonger(b, a, history);
      SameFirst(a[0], b[0], history);
      Rest(a, history);
      Rest(b, history);
      SameRecords(a[1..], b[1..], history);
      assert a == [a[0]] + a[1..] && b == [b[0]] + b[1..];
    }
  }

  lemma StartsBeforeEnd(rs: seq<OutputRecord>, end: nat)
    requires Contiguous(rs, end)
    ensures rs != [] ==> rs[0].cursor < end
  {
    if |rs| > 1 {
      RecordsOrdered(rs, end, 0, |rs| - 1);
    }
  }

  lemma Rest(rs: seq<OutputRecord>, history: seq<Tagged>)
    requires Contiguous(rs, |history|) && Carries(rs, history) && Alternating(rs) && rs != []
    ensures Contiguous(rs[1..], |history|) && Carries(rs[1..], history) && Alternating(rs[1..])
    ensures rs[1..] != [] ==> rs[1..][0].cursor == rs[0].EndCursor()
    ensures rs[1..] == [] ==> rs[0].EndCursor() == |history|
  {
    assert forall i | 0 <= i < |rs[1..]| :: rs[1..][i] == rs[i + 1];
  }

  lemma SameFirst(a: OutputRecord, b: OutputRecord, history: seq<Tagged>)
    requires CarriesOne(a, history) && CarriesOne(b, history)
    requires a.cursor == b.cursor && |a.bytes| == |b.bytes| > 0
    ensures a == b
  {
    forall k | 0 <= k < |a.bytes|
      ensures a.bytes[k] == b.bytes[k] && a.stream == b.stream
    {
      ByteAt(a, history, k);
      ByteAt(b, history, k);
    }
    assert a.bytes == b.bytes;
    ByteAt(a, history, 0);
    ByteAt(b, history, 0);
  }

  /** Where two record lists track one history from the same start, neither first record is longer. */
  lemma FirstNoLonger(a: seq<OutputRecord>, b: seq<OutputRecord>, history: seq<Tagged>)
    requires Contiguous(a, |history|) && Carries(a, history) && Alternating(a)
    requires Contiguous(b, |history|) && Carries(b, history) && Alternating(b)
    requires a != [] && b != [] && a[0].cursor == b[0].cursor
    ensures |a[0].bytes| <= |b[0].bytes|
  {
    if |b[0].bytes| < |a[0].bytes| && |b| > 1 {
      ByteAt(a[0], history, |b[0].bytes|);
      ByteAt(a[0], history, 0);
      ByteAt(b[0], history, 0);
      ByteAt(b[1], history, 0);
    }
  }
}
