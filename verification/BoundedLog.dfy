/** The output log as the process supervisor updates it in place. */
module BoundedLog {
  import opened Prelude
  import opened OutputLogs
  import opened LogCodec
  import opened LogPaging

  lemma {:induction false} SuffixOfSuffix(rs: seq<OutputRecord>, w: nat, v: nat)
    requires w <= v
    ensures Suffix(Suffix(rs, w), v) == Suffix(rs, v)
  {
    if rs == [] || w <= rs[0].cursor {
    } else if rs[0].EndCursor() <= w {
      SuffixOfSuffix(rs[1..], w, v);
    } else {
      SuffixOfSplit(rs[0], rs[1..], w, v);
      assert rs == [rs[0]] + rs[1..];
    }
  }

  lemma SuffixOfSplit(r: OutputRecord, rs: seq<OutputRecord>, w: nat, v: nat)
    requires r.cursor < w < r.EndCursor() && w <= v
    ensures Suffix([r.From(w)] + rs, v) == Suffix([r] + rs, v)
  {
    assert ([r.From(w)] + rs)[1..] == rs && ([r] + rs)[1..] == rs;
    if w < v < r.EndCursor() {
      assert r.From(w).From(v) == r.From(v);
    } else if v == w {
      assert Suffix([r.From(w)] + rs, v) == [r.From(w)] + rs;
    }
  }

  /** The log with everything before position `w` forgotten. */
  function Cut(log: Log, w: nat): Log {
    var rs := Suffix(log.records, w);
    log.(records := rs, retainedBytes := TotalBytes(rs))
  }

  /** Trimming `log` gives `target`. */
  ghost predicate LeadsTo(log: Log, target: Log) {
    WellFormed(log) && Trimmed(log) == target
  }

  /** Forgetting a front part that trimming forgets anyway does not change what trimming leaves. */
  lemma ForgettingEarly(log: Log, cut: Log, target: Log, w: nat)
    requires LeadsTo(log, target) && log.StartCursor() <= w <= TrimmedStart(log) && cut == Cut(log, w)
    ensures LeadsTo(cut, target)
  {
    var rs, end := log.records, log.endCursor;
    TrimmedStartInRange(log);
    SuffixContiguous(rs, end, w);
    TrimmedIsTightest(log);
    TrimmedIsTightest(cut);
    var a, b := TrimmedStart(log), TrimmedStart(cut);
    if a < b {
      SuffixOfSuffix(rs, w, a);
      assert Admissible(cut, a);
    } else if b < a {
      SuffixOfSuffix(rs, w, b);
      assert Admissible(log, b);
    }
    SuffixOfSuffix(rs, w, a);
  }

  function WithoutFirst(log: Log): Log
    requires WellFormed(log) && log.records != []
  {
    log.(records := log.records[1..], retainedBytes := log.retainedBytes - |log.records[0].bytes|)
  }

  function WithoutBytes(log: Log, excess: nat): Log
    requires WellFormed(log) && log.records != [] && excess < |log.records[0].bytes|
  {
    var front := log.records[0];
    log.(records := [OutputRecord(front.stream, front.cursor + excess, front.bytes[excess..])] + log.records[1..],
         retainedBytes := log.retainedBytes - excess)
  }

  lemma CutFirst(log: Log)
    requires WellFormed(log) && log.records != []
    ensures Cut(log, log.records[0].EndCursor()) == WithoutFirst(log)
  {
    var rs, end := log.records, log.records[0].EndCursor();
    assert |rs[0].bytes| > 0;
    assert Suffix(rs, end) == Suffix(rs[1..], end);
    if |rs| > 1 {
      assert rs[1..][0].cursor == end;
    }
    assert Suffix(rs[1..], end) == rs[1..];
  }

  lemma CutBytes(log: Log, excess: nat)
    requires WellFormed(log) && log.records != [] && 0 < excess < |log.records[0].bytes|
    ensures Cut(log, log.records[0].cursor + excess) == WithoutBytes(log, excess)
  {
    assert WithoutBytes(log, excess).records[1..] == log.records[1..];
  }

  lemma StepOverRecordLimit(log: Log, target: Log)
    requires LeadsTo(log, target) && |log.records| > log.maxRecords
    ensures LeadsTo(WithoutFirst(log), target)
  {
    var rs := log.records;
    CutFirst(log);
    TotalIsSpan(rs, log.endCursor);
    if log.maxRecords > 0 {
      RecordsOrdered(rs, log.endCursor, 0, |rs| - log.maxRecords);
    } else if |rs| > 1 {
      RecordsOrdered(rs, log.endCursor, 0, |rs| - 1);
    }
    ForgettingEarly(log, WithoutFirst(log), target, rs[0].EndCursor());
  }

  lemma StepOverWholeRecord(log: Log, target: Log)
    requires LeadsTo(log, target) && log.records != []
    requires |log.records[0].bytes| <= log.retainedBytes - log.maxBytes
    ensures LeadsTo(WithoutFirst(log), target)
  {
    TotalIsSpan(log.records, log.endCursor);
    CutFirst(log);
    ForgettingEarly(log, WithoutFirst(log), target, log.records[0].EndCursor());
  }

  lemma ExcessEnds(log: Log)
    requires WellFormed(log) && log.records != []
    requires 0 < log.retainedBytes - log.maxBytes < |log.records[0].bytes|
    ensures log.StartCursor() <= log.records[0].cursor + (log.retainedBytes - log.maxBytes) <= TrimmedStart(log)
  {
    TotalIsSpan(log.records, log.endCursor);
  }

  lemma StepOverBytes(log: Log, target: Log)
    requires LeadsTo(log, target) && log.records != []
    requires 0 < log.retainedBytes - log.maxBytes < |log.records[0].bytes|
    ensures LeadsTo(WithoutBytes(log, log.retainedBytes - log.maxBytes), target)
  {
    var excess := log.retainedBytes - log.maxBytes;
    ExcessEnds(log);
    CutBytes(log, excess);
    ForgettingEarly(log, WithoutBytes(log, excess), target, log.records[0].cursor + excess);
  }

  lemma EncodedOneMore(records: seq<OutputRecord>, i: nat)
    requires i < |records|
    ensures EncodeRecords(records[..i + 1]) == EncodeRecords(records[..i]) + EncodeRecord(records[i])
  {
    assert records[..i + 1] == records[..i] + [records[i]];
    EncodeRecordsConcat(records[..i], [records[i]]);
    assert EncodeRecords([records[i]]) == EncodeRecord(records[i]) + EncodeRecords([]);
  }

  class OutputLog {
    var records: seq<OutputRecord>
    var endCursor: nat
    var lastEventSequence: nat
    var retainedBytes: nat
    const maxBytes: nat
    const maxRecords: nat

    function View(): Log
      reads this
    {
      Log(records, endCursor, lastEventSequence, retainedBytes, maxBytes, maxRecords)
    }

    constructor Empty(maxBytes: nat, maxRecords: nat)
      ensures View() == EmptyLog(maxBytes, maxRecords)
    {
      this.records, this.endCursor, this.lastEventSequence, this.retainedBytes := [], 0, 0, 0;
      this.maxBytes, this.maxRecords := maxBytes, maxRecords;
    }

    constructor Holding(log: Log)
      ensures View() == log
    {
      this.records, this.endCursor := log.records, log.endCursor;
      this.lastEventSequence, this.retainedBytes := log.lastEventSequence, log.retainedBytes;
      this.maxBytes, this.maxRecords := log.maxBytes, log.maxRecords;
    }

    /** Drops whole records while there are too many, then bytes while there are too many. */
    method EnforceLimits()
      requires WellFormed(View())
      modifies this
      ensures View() == Trimmed(old(View()))
    {
      ghost var target := Trimmed(View());
      while |records| > maxRecords
        invariant LeadsTo(View(), target)
        decreases |records|
      {
        ghost var log := View();
        StepOverRecordLimit(log, target);
        retainedBytes := retainedBytes - |records[0].bytes|;
        records := records[1..];
        assert View() == WithoutFirst(log);
      }
      while retainedBytes > maxBytes
        invariant LeadsTo(View(), target) && |records| <= maxRecords
        decreases retainedBytes
      {
        ghost var log := View();
        var excess := retainedBytes - maxBytes;
        var front := records[0];
        if |front.bytes| <= excess {
          StepOverWholeRecord(log, target);
          records := records[1..];
          retainedBytes := retainedBytes - |front.bytes|;
          assert View() == WithoutFirst(log);
        } else {
          StepOverBytes(log, target);
          records := [OutputRecord(front.stream, front.cursor + excess, front.bytes[excess..])] + records[1..];
          retainedBytes := retainedBytes - excess;
          assert View() == WithoutBytes(log, excess);
        }
      }
      TrimmingWithinLimitsIsIdentity(View());
    }

    /** Extends the newest record when it has the same stream, otherwise adds a record. */
    method Append(stream: Stream, bytes: seq<byte>)
      requires WellFormed(View()) && endCursor + |bytes| <= U64_MAX
      modifies this
      ensures View() == Appended(old(View()), stream, bytes)
    {
      if bytes == [] {
        return;
      }
      PushedWellFormed(View(), stream, bytes);
      var cursor := endCursor;
      endCursor := endCursor + |bytes|;
      if records != [] {
        var last := records[|records| - 1];
        if last.stream == stream && last.EndCursor() == cursor {
          records := records[|records| - 1 := last.(bytes := last.bytes + bytes)];
          retainedBytes := retainedBytes + |bytes|;
          EnforceLimits();
          return;
        }
      }
      records := records + [OutputRecord(stream, cursor, bytes)];
      retainedBytes := retainedBytes + |bytes|;
      EnforceLimits();
    }

    /** Fails exactly when a count, a length or the total does not fit its field. */
    method Encode() returns (r: Option<seq<byte>>)
      requires WellFormed(View())
      ensures r == if Encodable(View()) then Some(Encoded(View())) else None
    {
      if HEADER_BYTES + retainedBytes + |records| * RECORD_HEADER_BYTES > U64_MAX {
        return None;
      }
      if |records| > U32_MAX {
        return None;
      }
      r := AppendRecords(EncodeHeader(View().StartCursor(), endCursor, lastEventSequence, |records|), records);
    }

    /** Reads a log from arbitrary bytes, checking every field, and trims it to the given limits. */
    static method Decode(bytes: seq<byte>, maxBytes: nat, maxRecords: nat) returns (r: Result<OutputLog, DecodeError>)
      requires |bytes| <= U64_MAX
      ensures match Decoded(bytes, maxBytes, maxRecords)
        case Err(e) => r == Err(e)
        case Ok(log) => r.Ok? && fresh(r.value) && r.value.View() == log
    {
      if |bytes| < HEADER_BYTES || bytes[..|MAGIC|] != MAGIC {
        return Err(InvalidHeader);
      }
      var offset: nat := |MAGIC|;
      var storedStart, end, sequence, count;
      storedStart, offset := ReadNumber(bytes, offset, 8);
      end, offset := ReadNumber(bytes, offset, 8);
      sequence, offset := ReadNumber(bytes, offset, 8);
      count, offset := ReadNumber(bytes, offset, 4);
      var start := storedStart.value;
      var parsed := ParseAll(bytes, offset, count.value, start);
      if parsed.Err? {
        return Err(parsed.error);
      }
      var (records, retained, rest, expected) := parsed.value;
      offset := rest;
      AllParsed(bytes, records, offset, expected, maxBytes, maxRecords);
      if offset != |bytes| || expected != end.value {
        return Err(Inconsistent);
      }
      var raw := Log(records, end.value, sequence.value, retained, maxBytes, maxRecords);
      ParseThenEncode(bytes, maxBytes, maxRecords);
      var log := new OutputLog.Holding(raw);
      log.EnforceLimits();
      r := Ok(log);
    }

    /** One page of at most `limit` bytes from `cursor`, or from the oldest retained byte. */
    method Read(cursor: Option<nat>, limit: nat) returns (r: Result<Page, ReadError>)
      requires WellFormed(View())
      ensures r == ReadPage(View(), cursor, limit)
    {
      var retainedStart := View().StartCursor();
      var requested := if cursor.Some? then cursor.value else retainedStart;
      if requested > endCursor {
        return Err(PastEnd);
      }
      var start := Max(requested, retainedStart);
      var collected := CollectChunks(records, start, limit);
      if collected.Err? {
        return Err(collected.error);
      }
      var (chunks, next) := collected.value;
      r := Ok(Page(requested, start, next, endCursor, requested < retainedStart, next < endCursor, chunks));
    }
  }

  /** The loop of `Read` over the retained records. */
  method CollectChunks(rs: seq<OutputRecord>, start: nat, limit: nat) returns (r: Result<(seq<Chunk>, nat), ReadError>)
    ensures r == Collect(rs, start, limit)
  {
    var next: nat, remaining: nat := start, limit;
    var chunks: seq<Chunk> := [];
    var i := 0;
    ghost var whole := Collect(rs, start, limit);
    PrependNone(whole);
    while i < |rs|
      invariant 0 <= i <= |rs|
      invariant Prepend(chunks, Collect(rs[i..], next, remaining)) == whole
    {
      var record := rs[i];
      CollectStep(rs, i, chunks, next, remaining);
      if remaining != 0 && next < record.EndCursor() {
        if record.cursor > next {
          return Err(CursorGap);
        }
        var take := Min(remaining, record.EndCursor() - next);
        chunks := chunks + [TakeFrom(record, next, take)];
        next, remaining := next + take, remaining - take;
      }
      i := i + 1;
    }
    assert chunks + [] == chunks;
    r := Ok((chunks, next));
  }

  /** The records are written one by one behind what the buffer holds; a length that does not fit ends it. */
  method AppendRecords(buffer: seq<byte>, records: seq<OutputRecord>) returns (r: Option<seq<byte>>)
    ensures r == if ShortRecords(records) then Some(buffer + EncodeRecords(records)) else None
  {
    var bytes := buffer;
    var i := 0;
    while i < |records|
      invariant 0 <= i <= |records|
      invariant bytes == buffer + EncodeRecords(records[..i])
      invariant ShortRecords(records[..i])
    {
      if |records[i].bytes| > U32_MAX {
        return None;
      }
      EncodedOneMore(records, i);
      bytes := bytes + EncodeRecord(records[i]);
      i := i + 1;
    }
    assert records[..i] == records;
    r := Some(bytes);
  }

  /** Reads all records behind the header: the records, their bytes, and where reading and positions end. */
  method ParseAll(bytes: seq<byte>, start: nat, count: nat, first: nat)
    returns (r: Result<(seq<OutputRecord>, nat, nat, nat), DecodeError>)
    requires start == HEADER_BYTES <= |bytes|
    ensures r.Err? ==> ParseRecords(bytes[HEADER_BYTES..], count, first) == Err(r.error)
    ensures r.Ok? ==>
      var (records, retained, offset, expected) := r.value;
      && offset <= |bytes| && |records| == count && retained == TotalBytes(records)
      && Continues(bytes, count, first, records, offset, expected)
  {
    var offset: nat := start;
    var records: seq<OutputRecord> := [];
    var retained: nat := 0;
    var expected: nat := first;
    var i := 0;
    JoinedNone(ParseRecords(bytes[HEADER_BYTES..], count, first));
    while i < count
      invariant 0 <= i <= count && offset <= |bytes|
      invariant |records| == i && retained == TotalBytes(records)
      invariant Continues(bytes, count, first, records, offset, expected)
    {
      var step := ParseRecord(bytes[offset..], expected);
      ParsedRest(bytes, offset, expected);
      ContinueOne(bytes, count, first, records, offset, expected, step);
      if step.Err? {
        return Err(step.error);
      }
      var (record, rest) := step.value;
      TotalConcat(records, [record]);
      records := records + [record];
      retained := retained + |record.bytes|;
      expected := record.EndCursor();
      offset := |bytes| - |rest|;
      i := i + 1;
    }
    r := Ok((records, retained, offset, expected));
  }

  /** Reads a little-endian number and moves past it, or reports that the bytes end too early. */
  method ReadNumber(bytes: seq<byte>, offset: nat, width: nat) returns (r: Result<nat, DecodeError>, next: nat)
    requires offset <= |bytes|
    ensures offset <= next <= |bytes|
    ensures match ParseNumber(bytes[offset..], width)
      case Err(e) => r == Err(e)
      case Ok((n, rest)) => r == Ok(n) && rest == bytes[next..] && next == offset + width
    ensures offset + width <= |bytes| ==> r == Ok(FromLE(bytes[offset..offset + width]))
  {
    if offset + width > |bytes| {
      return Err(Truncated), offset;
    }
    next := offset + width;
    assert bytes[offset..][..width] == bytes[offset..next];
    r := Ok(FromLE(bytes[offset..next]));
  }

  /** Parsing the rest from `offset` completes the records read so far to the whole parse. */
  ghost predicate Continues(bytes: seq<byte>, count: nat, start: nat, records: seq<OutputRecord>, offset: nat,
                            expected: nat)
    requires HEADER_BYTES <= |bytes| && offset <= |bytes| && |records| <= count
  {
    ParseRecords(bytes[HEADER_BYTES..], count, start) ==
    Joined(records, ParseRecords(bytes[offset..], count - |records|, expected))
  }

  /** With all records read, the whole parses exactly if nothing is left over and the end is the stored one. */
  lemma AllParsed(bytes: seq<byte>, records: seq<OutputRecord>, offset: nat, expected: nat,
                  maxBytes: nat, maxRecords: nat)
    requires HEADER_BYTES <= |bytes| && bytes[..|MAGIC|] == MAGIC && offset <= |bytes|
    requires |records| == FromLE(bytes[32..36])
    requires Continues(bytes, |records|, FromLE(bytes[8..16]), records, offset, expected)
    ensures var end := FromLE(bytes[16..24]);
      Parse(bytes, maxBytes, maxRecords) ==
        if offset != |bytes| || expected != end then Err(Inconsistent)
        else Ok(Log(records, end, FromLE(bytes[24..32]), TotalBytes(records), maxBytes, maxRecords))
  {
    assert records + [] == records;
  }

  lemma ContinueOne(bytes: seq<byte>, count: nat, start: nat, records: seq<OutputRecord>, offset: nat, expected: nat,
                    step: Result<(OutputRecord, seq<byte>), DecodeError>)
    requires HEADER_BYTES <= |bytes| && offset <= |bytes| && |records| < count
    requires Continues(bytes, count, start, records, offset, expected)
    requires step == ParseRecord(bytes[offset..], expected)
    requires step.Ok? ==> |step.value.1| <= |bytes| && step.value.1 == bytes[|bytes| - |step.value.1|..]
    ensures step.Err? ==> ParseRecords(bytes[HEADER_BYTES..], count, start) == Err(step.error)
    ensures step.Ok? ==>
      Continues(bytes, count, start, records + [step.value.0], |bytes| - |step.value.1|, step.value.0.EndCursor())
  {
    if step.Ok? {
      JoinedOne(records, step.value.0, ParseRecords(step.value.1, count - |records| - 1, step.value.0.EndCursor()));
    }
  }

  lemma ParsedRest(bytes: seq<byte>, offset: nat, expected: nat)
    requires offset <= |bytes|
    ensures var step := ParseRecord(bytes[offset..], expected);
      step.Ok? ==> offset <= |bytes| - |step.value.1| <= |bytes| && step.value.1 == bytes[|bytes| - |step.value.1|..]
  {
    var step := ParseRecord(bytes[offset..], expected);
    if step.Ok? {
      ParsedRecord(bytes[offset..], expected);
      SuffixOf(bytes, offset, EncodeRecord(step.value.0), step.value.1);
    }
  }

  lemma SuffixOf(bytes: seq<byte>, offset: nat, head: seq<byte>, rest: seq<byte>)
    requires offset <= |bytes| && head + rest == bytes[offset..]
    ensures offset <= |bytes| - |rest| <= |bytes| && rest == bytes[|bytes| - |rest|..]
  {
    assert |bytes[offset..]| == |head| + |rest|;
    assert rest == bytes[offset..][|head|..];
  }

  /** What one iteration of the read loop contributes to the whole page. */
  lemma CollectStep(rs: seq<OutputRecord>, i: nat, chunks: seq<Chunk>, next: nat, remaining: nat)
    requires i < |rs|
    ensures var r := rs[i];
      Prepend(chunks, Collect(rs[i..], next, remaining)) ==
      if remaining == 0 || r.EndCursor() <= next then Prepend(chunks, Collect(rs[i + 1..], next, remaining))
      else if r.cursor > next then Err(CursorGap)
      else
        var take := Min(remaining, r.EndCursor() - next);
        Prepend(chunks + [TakeFrom(r, next, take)], Collect(rs[i + 1..], next + take, remaining - take))
  {
    var r := rs[i];
    assert rs[i..][0] == r && rs[i..][1..] == rs[i + 1..];
    if remaining != 0 && r.cursor <= next < r.EndCursor() {
      var take := Min(remaining, r.EndCursor() - next);
      PrependOne(chunks, TakeFrom(r, next, take), Collect(rs[i + 1..], next + take, remaining - take));
    }
  }
}
