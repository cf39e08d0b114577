/** Cursor paging over an output log, and what a client that follows `nextCursor` gets to see. */
module LogPaging {
  import opened Prelude
  import opened OutputLogs

  datatype Chunk = Chunk(stream: Stream, cursor: nat, nextCursor: nat, bytes: seq<byte>)

  datatype Page = Page(
    requestedCursor: nat,
    startCursor: nat,
    nextCursor: nat,
    endCursor: nat,
    truncated: bool,
    hasMore: bool,
    chunks: seq<Chunk>)

  datatype ReadError = PastEnd | CursorGap | BadLimit | MissingLog

  /** Walks the records, taking at most `remaining` bytes from position `next` on. */
  function Collect(rs: seq<OutputRecord>, next: nat, remaining: nat): Result<(seq<Chunk>, nat), ReadError> {
    if rs == [] then Ok(([], next))
    else if remaining == 0 || rs[0].EndCursor() <= next then Collect(rs[1..], next, remaining)
    else if rs[0].cursor > next then Err(CursorGap)
    else
      var take := Min(remaining, rs[0].EndCursor() - next);
      Prepend([TakeFrom(rs[0], next, take)], Collect(rs[1..], next + take, remaining - take))
  }

  /** The chunk of `take` bytes of the record that starts at position `next`. */
  function TakeFrom(r: OutputRecord, next: nat, take: nat): Chunk
    requires r.cursor <= next && next + take <= r.EndCursor()
  {
    Chunk(r.stream, next, next + take, r.bytes[next - r.cursor..next - r.cursor + take])
  }

  function Prepend(chunks: seq<Chunk>, r: Result<(seq<Chunk>, nat), ReadError>): Result<(seq<Chunk>, nat), ReadError> {
    if r.Ok? then Ok((chunks + r.value.0, r.value.1)) else r
  }

  lemma PrependNone(r: Result<(seq<Chunk>, nat), ReadError>)
    ensures Prepend([], r) == r
  {
    if r.Ok? {
      assert [] + r.value.0 == r.value.0;
    }
  }

  lemma PrependOne(chunks: seq<Chunk>, chunk: Chunk, r: Result<(seq<Chunk>, nat), ReadError>)
    ensures Prepend(chunks + [chunk], r) == Prepend(chunks, Prepend([chunk], r))
  {
    if r.Ok? {
      assert (chunks + [chunk]) + r.value.0 == chunks + ([chunk] + r.value.0);
    }
  }

  function ReadPage(log: Log, cursor: Option<nat>, limit: nat): Result<Page, ReadError> {
    var retainedStart := log.StartCursor();
    var requested := if cursor.Some? then cursor.value else retainedStart;
    if requested > log.endCursor then Err(PastEnd)
    else
      var start := Max(requested, retainedStart);
      match Collect(log.records, start, limit)
      case Err(e) => Err(e)
      case Ok((chunks, next)) =>
        Ok(Page(requested, start, next, log.endCursor, requested < retainedStart, next < log.endCursor, chunks))
  }

  ghost function ChunkBytes(chunks: seq<Chunk>): seq<Tagged> {
    if chunks == [] then [] else Tag(chunks[0].stream, chunks[0].bytes) + ChunkBytes(chunks[1..])
  }

  /** The chunks are nonempty and tile the interval from `start` to `next` in order. */
  ghost predicate Tile(chunks: seq<Chunk>, start: nat, next: nat) {
    if chunks == [] then start == next
    else
      && chunks[0].cursor == start < chunks[0].nextCursor
      && |chunks[0].bytes| == chunks[0].nextCursor - chunks[0].cursor
      && Tile(chunks[1..], chunks[0].nextCursor, next)
  }

  lemma {:induction false} CollectExact(rs: seq<OutputRecord>, history: seq<Tagged>, next: nat, remaining: nat)
    requires Contiguous(rs, |history|) && Carries(rs, history)
    requires next <= |history| && if rs == [] then next == |history| else rs[0].cursor <= next
    ensures var r := Collect(rs, next, remaining);
      && r.Ok?
      && r.value.1 == Min(next + remaining, |history|)
      && Tile(r.value.0, next, r.value.1)
      && ChunkBytes(r.value.0) == history[next..r.value.1]
  {
    if rs == [] {
    } else {
      Tail(rs, history);
      if remaining == 0 {
        CollectNothing(rs, next);
      } else if rs[0].EndCursor() <= next {
        CollectExact(rs[1..], history, next, remaining);
      } else {
        var take := Min(remaining, rs[0].EndCursor() - next);
        if take == remaining {
          CollectNothing(rs[1..], next + take);
        } else {
          CollectExact(rs[1..], history, next + take, remaining - take);
        }
        CollectHere(rs, history, next, remaining);
      }
    }
  }

  /** The step of `CollectExact` that takes bytes from the first record. */
  lemma CollectHere(rs: seq<OutputRecord>, history: seq<Tagged>, next: nat, remaining: nat)
    requires rs != [] && CarriesOne(rs[0], history) && rs[0].cursor <= next < rs[0].EndCursor() && remaining > 0
    requires var take := Min(remaining, rs[0].EndCursor() - next);
      var r := Collect(rs[1..], next + take, remaining - take);
      && r.Ok?
      && next + take <= r.value.1 == Min(next + remaining, |history|)
      && Tile(r.value.0, next + take, r.value.1)
      && ChunkBytes(r.value.0) == history[next + take..r.value.1]
    ensures var r := Collect(rs, next, remaining);
      && r.Ok?
      && r.value.1 == Min(next + remaining, |history|)
      && Tile(r.value.0, next, r.value.1)
      && ChunkBytes(r.value.0) == history[next..r.value.1]
  {
    var offset := next - rs[0].cursor;
    var take := Min(remaining, |rs[0].bytes| - offset);
    var rest := Collect(rs[1..], next + take, remaining - take).value;
    var chunk := TakeFrom(rs[0], next, take);
    RecordSlice(rs[0], history, offset, offset + take);
    assert Collect(rs, next, remaining) == Ok(([chunk] + rest.0, rest.1));
    assert ([chunk] + rest.0)[1..] == rest.0;
    JoinSlices(history, next, next + take, rest.1);
  }

  lemma JoinSlices(q: seq<Tagged>, i: nat, j: nat, k: nat)
    requires i <= j <= k <= |q|
    ensures q[i..j] + q[j..k] == q[i..k]
  {
  }

  lemma {:induction false} CollectNothing(rs: seq<OutputRecord>, next: nat)
    ensures Collect(rs, next, 0) == Ok(([], next))
  {
    if rs != [] {
      CollectNothing(rs[1..], next);
    }
  }

  lemma Tail(rs: seq<OutputRecord>, history: seq<Tagged>)
    requires Contiguous(rs, |history|) && Carries(rs, history) && rs != []
    ensures Contiguous(rs[1..], |history|) && Carries(rs[1..], history)
    ensures if rs[1..] == [] then rs[0].EndCursor() == |history| else rs[1..][0].cursor == rs[0].EndCursor()
    ensures rs[0].EndCursor() <= |history|
  {
    assert forall i | 0 <= i < |rs[1..]| :: rs[1..][i] == rs[i + 1];
    assert CarriesOne(rs[0], history);
  }

  lemma RecordSlice(r: OutputRecord, history: seq<Tagged>, lo: nat, hi: nat)
    requires CarriesOne(r, history) && lo <= hi <= |r.bytes|
    ensures r.cursor + hi <= |history|
    ensures Tag(r.stream, r.bytes[lo..hi]) == history[r.cursor + lo..r.cursor + hi]
  {
    assert Tag(r.stream, r.bytes)[lo..hi] == Tag(r.stream, r.bytes[lo..hi]);
    assert history[r.cursor..r.EndCursor()][lo..hi] == history[r.cursor + lo..r.cursor + hi];
  }

  /**
   A page fails only past the end, and never with a cursor gap. Otherwise it carries exactly the
   history bytes at its positions, as many as the limit and the end allow, and says truthfully
   whether bytes were skipped before it and whether more follow.
   */
  lemma PageExact(log: Log, history: seq<Tagged>, cursor: Option<nat>, limit: nat)
    requires WellFormed(log) && log.endCursor == |history| && Carries(log.records, history)
    ensures match ReadPage(log, cursor, limit)
      case Err(e) => e == PastEnd && cursor.Some? && cursor.value > log.endCursor
      case Ok(p) =>
        && p.requestedCursor == (if cursor.Some? then cursor.value else log.StartCursor()) <= |history|
        && p.startCursor == Max(p.requestedCursor, log.StartCursor())
        && p.nextCursor == Min(p.startCursor + limit, |history|)
        && p.endCursor == |history|
        && Tile(p.chunks, p.startCursor, p.nextCursor)
        && ChunkBytes(p.chunks) == history[p.startCursor..p.nextCursor]
        && (p.truncated <==> p.requestedCursor < p.startCursor)
        && (p.hasMore <==> p.nextCursor < |history|)
        && (p.hasMore && limit > 0 ==> p.nextCursor > p.requestedCursor)
  {
    var requested := if cursor.Some? then cursor.value else log.StartCursor();
    StartsBeforeEnd(log.records, log.endCursor);
    if requested <= log.endCursor {
      CollectExact(log.records, history, Max(requested, log.StartCursor()), limit);
    }
  }

  // ---------------------------------------------------------------------------------------------
  // Following a live log

  /**
   Output goes to the log in memory; only when that is written out can a poll, which reads the file, see
   it. After that the end of the file enters the record of the process.
   */
  datatype Step = Output(write: Write) | Persisted | Recorded | Poll(limit: nat)

  /** A poll: the limit is checked, and an empty file where the record knows of output counts as missing. */
  function ReadOutput(file: Log, recorded: nat, maxRead: nat, cursor: nat, limit: nat): Result<Page, ReadError> {
    if limit == 0 || limit > maxRead then Err(BadLimit)
    else if recorded > 0 && file.endCursor == 0 then Err(MissingLog)
    else ReadPage(file, Some(cursor), limit)
  }

  datatype Reply = Reply(limit: nat, page: Result<Page, ReadError>)

  ghost function WritesOf(steps: seq<Step>): nat {
    if steps == [] then 0
    else (if steps[0].Output? then |steps[0].write.bytes| else 0) + WritesOf(steps[1..])
  }

  ghost function HistoryAfter(history: seq<Tagged>, steps: seq<Step>): seq<Tagged>
    decreases |steps|
  {
    if steps == [] then history
    else
      var h := if steps[0].Output? then history + Tag(steps[0].write.stream, steps[0].write.bytes) else history;
      HistoryAfter(h, steps[1..])
  }

  /** The replies to a client that polls from `cursor` and always continues at `nextCursor`. */
  ghost function Follow(log: Log, file: Log, recorded: nat, maxRead: nat, cursor: nat, steps: seq<Step>): seq<Reply>
    requires WellFormed(log) && log.endCursor + WritesOf(steps) <= U64_MAX
    decreases |steps|
  {
    if steps == [] then []
    else match steps[0]
      case Output(w) =>
        AppendedWellFormed(log, w.stream, w.bytes);
        Follow(Appended(log, w.stream, w.bytes), file, recorded, maxRead, cursor, steps[1..])
      case Persisted => Follow(log, log, recorded, maxRead, cursor, steps[1..])
      case Recorded => Follow(log, file, file.endCursor, maxRead, cursor, steps[1..])
      case Poll(limit) =>
        var r := ReadOutput(file, recorded, maxRead, cursor, limit);
        [Reply(limit, r)]
        + Follow(log, file, recorded, maxRead, if r.Ok? then r.value.nextCursor else cursor, steps[1..])
  }

  lemma AppendedWellFormed(log: Log, stream: Stream, bytes: seq<byte>)
    requires WellFormed(log) && log.endCursor + |bytes| <= U64_MAX
    ensures WellFormed(Appended(log, stream, bytes))
    ensures Appended(log, stream, bytes).endCursor == log.endCursor + |bytes|
  {
    if bytes != [] {
      PushedWellFormed(log, stream, bytes);
      TrimmedIsTightest(Pushed(log, stream, bytes));
    }
  }

  /** The page starts where asked, or at what is left, shows the true bytes, and gets ahead while there is more. */
  ghost predicate Truthful(p: Page, limit: nat, cursor: nat, final: seq<Tagged>) {
    && p.requestedCursor == cursor <= p.startCursor <= p.nextCursor <= p.endCursor <= |final|
    && (p.truncated <==> cursor < p.startCursor)
    && (p.hasMore <==> p.nextCursor < p.endCursor)
    && (p.hasMore ==> p.nextCursor == p.startCursor + limit)
    && p.nextCursor <= p.startCursor + limit
    && Tile(p.chunks, p.startCursor, p.nextCursor)
    && ChunkBytes(p.chunks) == final[p.startCursor..p.nextCursor]
  }

  /**
   Only polls with a wrong limit are refused. The pages of the others continue one another from
   `cursor`, and each is truthful about the final history.
   */
  ghost predicate Faithful(replies: seq<Reply>, maxRead: nat, cursor: nat, final: seq<Tagged>)
    decreases |replies|
  {
    if replies == [] then true
    else
      var limit, page := replies[0].limit, replies[0].page;
      if limit == 0 || limit > maxRead then page == Err(BadLimit) && Faithful(replies[1..], maxRead, cursor, final)
      else
        && page.Ok? && Truthful(page.value, limit, cursor, final)
        && Faithful(replies[1..], maxRead, page.value.nextCursor, final)
  }

  lemma {:induction false} HistoryGrows(history: seq<Tagged>, steps: seq<Step>)
    ensures |history| <= |HistoryAfter(history, steps)|
    ensures HistoryAfter(history, steps)[..|history|] == history
    decreases |steps|
  {
    if steps != [] {
      var h := if steps[0].Output? then history + Tag(steps[0].write.stream, steps[0].write.bytes) else history;
      HistoryGrows(h, steps[1..]);
      assert HistoryAfter(history, steps)[..|h|][..|history|] == HistoryAfter(history, steps)[..|history|];
    }
  }

  /**
   In every interleaving of output, eviction, writing out and polling the client sees only the truth,
   however far the file is behind the log in memory.
   */
  lemma {:induction false} FollowIsFaithful(log: Log, history: seq<Tagged>, file: Log, filed: nat, recorded: nat,
                                            maxRead: nat, cursor: nat, steps: seq<Step>)
    requires Tracks(log, history) && filed <= |history| && Tracks(file, history[..filed])
    requires recorded <= filed && cursor <= filed && log.endCursor + WritesOf(steps) <= U64_MAX
    ensures Faithful(Follow(log, file, recorded, maxRead, cursor, steps), maxRead, cursor, HistoryAfter(history, steps))
    decreases |steps|
  {
    if steps == [] {
    } else if steps[0].Output? {
      var w := steps[0].write;
      var more := history + Tag(w.stream, w.bytes);
      AppendTracks(log, history, w.stream, w.bytes);
      AppendedWellFormed(log, w.stream, w.bytes);
      assert more[..filed] == history[..filed];
      FollowIsFaithful(Appended(log, w.stream, w.bytes), more, file, filed, recorded, maxRead, cursor, steps[1..]);
    } else if steps[0].Persisted? {
      assert history[..|history|] == history;
      FollowIsFaithful(log, history, log, |history|, recorded, maxRead, cursor, steps[1..]);
    } else if steps[0].Recorded? {
      FollowIsFaithful(log, history, file, filed, filed, maxRead, cursor, steps[1..]);
    } else {
      var limit, final := steps[0].limit, HistoryAfter(history, steps);
      if limit == 0 || limit > maxRead {
        FollowIsFaithful(log, history, file, filed, recorded, maxRead, cursor, steps[1..]);
        RefusalThenRest(limit, Follow(log, file, recorded, maxRead, cursor, steps[1..]), maxRead, cursor, final);
      } else {
        HistoryGrows(history, steps);
        assert final[..filed] == final[..|history|][..filed];
        var p := PageInFinal(file, history[..filed], cursor, limit, final);
        FollowIsFaithful(log, history, file, filed, recorded, maxRead, p.nextCursor, steps[1..]);
        var rest := Follow(log, file, recorded, maxRead, p.nextCursor, steps[1..]);
        PageThenRest(p, limit, rest, maxRead, cursor, final);
      }
    }
  }

  lemma RefusalThenRest(limit: nat, rest: seq<Reply>, maxRead: nat, cursor: nat, final: seq<Tagged>)
    requires (limit == 0 || limit > maxRead) && Faithful(rest, maxRead, cursor, final)
    ensures Faithful([Reply(limit, Err(BadLimit))] + rest, maxRead, cursor, final)
  {
    var replies := [Reply(limit, Err(BadLimit))] + rest;
    assert replies[1..] == rest;
  }

  lemma PageThenRest(p: Page, limit: nat, rest: seq<Reply>, maxRead: nat, cursor: nat, final: seq<Tagged>)
    requires 0 < limit <= maxRead && Truthful(p, limit, cursor, final)
    requires Faithful(rest, maxRead, p.nextCursor, final)
    ensures Faithful([Reply(limit, Ok(p))] + rest, maxRead, cursor, final)
  {
    var replies := [Reply(limit, Ok(p))] + rest;
    assert replies[0] == Reply(limit, Ok(p)) && replies[1..] == rest;
  }

  /** A page of the log at one moment also shows the bytes of any later history. */
  lemma PageInFinal(log: Log, history: seq<Tagged>, cursor: nat, limit: nat, final: seq<Tagged>) returns (p: Page)
    requires Tracks(log, history) && cursor <= |history| && limit > 0
    requires |history| <= |final| && final[..|history|] == history
    ensures ReadPage(log, Some(cursor), limit) == Ok(p)
    ensures Truthful(p, limit, cursor, final) && p.endCursor == |history|
  {
    PageExact(log, history, Some(cursor), limit);
    p := ReadPage(log, Some(cursor), limit).value;
    SliceOfPrefix(final, |history|, p.startCursor, p.nextCursor);
  }

  lemma SliceOfPrefix(q: seq<Tagged>, n: nat, i: nat, j: nat)
    requires i <= j <= n <= |q|
    ensures q[..n][i..j] == q[i..j]
  {
    assert forall k | 0 <= k < j - i :: q[..n][i..j][k] == q[i..j][k];
  }

  /** Everything a client collects by reading until `hasMore` is false, while the log stays as it is. */
  ghost function ReadToEnd(log: Log, history: seq<Tagged>, cursor: nat, limit: nat): (pages: seq<Page>)
    requires WellFormed(log) && log.endCursor == |history| && Carries(log.records, history)
    requires cursor <= |history| && limit > 0
    ensures pages != []
    ensures !pages[|pages| - 1].hasMore && pages[|pages| - 1].nextCursor == |history|
    decreases |history| - cursor
  {
    PageExact(log, history, Some(cursor), limit);
    var p := ReadPage(log, Some(cursor), limit).value;
    if p.hasMore then
      var rest := ReadToEnd(log, history, p.nextCursor, limit);
      assert ([p] + rest)[|rest|] == rest[|rest| - 1];
      [p] + rest
    else
      [p]
  }

  ghost function AllBytes(pages: seq<Page>): seq<Tagged> {
    if pages == [] then [] else ChunkBytes(pages[0].chunks) + AllBytes(pages[1..])
  }

  lemma ReadToEndSteps(log: Log, history: seq<Tagged>, cursor: nat, limit: nat) returns (p: Page)
    requires WellFormed(log) && log.endCursor == |history| && Carries(log.records, history)
    requires cursor <= |history| && limit > 0
    ensures ReadPage(log, Some(cursor), limit) == Ok(p)
    ensures p.startCursor == Max(cursor, log.StartCursor()) <= p.nextCursor <= |history|
    ensures ChunkBytes(p.chunks) == history[p.startCursor..p.nextCursor]
    ensures p.hasMore ==> cursor < p.nextCursor && log.StartCursor() <= p.nextCursor
    ensures !p.hasMore ==> p.nextCursor == |history|
    ensures ReadToEnd(log, history, cursor, limit) ==
      if p.hasMore then [p] + ReadToEnd(log, history, p.nextCursor, limit) else [p]
  {
    PageExact(log, history, Some(cursor), limit);
    StartsBeforeEnd(log.records, log.endCursor);
    p := ReadPage(log, Some(cursor), limit).value;
  }

  lemma AllBytesSplit(p: Page, rest: seq<Page>)
    ensures AllBytes([p] + rest) == ChunkBytes(p.chunks) + AllBytes(rest)
  {
    assert ([p] + rest)[1..] == rest;
  }

  /** Reading to the end collects the retained history from the cursor on, each byte exactly once. */
  lemma {:induction false} ReadToEndIsComplete(log: Log, history: seq<Tagged>, cursor: nat, limit: nat)
    requires WellFormed(log) && log.endCursor == |history| && Carries(log.records, history)
    requires cursor <= |history| && limit > 0
    ensures log.StartCursor() <= |history|
    ensures AllBytes(ReadToEnd(log, history, cursor, limit)) == history[Max(cursor, log.StartCursor())..|history|]
    decreases |history| - cursor
  {
    var p := ReadToEndSteps(log, history, cursor, limit);
    if p.hasMore {
      ReadToEndIsComplete(log, history, p.nextCursor, limit);
      AllBytesSplit(p, ReadToEnd(log, history, p.nextCursor, limit));
      JoinSlices(history, p.startCursor, p.nextCursor, |history|);
    } else {
      AllBytesSplit(p, []);
      assert [p] + [] == [p] && AllBytes([]) == [];
    }
  }

  /** All reads but the last are full, so the number of reads is bounded by what is left to read. */
  lemma {:induction false} ReadToEndIsShort(log: Log, history: seq<Tagged>, cursor: nat, limit: nat)
    requires WellFormed(log) && log.endCursor == |history| && Carries(log.records, history)
    requires cursor <= |history| && limit > 0
    ensures (|ReadToEnd(log, history, cursor, limit)| - 1) * limit <= |history| - cursor
    decreases |history| - cursor
  {
    PageExact(log, history, Some(cursor), limit);
    var p := ReadPage(log, Some(cursor), limit).value;
    if p.hasMore {
      ReadToEndIsShort(log, history, p.nextCursor, limit);
      OneMoreRead(|ReadToEnd(log, history, p.nextCursor, limit)| - 1, limit);
    }
  }

  lemma OneMoreRead(n: nat, limit: nat)
    ensures (n + 1) * limit == n * limit + limit
  {
  }
}
