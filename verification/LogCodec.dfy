/**
 The durable form of an output log: a magic, four little-endian header fields, and per record a
 stream tag, a cursor, a length and the bytes.
 */
module LogCodec {
  import opened Prelude
  import opened OutputLogs

  /** "KODYPLG1" */
  const MAGIC: seq<byte> := [0x4B, 0x4F, 0x44, 0x59, 0x50, 0x4C, 0x47, 0x31]
  const HEADER_BYTES: nat := 36
  const RECORD_HEADER_BYTES: nat := 13

  // ---------------------------------------------------------------------------------------------
  // Little-endian numbers

  function Pow256(k: nat): nat { if k == 0 then 1 else 256 * Pow256(k - 1) }

  function LE(n: nat, k: nat): (bs: seq<byte>)
    ensures |bs| == k
  {
    if k == 0 then [] else [(n % 256) as byte] + LE(n / 256, k - 1)
  }

  function FromLE(bs: seq<byte>): nat {
    if bs == [] then 0 else bs[0] as nat + 256 * FromLE(bs[1..])
  }

  lemma {:induction false} FromLEInvertsLE(n: nat, k: nat)
    requires n < Pow256(k)
    ensures FromLE(LE(n, k)) == n
  {
    if k > 0 {
      FromLEInvertsLE(n / 256, k - 1);
      assert LE(n, k)[1..] == LE(n / 256, k - 1);
    }
  }

  lemma {:induction false} LEInvertsFromLE(bs: seq<byte>)
    ensures FromLE(bs) < Pow256(|bs|)
    ensures LE(FromLE(bs), |bs|) == bs
  {
    if bs != [] {
      LEInvertsFromLE(bs[1..]);
      var rest := FromLE(bs[1..]);
      assert FromLE(bs) / 256 == rest && FromLE(bs) % 256 == bs[0] as nat;
    }
  }

  lemma Widths()
    ensures Pow256(4) == U32_MAX + 1 && Pow256(8) == U64_MAX + 1
  {
    assert Pow256(4) == 256 * (256 * (256 * (256 * Pow256(0))));
    assert Pow256(8) == 256 * (256 * (256 * (256 * Pow256(4))));
  }

  // ---------------------------------------------------------------------------------------------
  // Encoding

  function StreamTag(stream: Stream): byte { if stream == Stdout then 0 else 1 }

  function EncodeRecord(r: OutputRecord): seq<byte> {
    [StreamTag(r.stream)] + LE(r.cursor, 8) + LE(|r.bytes|, 4) + r.bytes
  }

  function EncodeRecords(rs: seq<OutputRecord>): seq<byte> {
    if rs == [] then [] else EncodeRecord(rs[0]) + EncodeRecords(rs[1..])
  }

  function EncodeHeader(start: nat, end: nat, sequence: nat, count: nat): seq<byte> {
    MAGIC + LE(start, 8) + LE(end, 8) + LE(sequence, 8) + LE(count, 4)
  }

  /** The limits of the format: total size, record count and record length fit their fields. */
  predicate Encodable(log: Log) {
    && HEADER_BYTES + log.retainedBytes + |log.records| * RECORD_HEADER_BYTES <= U64_MAX
    && |log.records| <= U32_MAX
    && ShortRecords(log.records)
  }

  predicate ShortRecords(rs: seq<OutputRecord>) {
    forall i | 0 <= i < |rs| :: |rs[i].bytes| <= U32_MAX
  }

  function Encoded(log: Log): seq<byte> {
    EncodeHeader(log.StartCursor(), log.endCursor, log.lastEventSequence, |log.records|) + EncodeRecords(log.records)
  }

  lemma {:induction false} EncodeRecordsConcat(a: seq<OutputRecord>, b: seq<OutputRecord>)
    ensures EncodeRecords(a + b) == EncodeRecords(a) + EncodeRecords(b)
  {
    if a == [] {
      assert a + b == b;
    } else {
      assert (a + b)[1..] == a[1..] + b;
      EncodeRecordsConcat(a[1..], b);
    }
  }

  // ---------------------------------------------------------------------------------------------
  // Decoding

  datatype DecodeError =
    | InvalidHeader
    | Truncated
    | InvalidStreamTag
    | NotContiguous
    | CursorOverflow
    | Inconsistent

  function ParseNumber(bs: seq<byte>, width: nat): Result<(nat, seq<byte>), DecodeError> {
    if |bs| < width then Err(Truncated) else Ok((FromLE(bs[..width]), bs[width..]))
  }

  /** One record that has to start at `expected`, and what follows it. */
  function ParseRecord(bs: seq<byte>, expected: nat): Result<(OutputRecord, seq<byte>), DecodeError> {
    if bs == [] then Err(Truncated)
    else if bs[0] > 1 then Err(InvalidStreamTag)
    else match ParseNumber(bs[1..], 8)
      case Err(e) => Err(e)
      case Ok((cursor, afterCursor)) =>
        match ParseNumber(afterCursor, 4)
        case Err(e) => Err(e)
        case Ok((length, body)) =>
          if |body| < length then Err(Truncated)
          else if cursor != expected || length == 0 then Err(NotContiguous)
          else if cursor + length > U64_MAX then Err(CursorOverflow)
          else Ok((OutputRecord(if bs[0] == 0 then Stdout else Stderr, cursor, body[..length]), body[length..]))
  }

  function ParseRecords(bs: seq<byte>, count: nat, expected: nat): RecordsParse
    decreases count
  {
    if count == 0 then Ok(([], bs, expected))
    else match ParseRecord(bs, expected)
      case Err(e) => Err(e)
      case Ok((r, rest)) => Joined([r], ParseRecords(rest, count - 1, r.EndCursor()))
  }

  type RecordsParse = Result<(seq<OutputRecord>, seq<byte>, nat), DecodeError>

  function Joined(records: seq<OutputRecord>, parse: RecordsParse): RecordsParse {
    if parse.Ok? then Ok((records + parse.value.0, parse.value.1, parse.value.2)) else parse
  }

  lemma JoinedNone(parse: RecordsParse)
    ensures Joined([], parse) == parse
  {
    if parse.Ok? {
      assert [] + parse.value.0 == parse.value.0;
    }
  }

  lemma JoinedOne(records: seq<OutputRecord>, r: OutputRecord, parse: RecordsParse)
    ensures Joined(records + [r], parse) == Joined(records, Joined([r], parse))
  {
    if parse.Ok? {
      assert (records + [r]) + parse.value.0 == records + ([r] + parse.value.0);
    }
  }

  /** Reads a log without trimming it to any limits. */
  function Parse(bs: seq<byte>, maxBytes: nat, maxRecords: nat): Result<Log, DecodeError> {
    if |bs| < HEADER_BYTES || bs[..|MAGIC|] != MAGIC then Err(InvalidHeader)
    else
      var start, end := FromLE(bs[8..16]), FromLE(bs[16..24]);
      var sequence, count := FromLE(bs[24..32]), FromLE(bs[32..36]);
      match ParseRecords(bs[HEADER_BYTES..], count, start)
      case Err(e) => Err(e)
      case Ok((rs, rest, expected)) =>
        if rest != [] || expected != end then Err(Inconsistent)
        else Ok(Log(rs, end, sequence, TotalBytes(rs), maxBytes, maxRecords))
  }

  /** Every parsed log is well formed and is what the bytes encode: nothing is lost or invented. */
  lemma ParseThenEncode(bs: seq<byte>, maxBytes: nat, maxRecords: nat)
    requires |bs| <= U64_MAX && Parse(bs, maxBytes, maxRecords).Ok?
    ensures var log := Parse(bs, maxBytes, maxRecords).value;
      WellFormed(log) && Encodable(log) && Encoded(log) == bs
  {
    var log := Parse(bs, maxBytes, maxRecords).value;
    var start, count := FromLE(bs[8..16]), FromLE(bs[32..36]);
    HeaderReencodes(bs);
    ParsedRecords(bs[HEADER_BYTES..], count, start);
    EncodedSize(log.records);
    assert bs == bs[..HEADER_BYTES] + bs[HEADER_BYTES..];
  }

  lemma HeaderReencodes(bs: seq<byte>)
    requires |bs| >= HEADER_BYTES && bs[..8] == MAGIC
    ensures EncodeHeader(FromLE(bs[8..16]), FromLE(bs[16..24]), FromLE(bs[24..32]), FromLE(bs[32..36]))
      == bs[..HEADER_BYTES]
    ensures FromLE(bs[8..16]) <= U64_MAX && FromLE(bs[16..24]) <= U64_MAX && FromLE(bs[24..32]) <= U64_MAX
    ensures FromLE(bs[32..36]) <= U32_MAX
  {
    Widths();
    LEInvertsFromLE(bs[8..16]);
    LEInvertsFromLE(bs[16..24]);
    LEInvertsFromLE(bs[24..32]);
    LEInvertsFromLE(bs[32..36]);
  }

  lemma {:induction false} EncodedSize(rs: seq<OutputRecord>)
    ensures |EncodeRecords(rs)| == TotalBytes(rs) + |rs| * RECORD_HEADER_BYTES
  {
    if rs != [] {
      EncodedSize(rs[1..]);
    }
  }

  lemma ParsedRecord(bs: seq<byte>, expected: nat)
    requires ParseRecord(bs, expected).Ok?
    ensures var (r, rest) := ParseRecord(bs, expected).value;
      && r.cursor == expected && 0 < |r.bytes| <= U32_MAX && r.EndCursor() <= U64_MAX
      && EncodeRecord(r) + rest == bs
  {
    var (cursor, afterCursor) := ParseNumber(bs[1..], 8).value;
    var (length, body) := ParseNumber(afterCursor, 4).value;
    Widths();
    LEInvertsFromLE(bs[1..][..8]);
    LEInvertsFromLE(afterCursor[..4]);
    assert bs == [bs[0]] + (bs[1..][..8] + (afterCursor[..4] + (body[..length] + body[length..])));
  }

  lemma {:induction false} ParsedRecords(bs: seq<byte>, count: nat, expected: nat)
    requires ParseRecords(bs, count, expected).Ok? && expected <= U64_MAX
    ensures var (rs, rest, end) := ParseRecords(bs, count, expected).value;
      && |rs| == count && Contiguous(rs, end) && end <= U64_MAX
      && (if rs == [] then end == expected else rs[0].cursor == expected)
      && ShortRecords(rs)
      && EncodeRecords(rs) + rest == bs
    decreases count
  {
    if count > 0 {
      ParsedRecord(bs, expected);
      var (r, rest) := ParseRecord(bs, expected).value;
      ParsedRecords(rest, count - 1, r.EndCursor());
      var (rs, remainder, end) := ParseRecords(rest, count - 1, r.EndCursor()).value;
      assert ParseRecords(bs, count, expected).value == ([r] + rs, remainder, end);
      ConsRecord(r, rs, end);
      AppendAssociates(EncodeRecord(r), EncodeRecords(rs), remainder);
    }
  }

  lemma AppendAssociates(a: seq<byte>, b: seq<byte>, c: seq<byte>)
    ensures a + (b + c) == (a + b) + c
  {
  }

  lemma ConsRecord(r: OutputRecord, rs: seq<OutputRecord>, end: nat)
    requires Contiguous(rs, end) && |r.bytes| > 0
    requires if rs == [] then end == r.EndCursor() else rs[0].cursor == r.EndCursor()
    requires ShortRecords(rs) && |r.bytes| <= U32_MAX
    ensures Contiguous([r] + rs, end) && ShortRecords([r] + rs)
    ensures EncodeRecords([r] + rs) == EncodeRecord(r) + EncodeRecords(rs)
  {
    assert forall i | 0 < i < |[r] + rs| :: ([r] + rs)[i] == rs[i - 1];
    assert ([r] + rs)[1..] == rs;
  }

  lemma EncodedRecordParses(r: OutputRecord, rest: seq<byte>)
    requires 0 < |r.bytes| <= U32_MAX && r.EndCursor() <= U64_MAX
    ensures ParseRecord(EncodeRecord(r) + rest, r.cursor) == Ok((r, rest))
  {
    var bs := EncodeRecord(r) + rest;
    Widths();
    FromLEInvertsLE(r.cursor, 8);
    FromLEInvertsLE(|r.bytes|, 4);
    assert bs[1..][..8] == LE(r.cursor, 8);
    assert bs[1..][8..][..4] == LE(|r.bytes|, 4);
    assert bs[1..][8..][4..] == r.bytes + rest;
  }

  lemma {:induction false} EncodedRecordsParse(rs: seq<OutputRecord>, end: nat, expected: nat)
    requires Contiguous(rs, end) && end <= U64_MAX
    requires if rs == [] then expected == end else expected == rs[0].cursor
    requires ShortRecords(rs)
    ensures ParseRecords(EncodeRecords(rs), |rs|, expected) == Ok((rs, [], end))
  {
    if rs != [] {
      if |rs| > 1 {
        RecordsOrdered(rs, end, 0, |rs| - 1);
      }
      EncodedRecordParses(rs[0], EncodeRecords(rs[1..]));
      EncodedRecordsParse(rs[1..], end, rs[0].EndCursor());
      assert [rs[0]] + rs[1..] == rs;
    }
  }

  /** Parsing what was encoded gives the log back, under whatever limits the reader uses. */
  lemma EncodeThenParse(log: Log, maxBytes: nat, maxRecords: nat)
    requires WellFormed(log) && Encodable(log)
    ensures Parse(Encoded(log), maxBytes, maxRecords) == Ok(log.(maxBytes := maxBytes, maxRecords := maxRecords))
  {
    var bs := Encoded(log);
    StartsBeforeEnd(log.records, log.endCursor);
    EncodedHeaderReads(log.StartCursor(), log.endCursor, log.lastEventSequence, |log.records|,
      EncodeRecords(log.records));
    EncodedRecordsParse(log.records, log.endCursor, log.StartCursor());
  }

  lemma EncodedHeaderReads(start: nat, end: nat, sequence: nat, count: nat, body: seq<byte>)
    requires start <= U64_MAX && end <= U64_MAX && sequence <= U64_MAX && count <= U32_MAX
    ensures var bs := EncodeHeader(start, end, sequence, count) + body;
      && |bs| >= HEADER_BYTES && bs[..8] == MAGIC && bs[HEADER_BYTES..] == body
      && FromLE(bs[8..16]) == start && FromLE(bs[16..24]) == end
      && FromLE(bs[24..32]) == sequence && FromLE(bs[32..36]) == count
  {
    var bs := EncodeHeader(start, end, sequence, count) + body;
    Widths();
    FromLEInvertsLE(start, 8);
    FromLEInvertsLE(end, 8);
    FromLEInvertsLE(sequence, 8);
    FromLEInvertsLE(count, 4);
    assert bs[8..16] == LE(start, 8);
    assert bs[16..24] == LE(end, 8);
    assert bs[24..32] == LE(sequence, 8);
    assert bs[32..36] == LE(count, 4);
  }

  /** What the program reads back: the parsed log, trimmed to the reader's limits. */
  function Decoded(bs: seq<byte>, maxBytes: nat, maxRecords: nat): Result<Log, DecodeError>
    requires |bs| <= U64_MAX
  {
    match Parse(bs, maxBytes, maxRecords)
    case Err(e) => Err(e)
    case Ok(log) =>
      ParseThenEncode(bs, maxBytes, maxRecords);
      Ok(Trimmed(log))
  }

  lemma TrimmingWithinLimitsIsIdentity(log: Log)
    requires WellFormed(log) && WithinLimits(log)
    ensures Trimmed(log) == log
  {
    if log.records != [] {
      TotalIsSpan(log.records, log.endCursor);
    }
  }

  /**
   The byte strings that decode are exactly the encodings of well-formed logs, and decoding undoes
   encoding up to the trimming that tighter limits force.
   */
  lemma DecodeInvertsEncode(bs: seq<byte>, maxBytes: nat, maxRecords: nat)
    requires |bs| <= U64_MAX
    ensures Decoded(bs, maxBytes, maxRecords).Ok? <==>
      exists log :: WellFormed(log) && Encodable(log) && Encoded(log) == bs
    ensures forall log | WellFormed(log) && Encodable(log) && Encoded(log) == bs ::
      Decoded(bs, maxBytes, maxRecords) == Ok(Trimmed(log.(maxBytes := maxBytes, maxRecords := maxRecords)))
  {
    if Parse(bs, maxBytes, maxRecords).Ok? {
      ParseThenEncode(bs, maxBytes, maxRecords);
    }
    forall log | WellFormed(log) && Encodable(log) && Encoded(log) == bs
      ensures Decoded(bs, maxBytes, maxRecords) == Ok(Trimmed(log.(maxBytes := maxBytes, maxRecords := maxRecords)))
    {
      EncodeThenParse(log, maxBytes, maxRecords);
    }
  }

  /** With the limits it was written under, a log survives the round trip unchanged. */
  lemma RoundTrip(log: Log)
    requires WellFormed(log) && WithinLimits(log) && Encodable(log) && |Encoded(log)| <= U64_MAX
    ensures Decoded(Encoded(log), log.maxBytes, log.maxRecords) == Ok(log)
  {
    DecodeInvertsEncode(Encoded(log), log.maxBytes, log.maxRecords);
    TrimmingWithinLimitsIsIdentity(log);
  }

  /** Bytes that decode without anything being forgotten are reproduced by encoding the result. */
  lemma ReencodeIsIdentity(bs: seq<byte>, maxBytes: nat, maxRecords: nat)
    requires |bs| <= U64_MAX && Decoded(bs, maxBytes, maxRecords).Ok?
    requires WithinLimits(Parse(bs, maxBytes, maxRecords).value)
    ensures Encoded(Decoded(bs, maxBytes, maxRecords).value) == bs
  {
    ParseThenEncode(bs, maxBytes, maxRecords);
    TrimmingWithinLimitsIsIdentity(Parse(bs, maxBytes, maxRecords).value);
  }
}
