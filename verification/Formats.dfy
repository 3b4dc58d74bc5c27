/** The two wire formats written out byte by byte: positions, byte order and version numbers as they are in a
    stored object, independent of the functions that write and read them. */
module Formats {
  import opened Wrappers
  import opened Bytes
  import opened ManifestCodec
  import opened ManifestLog
  import BatchCodec

  // ---------- the manifest ----------

  function RangeBytes(ms: seq<QueueMetadata>): Bytes
    requires PayloadsFit(ms)
  {
    if ms == [] then []
    else
      var m := ms[|ms| - 1];
      var time := if m.ingestionTimeMs < 0 then m.ingestionTimeMs + 18446744073709551616 else m.ingestionTimeMs;
      RangeBytes(ms[..|ms| - 1]) + B4(m.startIndex) + B8(time) + B4(|m.payload|) + m.payload
  }

  lemma OneRange(m: QueueMetadata)
    requires PayloadsFit([m])
    ensures EncodedRange(m) == RangeBytes([m])
  {
    hide PutU16, PutU32, PutU64, B4, B8;
    assert |[m][0].payload| < U32_LIMIT;
    Put4(m.startIndex);
    Put8(I64ToU64(m.ingestionTimeMs));
    Put4(|m.payload|);
    assert [m][..0] == [];
    assert [] + B4(m.startIndex) == B4(m.startIndex);
  }

  lemma {:induction false} EncodedRangesConcat(a: seq<QueueMetadata>, b: seq<QueueMetadata>)
    ensures EncodedRanges(a + b) == EncodedRanges(a) + EncodedRanges(b)
  {
    hide EncodedRange;
    if a == [] {
      assert a + b == b;
    } else {
      EncodedRangesConcat(a[1..], b);
      assert (a + b)[1..] == a[1..] + b;
      Reassociate(EncodedRange(a[0]), EncodedRanges(a[1..]), EncodedRanges(b));
    }
  }

  lemma {:induction false} RangesAre(ms: seq<QueueMetadata>)
    requires PayloadsFit(ms)
    ensures EncodedRanges(ms) == RangeBytes(ms)
  {
    hide EncodedRange, B4, B8;
    if ms == [] {
    } else {
      var init, m := ms[..|ms| - 1], ms[|ms| - 1];
      RangesAre(init);
      EncodedRangesConcat(init, [m]);
      assert ms == init + [m];
      OneRange(m);
      assert EncodedRanges([m]) == EncodedRange(m) + EncodedRanges([]);
      assert [m][..0] == [] && RangeBytes([]) == [];
    }
  }

  /** Every entry: body length, sequence, location length, location, number of ranges, ranges; each range its start
      index, its time in two's complement, its payload length and its payload; lowest byte first throughout. */
  lemma EntryBytes(e: QueueEntry)
    requires Encodable(e.location, e.metadata) && BodyFits(e.location, e.metadata)
    ensures |e.metadata| < 4294967296
    ensures 14 + |e.location| + |RangeBytes(e.metadata)| < 4294967296
    ensures EncodedEntry(e) == B4(14 + |e.location| + |RangeBytes(e.metadata)|) + B8(e.sequence) + B2(|e.location|)
                               + e.location + B4(|e.metadata|) + RangeBytes(e.metadata)
  {
    hide PutU16, PutU32, PutU64, EncodedRanges, RangeBytes, B2, B4, B8;
    RangesAre(e.metadata);
    var body := EncodedBody(e);
    Put4(|body|);
    Put8(e.sequence);
    Put2(|e.location|);
    Put4(|e.metadata|);
    var a, b, c, d, r := B8(e.sequence), B2(|e.location|), e.location, B4(|e.metadata|), RangeBytes(e.metadata);
    assert B4(|body|) + (a + b + c + d + r) == B4(|body|) + a + b + c + d + r;
  }

  // ---------- what reads back ----------

  lemma GetsPut(s: Bytes)
    ensures |s| == 2 ==> PutU16(GetU16(s)) == s
    ensures |s| == 8 ==> PutU64(GetU64(s)) == s
  {
    FromLittleEndianRoundTrip(s);
  }

  lemma SignRoundTrip(u: U64)
    ensures I64ToU64(U64ToI64(u)) == u
  {}

  lemma RangeParses(s: Bytes)
    requires ParsedRange(s).Ok?
    ensures var (m, rest) := ParsedRange(s).value;
            |m.payload| < 4294967296 && s == EncodedRange(m) + rest
  {
    hide PutU32, PutU64, GetU32, GetU64, I64ToU64, U64ToI64;
    var end := 16 + GetU32(s[12..16]);
    GetsPut(s[4..12]);
    SignRoundTrip(GetU64(s[4..12]));
    assert s == s[..4] + s[4..12] + s[12..16] + s[16..end] + s[end..];
  }

  lemma {:induction false} RangesParse(s: Bytes, count: nat)
    requires ParsedRanges(s, count).Ok?
    ensures var ms := ParsedRanges(s, count).value;
            |ms| == count && PayloadsFit(ms) && EncodedRanges(ms) <= s
    decreases count
  {
    hide ParsedRange, EncodedRange;
    if count == 0 {
    } else {
      var (m, rest) := ParsedRange(s).value;
      RangeParses(s);
      RangesParse(rest, count - 1);
      var ms := ParsedRanges(rest, count - 1).value;
      assert ([m] + ms)[1..] == ms;
      assert EncodedRanges([m] + ms) == EncodedRange(m) + EncodedRanges(ms);
    }
  }

  lemma BodyParses(body: Bytes)
    requires ParsedBody(body).Ok?
    ensures var e := ParsedBody(body).value;
            Encodable(e.location, e.metadata) && |e.metadata| < 4294967296 && EncodedBody(e) <= body
  {
    hide PutU16, PutU32, PutU64, GetU16, GetU32, GetU64, ParsedRanges, EncodedRanges;
    var e, locEnd := ParsedBody(body).value, 10 + GetU16(body[8..10]);
    RangesParse(body[locEnd + 4..], GetU32(body[locEnd..locEnd + 4]));
    GetsPut(body[..8]);
    GetsPut(body[8..10]);
    assert body == body[..8] + body[8..10] + body[10..locEnd] + body[locEnd..locEnd + 4] + body[locEnd + 4..];
  }

  lemma BodyPrefixParses(body: Bytes, e: QueueEntry)
    requires Encodable(e.location, e.metadata) && |e.metadata| < 4294967296 && EncodedBody(e) <= body
    ensures ParsedBody(body) == Ok(e)
  {
    hide PutU16, PutU32, PutU64, GetU16, GetU32, GetU64, ParsedRanges, EncodedRanges, EncodedBody;
    var n := |EncodedBody(e)|;
    BodyRoundTrip(e);
    BodyLength(e);
    BodyFields(e);
    var locEnd := 10 + |e.location|;
    assert body[..n] == EncodedBody(e);
    assert body[..8] == body[..n][..8] && body[8..10] == body[..n][8..10] && body[10..locEnd] == body[..n][10..locEnd];
    assert body[locEnd..locEnd + 4] == body[..n][locEnd..locEnd + 4];
    var d := EncodedRanges(e.metadata);
    assert body[locEnd + 4..] == d + body[n..];
    RangesRoundTrip(e.metadata, body[n..]);
  }

  lemma BodyFields(e: QueueEntry)
    requires Encodable(e.location, e.metadata) && |e.metadata| < 4294967296
    ensures var b, at := EncodedBody(e), 10 + |e.location|;
            && |b| >= at + 4 && GetU64(b[..8]) == e.sequence && GetU16(b[8..10]) == |e.location|
            && b[10..at] == e.location && GetU32(b[at..at + 4]) == |e.metadata|
            && b[at + 4..] == EncodedRanges(e.metadata)
  {
    hide PutU16, PutU32, PutU64, EncodedRanges;
    var b, at := EncodedBody(e), 10 + |e.location|;
    assert b[..8] == PutU64(e.sequence) && b[8..10] == PutU16(|e.location|) && b[10..at] == e.location;
    assert b[at..at + 4] == PutU32(|e.metadata|) && b[at + 4..] == EncodedRanges(e.metadata);
  }

  /** Which bytes read as an entry, and where reading goes on: a length of four bytes, that many bytes, and these
      start with the entry's own. What else they hold is passed over. */
  lemma EntryParsesIff(s: Bytes, e: QueueEntry, rest: Bytes)
    ensures ParsedEntry(s) == Ok((e, rest))
       <==> && |s| >= 4 && 4 + N4(s[..4]) <= |s| && rest == s[4 + N4(s[..4])..]
            && Encodable(e.location, e.metadata) && |e.metadata| < 4294967296
            && EncodedBody(e) <= s[4..4 + N4(s[..4])]
  {
    hide ParsedBody, EncodedBody, GetU32, N4;
    if |s| >= 4 {
      GetU32Is(s[..4]);
      var end := 4 + N4(s[..4]);
      if end <= |s| {
        if ParsedBody(s[4..end]).Ok? {
          BodyParses(s[4..end]);
        }
        if Encodable(e.location, e.metadata) && |e.metadata| < 4294967296 && EncodedBody(e) <= s[4..end] {
          BodyPrefixParses(s[4..end], e);
        }
      }
    }
  }

  /** What a reader of a manifest looks at: the count in the last 22 bytes, and that many entries off the front of the
      rest, whatever the version. */
  lemma DecodedManifestBytes(data: Bytes)
    ensures DecodedEntries(data)
         == if |data| < 22 then Err(Serialization)
            else
              match ParsedEntries(data[..|data| - 22], N4(data[|data| - 22..|data| - 18]))
              case Ok((es, _)) => Ok(es)
              case Err(e) => Err(e)
  {
    hide GetU32, N4, ParsedEntries;
    if |data| >= 22 {
      GetU32Is(data[|data| - 22..|data| - 18]);
    }
  }

  // ---------- an entry and a manifest in full ----------

  lemma SmallNumbers(n: byte)
    ensures B2(n) == [n, 0] && B4(n) == [n, 0, 0, 0] && B8(n) == [n, 0, 0, 0, 0, 0, 0, 0]
  {}

  /** A first entry for the location "ab" with one range of start index 258 and time -2, in full: length, sequence,
      location, number of ranges, start index, time, payload. */
  lemma SmallEntry()
    ensures EncodedEntry(QueueEntry(0, [97, 98], [QueueMetadata(258, -2, [7])]))
         == [33, 0, 0, 0] + [0, 0, 0, 0, 0, 0, 0, 0] + [2, 0] + [97, 98] + [1, 0, 0, 0]
            + ([2, 1, 0, 0] + [254, 255, 255, 255, 255, 255, 255, 255] + [1, 0, 0, 0] + [7])
  {
    hide EncodedEntry, EncodedRanges, RangeBytes, B2, B4, B8;
    var e := QueueEntry(0, [97, 98], [QueueMetadata(258, -2, [7])]);
    SmallRange();
    RangesAre(e.metadata);
    EntryBytes(e);
    SmallNumbers(33);
    SmallNumbers(0);
    SmallNumbers(2);
    SmallNumbers(1);
  }

  lemma SmallRange()
    ensures RangeBytes([QueueMetadata(258, -2, [7])])
         == [2, 1, 0, 0] + [254, 255, 255, 255, 255, 255, 255, 255] + [1, 0, 0, 0] + [7]
  {
    var ms := [QueueMetadata(258, -2, [7])];
    assert ms[..0] == [];
    assert [] + B4(258) == [2, 1, 0, 0];
  }

  /** The manifest that holds it, in full: the entry, the count, the next sequence, the epoch, the version. */
  lemma SmallManifestBytes()
    ensures var entry := EncodedEntry(QueueEntry(0, [97, 98], [QueueMetadata(258, -2, [7])]));
            Rewritten(None, [EnqueueItem([97, 98], [QueueMetadata(258, -2, [7])])])
            == Ok(entry + ([1, 0, 0, 0] + [1, 0, 0, 0, 0, 0, 0, 0] + [0, 0, 0, 0, 0, 0, 0, 0] + [1, 0]))
  {
    hide EncodedEntry, Loaded, Serialized, EmptyData;
    var item := EnqueueItem([97, 98], [QueueMetadata(258, -2, [7])]);
    EmptyLoads();
    SmallEntry();
    var entry := EncodedEntry(QueueEntry(0, item.location, item.metadata));
    var f, g := Fields(EmptyData(), [], 0, 0, 0), Fields(EmptyData(), entry, 1, 1, 0);
    assert [] + entry == entry && [item][1..] == [];
    assert AppendedOne(f, item) == Ok(g);
    assert AppendedAll(g, []) == Ok(g);
    assert AppendedAll(f, [item]) == Ok(g);
    SmallSerialized(entry);
  }

  lemma SmallSerialized(entry: Bytes)
    requires entry != []
    ensures |EmptyData()| == 22
    ensures Serialized(Fields(EmptyData(), entry, 1, 1, 0))
         == Ok(entry + ([1, 0, 0, 0] + [1, 0, 0, 0, 0, 0, 0, 0] + [0, 0, 0, 0, 0, 0, 0, 0] + [1, 0]))
  {
    hide EmptyData, Serialized, B4, B8;
    EmptyManifestBytes();
    ManifestBytes(Fields(EmptyData(), entry, 1, 1, 0));
    assert EmptyData()[0..4] == [0, 0, 0, 0];
    SmallNumbers(0);
    SmallNumbers(1);
    assert EmptyData()[..0] + entry == entry;
  }

  // ---------- batches ----------

  function RecordBytes(entries: seq<Bytes>): Bytes
    requires BatchCodec.EntriesFit(entries)
  {
    if entries == [] then []
    else
      var e := entries[|entries| - 1];
      RecordBytes(entries[..|entries| - 1]) + B4(|e|) + e
  }

  lemma {:induction false} RecordsConcat(a: seq<Bytes>, b: seq<Bytes>)
    requires BatchCodec.EntriesFit(a) && BatchCodec.EntriesFit(b)
    ensures BatchCodec.Records(a + b) == BatchCodec.Records(a) + BatchCodec.Records(b)
  {
    hide PutU32;
    if a == [] {
      assert a + b == b;
    } else {
      RecordsConcat(a[1..], b);
      assert (a + b)[1..] == a[1..] + b;
    }
  }

  lemma {:induction false} RecordsAre(entries: seq<Bytes>)
    requires BatchCodec.EntriesFit(entries)
    ensures BatchCodec.Records(entries) == RecordBytes(entries)
  {
    hide PutU32, B4;
    if entries == [] {
    } else {
      var init, e := entries[..|entries| - 1], entries[|entries| - 1];
      RecordsAre(init);
      RecordsConcat(init, [e]);
      assert entries == init + [e];
      Put4(|e|);
      assert BatchCodec.Records([e]) == PutU32(|e|) + e + BatchCodec.Records([]);
    }
  }

  /** Every batch: records of a length and the entry, as they are or compressed, and behind them the compression, the
      number of records modulo 2^32, and version 1. */
  lemma BatchBytes(z: BatchCodec.Zstd, entries: seq<Bytes>, compression: byte)
    ensures BatchCodec.Encoded(z, entries, compression)
         == if exists i :: 0 <= i < |entries| && |entries[i]| > 4294967295 then Err(InvalidInput)
            else
              var footer := [compression] + B4(|entries| % 4294967296) + [1, 0];
              if compression == 0 then Ok(RecordBytes(entries) + footer)
              else if compression == 1 && z.compress(RecordBytes(entries)).Some? then
                Ok(z.compress(RecordBytes(entries)).value + footer)
              else Err(Serialization)
  {
    hide BatchCodec.Records, RecordBytes, BatchCodec.Footer, B4;
    if BatchCodec.EntriesFit(entries) {
      RecordsAre(entries);
    }
    FooterIs(compression, |entries|);
  }

  lemma FooterIs(compression: byte, count: nat)
    ensures BatchCodec.Footer(compression, count) == [compression] + B4(count % 4294967296) + [1, 0]
  {
    hide PutU16, PutU32, B4;
    Put4(count % 4294967296);
    Put2(1);
  }

  /** A batch of two entries, the second empty, in full: two records, the compression, the count, the version. */
  lemma SmallBatchBytes(z: BatchCodec.Zstd)
    ensures BatchCodec.Encoded(z, [[5, 6], []], 0)
         == Ok([2, 0, 0, 0] + [5, 6] + [0, 0, 0, 0] + ([0] + [2, 0, 0, 0] + [1, 0]))
  {
    hide BatchCodec.Encoded, B4;
    var entries: seq<Bytes> := [[5, 6], []];
    SmallNumbers(0);
    SmallNumbers(2);
    var one: seq<Bytes> := [[5, 6]];
    assert entries[..1] == one && one[..0] == [];
    assert RecordBytes(one) == [2, 0, 0, 0] + [5, 6] by {
      assert [] + B4(2) == B4(2);
    }
    assert RecordBytes(entries) == [2, 0, 0, 0] + [5, 6] + [0, 0, 0, 0] by {
      assert RecordBytes(entries) == RecordBytes(one) + B4(0) + [];
    }
    BatchBytes(z, entries, 0);
  }

  /** What the decoder looks at behind the records: it refuses another version and another compression. */
  lemma DecodedBytes(z: BatchCodec.Zstd, data: Bytes)
    ensures var at := |data| - 7;
            BatchCodec.Decoded(z, data)
            == if |data| < 7 || data[at + 5] != 1 || data[at + 6] != 0 then Err(Serialization)
               else if data[at] == 0 then BatchCodec.Parsed(data[..at], N4(data[at + 1..at + 5]))
               else if data[at] == 1 && z.decompress(data[..at]).Some? then
                 BatchCodec.Parsed(z.decompress(data[..at]).value, N4(data[at + 1..at + 5]))
               else Err(Serialization)
  {
    hide GetU16, GetU32, N4, BatchCodec.Parsed;
    var at := |data| - 7;
    if at >= 0 {
      assert data[at..][5..7] == data[at + 5..] && data[at..][1..5] == data[at + 1..at + 5];
      GetU16Is(data[at + 5..]);
      GetU32Is(data[at + 1..at + 5]);
    }
  }
}
