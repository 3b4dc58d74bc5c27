/** The queue-manifest format of buffer/manifest.go: length-prefixed entries followed by a
    22-byte footer (entry count, next sequence, epoch, version). */
module ManifestCodec {
  import opened Wrappers
  import opened Bytes

  const ENTRY_LEN_SIZE: nat := 4
  const BODY_FIXED_SIZE: nat := 14   // sequence, location length, metadata count
  const RANGE_FIXED_SIZE: nat := 16  // start index, ingestion time, payload length
  const MANIFEST_FOOTER_SIZE: nat := 22
  const MANIFEST_VERSION: nat := 1

  datatype QueueMetadata = QueueMetadata(startIndex: U32, ingestionTimeMs: I64, payload: Bytes)
  datatype QueueEntry = QueueEntry(sequence: U64, location: Bytes, metadata: seq<QueueMetadata>)
  datatype EnqueueItem = EnqueueItem(location: Bytes, metadata: seq<QueueMetadata>)

  // ---------- entries to bytes ----------

  function EncodedRange(m: QueueMetadata): (s: Bytes)
    ensures |s| == RANGE_FIXED_SIZE + |m.payload|
  {
    PutU32(m.startIndex) + PutU64(I64ToU64(m.ingestionTimeMs)) + PutU32(|m.payload| % U32_LIMIT) + m.payload
  }

  function EncodedRanges(ms: seq<QueueMetadata>): (s: Bytes)
    ensures |s| >= RANGE_FIXED_SIZE * |ms|
  {
    if ms == [] then [] else EncodedRange(ms[0]) + EncodedRanges(ms[1..])
  }

  function EncodedBody(e: QueueEntry): (s: Bytes)
    requires |e.location| < U16_LIMIT
    ensures |s| == BODY_FIXED_SIZE + |e.location| + |EncodedRanges(e.metadata)|
  {
    PutU64(e.sequence) + PutU16(|e.location|) + e.location
      + PutU32(|e.metadata| % U32_LIMIT) + EncodedRanges(e.metadata)
  }

  predicate PayloadsFit(ms: seq<QueueMetadata>) {
    forall i :: 0 <= i < |ms| ==> |ms[i].payload| < U32_LIMIT
  }

  /** What `encodeQueueEntry` checks. */
  predicate Encodable(location: Bytes, metadata: seq<QueueMetadata>) {
    |location| < U16_LIMIT && PayloadsFit(metadata)
  }

  /** What it does not check: the body length must fit the 4-byte length prefix. */
  predicate BodyFits(location: Bytes, metadata: seq<QueueMetadata>) {
    BODY_FIXED_SIZE + |location| + |EncodedRanges(metadata)| < U32_LIMIT
  }

  function EncodedEntry(e: QueueEntry): Bytes
    requires Encodable(e.location, e.metadata)
  {
    PutU32(|EncodedBody(e)| % U32_LIMIT) + EncodedBody(e)
  }

  predicate AllEncodable(es: seq<QueueEntry>) {
    forall i :: 0 <= i < |es| ==> Encodable(es[i].location, es[i].metadata)
  }

  function EncodedEntries(es: seq<QueueEntry>): Bytes
    requires AllEncodable(es)
  {
    if es == [] then [] else EncodedEntry(es[0]) + EncodedEntries(es[1..])
  }

  // ---------- bytes to entries ----------

  function ParsedRange(s: Bytes): (r: Result<(QueueMetadata, Bytes)>)
    ensures r.Ok? ==> |r.value.1| + RANGE_FIXED_SIZE <= |s|
  {
    if |s| < RANGE_FIXED_SIZE then Err(Serialization)
    else
      var end := RANGE_FIXED_SIZE + GetU32(s[12..16]);
      if end > |s| then Err(Serialization)
      else Ok((QueueMetadata(GetU32(s[..4]), U64ToI64(GetU64(s[4..12])), s[16..end]), s[end..]))
  }

  function ParsedRanges(s: Bytes, count: nat): Result<seq<QueueMetadata>> {
    if count == 0 then Ok([])
    else
      match ParsedRange(s)
      case Err(e) => Err(e)
      case Ok((m, rest)) => After([m], ParsedRanges(rest, count - 1))
  }

  function ParsedBody(body: Bytes): Result<QueueEntry> {
    if |body| < BODY_FIXED_SIZE then Err(Serialization)
    else
      var locEnd := 10 + GetU16(body[8..10]);
      if locEnd + 4 > |body| then Err(Serialization)
      else
        match ParsedRanges(body[locEnd + 4..], GetU32(body[locEnd..locEnd + 4]))
        case Err(e) => Err(e)
        case Ok(ms) => Ok(QueueEntry(GetU64(body[..8]), body[10..locEnd], ms))
  }

  /** One entry off the front of `s`, and what follows it. */
  function ParsedEntry(s: Bytes): (r: Result<(QueueEntry, Bytes)>)
    ensures r.Ok? ==> |r.value.1| + ENTRY_LEN_SIZE + BODY_FIXED_SIZE <= |s|
  {
    if |s| < ENTRY_LEN_SIZE then Err(Serialization)
    else
      var end := ENTRY_LEN_SIZE + GetU32(s[..ENTRY_LEN_SIZE]);
      if end > |s| then Err(Serialization)
      else
        match ParsedBody(s[ENTRY_LEN_SIZE..end])
        case Err(e) => Err(e)
        case Ok(entry) => Ok((entry, s[end..]))
  }

  /** `count` entries off the front of `s`, and what follows them. */
  function ParsedEntries(s: Bytes, count: nat): Result<(seq<QueueEntry>, Bytes)> {
    if count == 0 then Ok(([], s))
    else
      match ParsedEntry(s)
      case Err(e) => Err(e)
      case Ok((entry, rest)) => Following([entry], ParsedEntries(rest, count - 1))
  }

  function Following(es: seq<QueueEntry>, r: Result<(seq<QueueEntry>, Bytes)>): Result<(seq<QueueEntry>, Bytes)> {
    match r
    case Err(e) => Err(e)
    case Ok((more, rest)) => Ok((es + more, rest))
  }

  // ---------- round trips ----------

  lemma RangeRoundTrip(m: QueueMetadata, rest: Bytes)
    requires |m.payload| < U32_LIMIT
    ensures ParsedRange(EncodedRange(m) + rest) == Ok((m, rest))
  {
    hide PutU64, PutU32;
    var a, b, c := PutU32(m.startIndex), PutU64(I64ToU64(m.ingestionTimeMs)), PutU32(|m.payload|);
    var s := a + b + c + m.payload + rest;
    assert EncodedRange(m) + rest == s;
    assert s[..4] == a && s[4..12] == b && s[12..16] == c;
    assert s[16..16 + |m.payload|] == m.payload && s[16 + |m.payload|..] == rest;
  }

  lemma {:induction false} RangesRoundTrip(ms: seq<QueueMetadata>, rest: Bytes)
    requires PayloadsFit(ms)
    ensures ParsedRanges(EncodedRanges(ms) + rest, |ms|) == Ok(ms)
  {
    hide ParsedRange, EncodedRange;
    if ms == [] {
    } else {
      var tail := EncodedRanges(ms[1..]) + rest;
      RangeRoundTrip(ms[0], tail);
      RangesRoundTrip(ms[1..], rest);
      Reassociate(EncodedRange(ms[0]), EncodedRanges(ms[1..]), rest);
      HeadAndTail(ms);
    }
  }

  lemma BodyRoundTrip(e: QueueEntry)
    requires Encodable(e.location, e.metadata) && |e.metadata| < U32_LIMIT
    ensures ParsedBody(EncodedBody(e)) == Ok(e)
  {
    hide ParsedRanges, EncodedRanges, PutU64, PutU16, PutU32;
    var a, b, c, d := PutU64(e.sequence), PutU16(|e.location|), PutU32(|e.metadata|), EncodedRanges(e.metadata);
    var body := a + b + e.location + c + d;
    var locEnd := 10 + |e.location|;
    assert EncodedBody(e) == body;
    assert body[..8] == a && body[8..10] == b && body[10..locEnd] == e.location;
    assert body[locEnd..locEnd + 4] == c && body[locEnd + 4..] == d;
    RangesRoundTrip(e.metadata, []);
    assert d + [] == d;
  }

  lemma EntryRoundTrip(e: QueueEntry, rest: Bytes)
    requires Encodable(e.location, e.metadata) && BodyFits(e.location, e.metadata)
    ensures ParsedEntry(EncodedEntry(e) + rest) == Ok((e, rest))
  {
    hide ParsedBody, EncodedBody, PutU32, EncodedRanges;
    BodyRoundTrip(e);
    BodyLength(e);
    var body := EncodedBody(e);
    var head := PutU32(|body|);
    var s := head + body + rest;
    assert s[..4] == head && s[4..4 + |body|] == body && s[4 + |body|..] == rest;
  }

  lemma BodyLength(e: QueueEntry)
    requires Encodable(e.location, e.metadata)
    ensures |EncodedBody(e)| == BODY_FIXED_SIZE + |e.location| + |EncodedRanges(e.metadata)|
  {
    hide EncodedRanges, PutU64, PutU16, PutU32;
  }

  /** An encoded entry reads back, ending where it was written to, exactly when its body length
      fits the 32-bit prefix, which `encodeQueueEntry` does not check. */
  lemma EntryRoundTripIff(e: QueueEntry)
    requires Encodable(e.location, e.metadata)
    ensures ParsedEntry(EncodedEntry(e)) == Ok((e, [])) <==> BodyFits(e.location, e.metadata)
  {
    var s, body := EncodedEntry(e), EncodedBody(e);
    if BodyFits(e.location, e.metadata) {
      EntryRoundTrip(e, []);
      assert s + [] == s;
    } else {
      assert s[..4] == PutU32(|body| % U32_LIMIT);
      assert ENTRY_LEN_SIZE + GetU32(s[..4]) < |s|;
    }
  }

  predicate AllFit(es: seq<QueueEntry>) {
    AllEncodable(es) && forall i :: 0 <= i < |es| ==> BodyFits(es[i].location, es[i].metadata)
  }

  lemma {:induction false} EntriesRoundTrip(es: seq<QueueEntry>, rest: Bytes)
    requires AllFit(es)
    ensures ParsedEntries(EncodedEntries(es) + rest, |es|) == Ok((es, rest))
  {
    hide ParsedEntry, EncodedEntry;
    if es == [] {
      assert [] + rest == rest;
    } else {
      var tail := EncodedEntries(es[1..]) + rest;
      EntryRoundTrip(es[0], tail);
      EntriesRoundTrip(es[1..], rest);
      Reassociate(EncodedEntry(es[0]), EncodedEntries(es[1..]), rest);
      HeadAndTail(es);
    }
  }

  // ---------- parsing is local ----------

  /** Reading an entry does not look past its end. */
  lemma ParsedEntryExtends(s: Bytes, more: Bytes)
    requires ParsedEntry(s).Ok?
    ensures ParsedEntry(s + more) == Ok((ParsedEntry(s).value.0, ParsedEntry(s).value.1 + more))
  {
    hide ParsedBody, GetU32;
    var end := ENTRY_LEN_SIZE + GetU32(s[..ENTRY_LEN_SIZE]);
    var t := s + more;
    assert t[..ENTRY_LEN_SIZE] == s[..ENTRY_LEN_SIZE];
    assert t[ENTRY_LEN_SIZE..end] == s[ENTRY_LEN_SIZE..end];
    assert t[end..] == s[end..] + more;
  }

  lemma FollowingTwice(a: seq<QueueEntry>, b: seq<QueueEntry>, r: Result<(seq<QueueEntry>, Bytes)>)
    ensures Following(a, Following(b, r)) == Following(a + b, r)
  {
    if r.Ok? {
      assert a + (b + r.value.0) == (a + b) + r.value.0;
    }
  }

  lemma {:induction false} ParsedEntriesExtend(s: Bytes, count: nat, more: Bytes, extra: nat)
    requires ParsedEntries(s, count).Ok?
    ensures var (es, rest) := ParsedEntries(s, count).value;
            ParsedEntries(s + more, count + extra) == Following(es, ParsedEntries(rest + more, extra))
    decreases count
  {
    hide ParsedEntry;
    if count == 0 {
      var r := ParsedEntries(s + more, extra);
      assert r.Ok? ==> [] + r.value.0 == r.value.0;
    } else {
      var (entry, rest) := ParsedEntry(s).value;
      ParsedEntryExtends(s, more);
      ParsedEntriesExtend(rest, count - 1, more, extra);
      var (es, left) := ParsedEntries(rest, count - 1).value;
      FollowingTwice([entry], es, ParsedEntries(left + more, extra));
    }
  }

  /** Every entry that parses takes at least 18 bytes, so each one ends strictly after it starts. */
  lemma {:induction false} ParsedEntriesSize(s: Bytes, count: nat)
    requires ParsedEntries(s, count).Ok?
    ensures var (es, rest) := ParsedEntries(s, count).value;
            |es| == count && 18 * count + |rest| <= |s|
  {
    if count == 0 {
    } else {
      ParsedEntriesSize(ParsedEntry(s).value.1, count - 1);
    }
  }

  // ---------- the code's loops ----------

  method EncodeQueueEntry(e: QueueEntry) returns (r: Result<Bytes>)
    ensures r == if Encodable(e.location, e.metadata) then Ok(EncodedEntry(e)) else Err(InvalidInput)
    ensures r.Ok? <==>
              |e.location| <= 65535 && forall i :: 0 <= i < |e.metadata| ==> |e.metadata[i].payload| <= 4294967295
  {
    if |e.location| >= U16_LIMIT {
      return Err(InvalidInput);
    }
    var metadataSize := 4;
    for i := 0 to |e.metadata|
      invariant PayloadsFit(e.metadata[..i])
      invariant metadataSize == 4 + |EncodedRanges(e.metadata)| - |EncodedRanges(e.metadata[i..])|
    {
      if |e.metadata[i].payload| >= U32_LIMIT {
        return Err(InvalidInput);
      }
      metadataSize := metadataSize + RANGE_FIXED_SIZE + |e.metadata[i].payload|;
      assert e.metadata[i..][1..] == e.metadata[i + 1..];
    }
    assert e.metadata[..|e.metadata|] == e.metadata;
    var entryBodyLen := 10 + |e.location| + metadataSize;
    var ranges := WriteRanges(e.metadata);
    assert entryBodyLen == |EncodedBody(e)|;
    var buf := PutU32(entryBodyLen % U32_LIMIT);
    buf := buf + (PutU64(e.sequence) + PutU16(|e.location|) + e.location
                  + PutU32(|e.metadata| % U32_LIMIT) + ranges);
    return Ok(buf);
  }

  method WriteRanges(ms: seq<QueueMetadata>) returns (buf: Bytes)
    ensures buf == EncodedRanges(ms)
  {
    hide EncodedRange;
    buf := [];
    for i := 0 to |ms|
      invariant EncodedRanges(ms) == buf + EncodedRanges(ms[i..])
    {
      assert ms[i..][1..] == ms[i + 1..];
      assert buf + (EncodedRange(ms[i]) + EncodedRanges(ms[i + 1..])) ==
          buf + EncodedRange(ms[i]) + EncodedRanges(ms[i + 1..]);
      buf := buf + EncodedRange(ms[i]);
    }
  }

  lemma ParsedRangesStep(data: Bytes, offset: nat, end: nat, count: nat, done: seq<QueueMetadata>)
    requires offset <= end <= |data| && count > 0
    ensures var s := data[offset..end];
            After(done, ParsedRanges(s, count))
              == match ParsedRange(s)
                 case Err(e) => Err(e)
                 case Ok((m, rest)) => After(done + [m], ParsedRanges(rest, count - 1))
  {
    hide ParsedRange;
    var s := data[offset..end];
    match ParsedRange(s)
    case Err(_) =>
    case Ok((m, rest)) => AfterAfter(done, [m], ParsedRanges(rest, count - 1));
  }

  lemma ParsedRangeAt(data: Bytes, offset: nat, end: nat)
    requires offset + RANGE_FIXED_SIZE <= end <= |data|
    ensures var s := data[offset..end];
            var next := offset + RANGE_FIXED_SIZE + GetU32(data[offset + 12..offset + 16]);
            ParsedRange(s)
              == if next > end then Err(Serialization)
                 else Ok((QueueMetadata(GetU32(data[offset..offset + 4]),
                     U64ToI64(GetU64(data[offset + 4..offset + 12])),
                                        data[offset + 16..next]), data[next..end]))
  {
    hide GetU32, GetU64;
    var s := data[offset..end];
    var next := offset + RANGE_FIXED_SIZE + GetU32(data[offset + 12..offset + 16]);
    SliceOfSlice(data, offset, end, 0, 4);
    SliceOfSlice(data, offset, end, 4, 12);
    SliceOfSlice(data, offset, end, 12, 16);
    if next <= end {
      SliceOfSlice(data, offset, end, 16, next - offset);
      SliceOfSlice(data, offset, end, next - offset, end - offset);
    }
  }

  method ReadRanges(data: Bytes, start: nat, entryEnd: nat, count: nat) returns (r: Result<seq<QueueMetadata>>)
    requires start <= entryEnd <= |data|
    ensures r == ParsedRanges(data[start..entryEnd], count)
  {
    hide GetU32, GetU64, ParsedRange;
    var metadata: seq<QueueMetadata> := [];
    var offset := start;
    ghost var all := ParsedRanges(data[start..entryEnd], count);
    assert all.Ok? ==> [] + all.value == all.value;
    for j := 0 to count
      invariant start <= offset <= entryEnd
      invariant all == After(metadata, ParsedRanges(data[offset..entryEnd], count - j))
    {
      ParsedRangesStep(data, offset, entryEnd, count - j, metadata);
      if offset + RANGE_FIXED_SIZE > entryEnd {
        ShortRange(data[offset..entryEnd]);
        return Err(Serialization);
      }
      ParsedRangeAt(data, offset, entryEnd);
      var startIndex := GetU32(data[offset..offset + 4]);
      var ingestionTimeMs := U64ToI64(GetU64(data[offset + 4..offset + 12]));
      var mLen := GetU32(data[offset + 12..offset + 16]);
      offset := offset + RANGE_FIXED_SIZE;
      if offset + mLen > entryEnd {
        return Err(Serialization);
      }
      metadata := metadata + [QueueMetadata(startIndex, ingestionTimeMs, data[offset..offset + mLen])];
      offset := offset + mLen;
    }
    assert metadata + [] == metadata;
    return Ok(metadata);
  }

  lemma ShortRange(s: Bytes)
    requires |s| < RANGE_FIXED_SIZE
    ensures ParsedRange(s) == Err(Serialization)
  {}

  /** One entry at `offset`. The sequence and location length are read before the entry is known
      to be long enough to hold them; the footer behind `end` keeps those reads in bounds. */
  method DecodeQueueEntry(data: Bytes, start: nat, end: nat) returns (r: Result<(QueueEntry, nat)>)
    requires start <= end && end + MANIFEST_FOOTER_SIZE <= |data|
    ensures match ParsedEntry(data[start..end])
            case Ok((e, rest)) => r == Ok((e, end - |rest|))
            case Err(e) => r == Err(e)
    ensures r.Ok? ==> start + 18 <= r.value.1 <= end && ParsedEntry(data[start..end]).value.1 == data[r.value.1..end]
  {
    hide GetU32, GetU64, GetU16, ParsedRanges;
    var offset := start;
    ghost var s := data[start..end];
    if offset + ENTRY_LEN_SIZE > end {
      return Err(Serialization);
    }
    var entryLen := GetU32(data[offset..offset + ENTRY_LEN_SIZE]);
    assert s[..ENTRY_LEN_SIZE] == data[offset..offset + ENTRY_LEN_SIZE];
    offset := offset + ENTRY_LEN_SIZE;
    if offset + entryLen > end {
      return Err(Serialization);
    }
    var entryEnd := offset + entryLen;
    ghost var body := data[offset..entryEnd];
    SliceOfSlice(data, start, end, ENTRY_LEN_SIZE, ENTRY_LEN_SIZE + entryLen);
    SliceOfSlice(data, start, end, ENTRY_LEN_SIZE + entryLen, end - start);
    var sequence := GetU64(data[offset..offset + 8]);
    var locLen := GetU16(data[offset + 8..offset + 10]);
    var locStart := offset + 10;
    if locStart + locLen + 4 > entryEnd {
      if entryLen >= BODY_FIXED_SIZE {
        SliceOfSlice(data, offset, entryEnd, 8, 10);
      }
      return Err(Serialization);
    }
    ParsedBodyAt(data, offset, entryEnd);
    var location := data[locStart..locStart + locLen];
    var metadataCount := GetU32(data[locStart + locLen..locStart + locLen + 4]);
    var metadata := ReadRanges(data, locStart + locLen + 4, entryEnd, metadataCount);
    match metadata {
      case Err(e) => return Err(e);
      case Ok(ms) => return Ok((QueueEntry(sequence, location, ms), entryEnd));
    }
  }

  lemma ParsedBodyAt(data: Bytes, offset: nat, end: nat)
    requires offset + BODY_FIXED_SIZE <= end <= |data|
    ensures var locStart := offset + 10;
            var locEnd := locStart + GetU16(data[offset + 8..locStart]);
            locEnd + 4 <= end ==>
              ParsedBody(data[offset..end])
                == match ParsedRanges(data[locEnd + 4..end], GetU32(data[locEnd..locEnd + 4]))
                   case Err(e) => Err(e)
                   case Ok(ms) => Ok(QueueEntry(GetU64(data[offset..offset + 8]), data[locStart..locEnd], ms))
  {
    hide GetU32, GetU64, GetU16, ParsedRanges;
    var body := data[offset..end];
    var locStart := offset + 10;
    var locEnd := locStart + GetU16(data[offset + 8..locStart]);
    SliceOfSlice(data, offset, end, 8, 10);
    if locEnd + 4 <= end {
      SliceOfSlice(data, offset, end, 0, 8);
      SliceOfSlice(data, offset, end, 10, locEnd - offset);
      SliceOfSlice(data, offset, end, locEnd - offset, locEnd - offset + 4);
      SliceOfSlice(data, offset, end, locEnd - offset + 4, end - offset);
    }
  }

  function FooterStart(data: Bytes): nat
    requires |data| >= MANIFEST_FOOTER_SIZE
  {
    |data| - MANIFEST_FOOTER_SIZE
  }

  function CountField(data: Bytes): nat
    requires |data| >= MANIFEST_FOOTER_SIZE
  {
    GetU32(data[FooterStart(data)..FooterStart(data) + 4])
  }

  /** The entries a reader of the manifest sees. */
  function DecodedEntries(data: Bytes): Result<seq<QueueEntry>> {
    if |data| < MANIFEST_FOOTER_SIZE then Err(Serialization)
    else
      match ParsedEntries(data[..FooterStart(data)], CountField(data))
      case Err(e) => Err(e)
      case Ok((es, _)) => Ok(es)
  }

  /** Total: no byte string makes it read out of bounds, each entry ends at least 18 bytes after the
      one before it, and so the count a footer can claim is bounded by the bytes in front of it. */
  method DecodeManifestEntries(data: Bytes) returns (r: Result<seq<QueueEntry>>)
    ensures r == DecodedEntries(data)
    ensures r.Ok? ==> |data| >= MANIFEST_FOOTER_SIZE && |r.value| == CountField(data)
                      && 18 * |r.value| <= FooterStart(data)
  {
    hide ParsedEntry, GetU32, CountField;
    if |data| < MANIFEST_FOOTER_SIZE {
      return Err(Serialization);
    }
    var footerStart := FooterStart(data);
    var count := CountField(data);
    var offset := 0;
    var entries: seq<QueueEntry> := [];
    ghost var all := ParsedEntries(data[..footerStart], count);
    assert data[0..footerStart] == data[..footerStart];
    assert all.Ok? ==> [] + all.value.0 == all.value.0;
    for i := 0 to count
      invariant |entries| == i
      invariant 18 * i <= offset <= footerStart
      invariant all == Following(entries, ParsedEntries(data[offset..footerStart], count - i))
    {
      var one := DecodeQueueEntry(data, offset, footerStart);
      ParsedEntriesStep(data[offset..footerStart], count - i, entries);
      match one {
        case Err(e) => return Err(e);
        case Ok((entry, newOffset)) =>
          entries := entries + [entry];
          offset := newOffset;
      }
    }
    assert entries + [] == entries;
    return Ok(entries);
  }

  lemma ParsedEntriesStep(s: Bytes, count: nat, done: seq<QueueEntry>)
    requires count > 0
    ensures Following(done, ParsedEntries(s, count))
         == match ParsedEntry(s)
            case Err(e) => Err(e)
            case Ok((entry, rest)) => Following(done + [entry], ParsedEntries(rest, count - 1))
  {
    hide ParsedEntry;
    match ParsedEntry(s)
    case Err(_) =>
    case Ok((entry, rest)) => FollowingTwice(done, [entry], ParsedEntries(rest, count - 1));
  }
}
