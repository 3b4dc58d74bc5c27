/** The data-object format of buffer/batch.go: length-prefixed records, optionally compressed,
    followed by a 7-byte footer. */
module BatchCodec {
  import opened Wrappers
  import opened Bytes

  const ENTRY_LEN_SIZE: nat := 4
  const FOOTER_SIZE: nat := 7
  const BATCH_VERSION: nat := 1
  const COMPRESSION_NONE: byte := 0
  const COMPRESSION_ZSTD: byte := 1

  /** The zstd library, as two functions: `None` is its error result. */
  datatype Zstd = Zstd(compress: Bytes -> Option<Bytes>, decompress: Bytes -> Option<Bytes>)

  /** All that is assumed of zstd: what was compressed decompresses to itself. */
  ghost predicate Lossless(z: Zstd) {
    forall b: Bytes :: z.compress(b).Some? ==> z.decompress(z.compress(b).value) == Some(b)
  }

  predicate EntriesFit(entries: seq<Bytes>) {
    forall i :: 0 <= i < |entries| ==> |entries[i]| < U32_LIMIT
  }

  /** Payload bytes in a list of entries. */
  function TotalLength(entries: seq<Bytes>): nat {
    if entries == [] then 0 else TotalLength(entries[..|entries| - 1]) + |entries[|entries| - 1]|
  }

  /** The uncompressed record block. */
  function Records(entries: seq<Bytes>): Bytes
    requires EntriesFit(entries)
  {
    if entries == [] then []
    else PutU32(|entries[0]|) + entries[0] + Records(entries[1..])
  }

  function Footer(compression: byte, count: nat): (f: Bytes)
    ensures |f| == FOOTER_SIZE
    ensures f[0] == compression
    ensures GetU32(f[1..5]) == count % U32_LIMIT
    ensures GetU16(f[5..7]) == BATCH_VERSION
  {
    var c := PutU32(count % U32_LIMIT);
    var v := PutU16(BATCH_VERSION);
    var f := [compression] + c + v;
    assert f[1..5] == c && f[5..7] == v;
    f
  }

  function Encoded(z: Zstd, entries: seq<Bytes>, compression: byte): Result<Bytes> {
    if !EntriesFit(entries) then Err(InvalidInput)
    else if compression == COMPRESSION_NONE then
      Ok(Records(entries) + Footer(compression, |entries|))
    else if compression == COMPRESSION_ZSTD then
      match z.compress(Records(entries))
      case Some(block) => Ok(block + Footer(compression, |entries|))
      case None => Err(Serialization)
    else Err(Serialization)
  }

  /** `count` records read off the front of `s`; what follows them is not looked at. */
  function Parsed(s: Bytes, count: nat): (r: Result<seq<Bytes>>)
    ensures r.Ok? ==> |r.value| == count
  {
    if count == 0 then Ok([])
    else if |s| < ENTRY_LEN_SIZE then Err(Serialization)
    else
      var len := GetU32(s[..ENTRY_LEN_SIZE]);
      if ENTRY_LEN_SIZE + len > |s| then Err(Serialization)
      else After([s[ENTRY_LEN_SIZE..ENTRY_LEN_SIZE + len]], Parsed(s[ENTRY_LEN_SIZE + len..], count - 1))
  }

  /** The answer once `done` has been read and `count` records are due at `offset`. */
  function Resumed(data: Bytes, offset: nat, count: nat, done: seq<Bytes>): Result<seq<Bytes>>
    requires offset <= |data|
  {
    After(done, Parsed(data[offset..], count))
  }

  lemma ResumedEnds(data: Bytes, offset: nat, count: nat, done: seq<Bytes>)
    requires offset <= |data|
    ensures Resumed(data, 0, count, []) == Parsed(data, count)
    ensures Resumed(data, offset, 0, done) == Ok(done)
  {
    assert data[0..] == data;
    var all := Parsed(data, count);
    assert all.Ok? ==> [] + all.value == all.value;
    assert done + [] == done;
  }

  lemma ResumedStep(data: Bytes, offset: nat, count: nat, done: seq<Bytes>)
    requires offset <= |data| && count > 0
    ensures offset + ENTRY_LEN_SIZE > |data| ==> Resumed(data, offset, count, done) == Err(Serialization)
    ensures offset + ENTRY_LEN_SIZE <= |data| ==>
      var body := offset + ENTRY_LEN_SIZE;
      var end := body + GetU32(data[offset..body]);
      Resumed(data, offset, count, done)
        == if end > |data| then Err(Serialization) else Resumed(data, end, count - 1, done + [data[body..end]])
  {
    var s := data[offset..];
    var body := offset + ENTRY_LEN_SIZE;
    if body <= |data| {
      var end := body + GetU32(data[offset..body]);
      assert s[..ENTRY_LEN_SIZE] == data[offset..body];
      if end <= |data| {
        assert s[ENTRY_LEN_SIZE..end - offset] == data[body..end];
        assert s[end - offset..] == data[end..];
        AfterAfter(done, [data[body..end]], Parsed(data[end..], count - 1));
      }
    }
  }

  function Decoded(z: Zstd, data: Bytes): Result<seq<Bytes>> {
    if |data| < FOOTER_SIZE then Err(Serialization)
    else
      var footerStart := |data| - FOOTER_SIZE;
      var footer := data[footerStart..];
      if GetU16(footer[5..7]) != BATCH_VERSION then Err(Serialization)
      else if footer[0] == COMPRESSION_NONE then Parsed(data[..footerStart], GetU32(footer[1..5]))
      else if footer[0] == COMPRESSION_ZSTD then
        match z.decompress(data[..footerStart])
        case Some(block) => Parsed(block, GetU32(footer[1..5]))
        case None => Err(Serialization)
      else Err(Serialization)
  }

  lemma RecordsStep(buf: Bytes, entries: seq<Bytes>, i: nat)
    requires i < |entries| && EntriesFit(entries)
    ensures buf + Records(entries[i..]) == buf + PutU32(|entries[i]|) + entries[i] + Records(entries[i + 1..])
  {
    assert entries[i..][1..] == entries[i + 1..];
  }

  // ---------- the code's loops ----------

  method WriteRecords(entries: seq<Bytes>) returns (buf: Bytes)
    requires EntriesFit(entries)
    ensures buf == Records(entries)
  {
    buf := [];
    for i := 0 to |entries|
      invariant Records(entries) == buf + Records(entries[i..])
    {
      RecordsStep(buf, entries, i);
      buf := buf + PutU32(|entries[i]|);
      buf := buf + entries[i];
    }
  }

  method EncodeBatch(z: Zstd, entries: seq<Bytes>, compression: byte) returns (r: Result<Bytes>)
    ensures r == Encoded(z, entries, compression)
  {
    var dataSize := 0;
    for i := 0 to |entries|
      invariant EntriesFit(entries[..i])
    {
      if |entries[i]| >= U32_LIMIT {
        return Err(InvalidInput);
      }
      dataSize := dataSize + ENTRY_LEN_SIZE + |entries[i]|;
    }
    assert entries[..|entries|] == entries;
    if compression == COMPRESSION_NONE {
      var buf := WriteRecords(entries);
      return Ok(buf + Footer(compression, |entries|));
    } else if compression == COMPRESSION_ZSTD {
      var entryBuf := WriteRecords(entries);
      match z.compress(entryBuf) {
        case None => return Err(Serialization);
        case Some(block) => return Ok(block + Footer(compression, |entries|));
      }
    } else {
      return Err(Serialization);
    }
  }

  /** The record loop: every slice is in bounds, whatever the bytes and the count are. */
  method ReadRecords(entryData: Bytes, recordCount: nat) returns (r: Result<seq<Bytes>>)
    ensures r == Parsed(entryData, recordCount)
  {
    var entries: seq<Bytes> := [];
    var offset := 0;
    ResumedEnds(entryData, 0, recordCount, []);
    for i := 0 to recordCount
      invariant 0 <= offset <= |entryData|
      invariant Parsed(entryData, recordCount) == Resumed(entryData, offset, recordCount - i, entries)
    {
      ResumedStep(entryData, offset, recordCount - i, entries);
      if offset + ENTRY_LEN_SIZE > |entryData| {
        return Err(Serialization);
      }
      var entryLen := GetU32(entryData[offset..offset + ENTRY_LEN_SIZE]);
      offset := offset + ENTRY_LEN_SIZE;
      if offset + entryLen > |entryData| {
        return Err(Serialization);
      }
      entries := entries + [entryData[offset..offset + entryLen]];
      offset := offset + entryLen;
    }
    ResumedEnds(entryData, offset, recordCount, entries);
    return Ok(entries);
  }

  method DecodeBatch(z: Zstd, data: Bytes) returns (r: Result<seq<Bytes>>)
    ensures r == Decoded(z, data)
  {
    if |data| < FOOTER_SIZE {
      return Err(Serialization);
    }
    var footerStart := |data| - FOOTER_SIZE;
    var footer := data[footerStart..];
    var recordCount := GetU32(footer[1..5]);
    if GetU16(footer[5..7]) != BATCH_VERSION {
      return Err(Serialization);
    }
    var entryData := data[..footerStart];
    if footer[0] == COMPRESSION_ZSTD {
      match z.decompress(entryData) {
        case None => return Err(Serialization);
        case Some(block) => entryData := block;
      }
    } else if footer[0] != COMPRESSION_NONE {
      return Err(Serialization);
    }
    r := ReadRecords(entryData, recordCount);
  }

  // ---------- what the format promises ----------

  lemma {:induction false} PrefixParses(s: Bytes, entries: seq<Bytes>)
    requires EntriesFit(entries) && Records(entries) <= s
    ensures Parsed(s, |entries|) == Ok(entries)
  {
    if entries == [] {
    } else {
      var first, rest := entries[0], entries[1..];
      var head := PutU32(|first|);
      var end := ENTRY_LEN_SIZE + |first|;
      var whole := head + first + Records(rest);
      assert s[..|whole|] == whole;
      assert s[..ENTRY_LEN_SIZE] == whole[..ENTRY_LEN_SIZE] == head;
      assert s[ENTRY_LEN_SIZE..end] == whole[ENTRY_LEN_SIZE..end] == first;
      assert Records(rest) == whole[end..] <= s[end..];
      PrefixParses(s[end..], rest);
      assert [first] + rest == entries;
    }
  }

  lemma {:induction false} ParsesOnlyPrefix(s: Bytes, entries: seq<Bytes>)
    requires Parsed(s, |entries|) == Ok(entries)
    ensures EntriesFit(entries) && Records(entries) <= s
  {
    if entries == [] {
    } else {
      var first, rest := entries[0], entries[1..];
      var end := ENTRY_LEN_SIZE + GetU32(s[..ENTRY_LEN_SIZE]);
      var tail := s[end..];
      var parsed := Parsed(tail, |rest|).value;
      assert entries == [s[ENTRY_LEN_SIZE..end]] + parsed;
      assert first == s[ENTRY_LEN_SIZE..end] && rest == parsed;
      ParsesOnlyPrefix(tail, rest);
      assert entries == [first] + rest;
      assert s == s[..ENTRY_LEN_SIZE] + first + tail;
    }
  }

  /** Exactly the strings that start with the records of `entries` parse to `entries`. */
  lemma ParsedIffPrefix(s: Bytes, entries: seq<Bytes>)
    ensures Parsed(s, |entries|) == Ok(entries) <==> EntriesFit(entries) && Records(entries) <= s
  {
    if Parsed(s, |entries|) == Ok(entries) {
      ParsesOnlyPrefix(s, entries);
    }
    if EntriesFit(entries) && Records(entries) <= s {
      PrefixParses(s, entries);
    }
  }

  /** Only the block and the footer matter to decoding. */
  lemma DecodedParts(z: Zstd, block: Bytes, compression: byte, count: nat)
    ensures Decoded(z, block + Footer(compression, count))
         == if compression == COMPRESSION_NONE then Parsed(block, count % U32_LIMIT)
            else if compression == COMPRESSION_ZSTD && z.decompress(block).Some?
            then Parsed(z.decompress(block).value, count % U32_LIMIT)
            else Err(Serialization)
  {
    var footer := Footer(compression, count);
    var data := block + footer;
    assert data[..|data| - FOOTER_SIZE] == block && data[|data| - FOOTER_SIZE..] == footer;
  }

  /** A batch that encodes decodes to itself exactly when its record count fits the footer's
      32 bits, which `EncodeBatch` does not check. */
  lemma BatchRoundTrip(z: Zstd, entries: seq<Bytes>, compression: byte)
    requires Lossless(z)
    requires Encoded(z, entries, compression).Ok?
    ensures Decoded(z, Encoded(z, entries, compression).value) == Ok(entries) <==> |entries| < U32_LIMIT
  {
    hide Records, Parsed, Decoded, Footer;
    var records := Records(entries);
    var block := if compression == COMPRESSION_NONE then records else z.compress(records).value;
    DecodedParts(z, block, compression, |entries|);
    PrefixParses(records, entries);
  }

  /** The smallest batch that breaks the round trip: 2^32 empty records come back as none. */
  lemma RecordCountWraps(z: Zstd)
    ensures var entries: seq<Bytes> := seq(U32_LIMIT, _ => []);
            && Encoded(z, entries, COMPRESSION_NONE).Ok?
            && Decoded(z, Encoded(z, entries, COMPRESSION_NONE).value) == Ok([])
  {
    var entries: seq<Bytes> := seq(U32_LIMIT, _ => []);
    DecodedParts(z, Records(entries), COMPRESSION_NONE, |entries|);
  }

  /** Decoding has no other answers: a plain batch decodes to `entries` exactly when its block
      starts with their records and its footer counts them. */
  lemma PlainDecodesIff(z: Zstd, block: Bytes, footer: Bytes, entries: seq<Bytes>)
    requires |footer| == FOOTER_SIZE && footer[0] == COMPRESSION_NONE
    ensures Decoded(z, block + footer) == Ok(entries)
       <==> GetU16(footer[5..7]) == BATCH_VERSION && GetU32(footer[1..5]) == |entries|
            && EntriesFit(entries) && Records(entries) <= block
  {
    var data := block + footer;
    assert data[..|data| - FOOTER_SIZE] == block && data[|data| - FOOTER_SIZE..] == footer;
    ParsedIffPrefix(block, entries);
  }

  lemma {:induction false} TotalLengthConcat(a: seq<Bytes>, b: seq<Bytes>)
    ensures TotalLength(a + b) == TotalLength(a) + TotalLength(b)
  {
    if b == [] {
      assert a + b == a;
    } else {
      TotalLengthConcat(a, b[..|b| - 1]);
      assert (a + b)[..|a + b| - 1] == a + b[..|b| - 1];
    }
  }

  lemma {:induction false} RecordsLength(entries: seq<Bytes>)
    requires EntriesFit(entries)
    ensures |Records(entries)| == TotalLength(entries) + ENTRY_LEN_SIZE * |entries|
  {
    if entries == [] {
    } else {
      RecordsLength(entries[1..]);
      TotalLengthConcat([entries[0]], entries[1..]);
      assert [entries[0]] + entries[1..] == entries;
      assert TotalLength([entries[0]]) == |entries[0]|;
    }
  }

  /** The size of an uncompressed data object: what the byte budget charges for a batch,
      without its metadata. */
  lemma PlainEncodedLength(z: Zstd, entries: seq<Bytes>)
    requires EntriesFit(entries)
    ensures Encoded(z, entries, COMPRESSION_NONE).Ok?
    ensures |Encoded(z, entries, COMPRESSION_NONE).value|
         == TotalLength(entries) + ENTRY_LEN_SIZE * |entries| + FOOTER_SIZE
  {
    RecordsLength(entries);
  }
}
