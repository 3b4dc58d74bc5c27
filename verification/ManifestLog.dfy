/** The in-memory manifest of buffer/manifest.go: it keeps the serialized base, collects newly
    encoded entries behind it, and rewrites only the footer. The log it stands for is a list. */
module ManifestLog {
  import opened Wrappers
  import opened Bytes
  import opened ManifestCodec

  /** What a manifest means: the entries in order, the next sequence number, the epoch. */
  datatype Log = Log(entries: seq<QueueEntry>, nextSequence: U64, epoch: U64)

  /** Addition on `uint64`, which wraps. */
  function AdvancedU64(n: U64, k: nat): U64 {
    (n + k) % U64_LIMIT
  }

  lemma AdvancedU64Adds(n: U64, j: nat, k: nat)
    ensures AdvancedU64(AdvancedU64(n, j), k) == AdvancedU64(n, j + k)
    ensures AdvancedU64(n, 0) == n
  {
    var m := AdvancedU64(n, j);
    var q := (n + j) / U64_LIMIT;
    assert n + j + k == (m + k) + q * U64_LIMIT;
  }

  function Numbered(items: seq<EnqueueItem>, first: U64): (es: seq<QueueEntry>)
    ensures |es| == |items|
  {
    if items == [] then []
    else [QueueEntry(first, items[0].location, items[0].metadata)] + Numbered(items[1..], AdvancedU64(first, 1))
  }

  /** List append: the reference the byte-level code is compared with. */
  function Extended(log: Log, items: seq<EnqueueItem>): Log {
    Log(log.entries + Numbered(items, log.nextSequence), AdvancedU64(log.nextSequence, |items|), log.epoch)
  }

  const EMPTY_LOG := Log([], 0, 0)

  // ---------- the byte level ----------

  function FooterBytes(count: U32, nextSequence: U64, epoch: U64): (s: Bytes)
    ensures |s| == MANIFEST_FOOTER_SIZE
  {
    PutU32(count) + PutU64(nextSequence) + PutU64(epoch) + PutU16(MANIFEST_VERSION)
  }

  function SequenceField(data: Bytes): U64
    requires |data| >= MANIFEST_FOOTER_SIZE
  {
    GetU64(data[FooterStart(data) + 4..FooterStart(data) + 12])
  }

  function EpochField(data: Bytes): U64
    requires |data| >= MANIFEST_FOOTER_SIZE
  {
    GetU64(data[FooterStart(data) + 12..FooterStart(data) + 20])
  }

  function VersionField(data: Bytes): nat
    requires |data| >= MANIFEST_FOOTER_SIZE
  {
    GetU16(data[FooterStart(data) + 20..])
  }

  /** `data` is a manifest holding `log`, its entries tiling the area in front of the footer exactly. */
  predicate Holds(data: Bytes, log: Log) {
    && |data| >= MANIFEST_FOOTER_SIZE
    && VersionField(data) == MANIFEST_VERSION
    && SequenceField(data) == log.nextSequence
    && EpochField(data) == log.epoch
    && ParsedEntries(data[..FooterStart(data)], CountField(data)) == Ok((log.entries, []))
  }

  /** The fields of the `manifest` struct. */
  datatype Fields = Fields(data: Bytes, appended: Bytes, appendedCount: nat, nextSequence: U64, epoch: U64)

  function Loaded(data: Bytes): Result<Fields> {
    if |data| < MANIFEST_FOOTER_SIZE then Err(Serialization)
    else if VersionField(data) != MANIFEST_VERSION then Err(Serialization)
    else Ok(Fields(data, [], 0, SequenceField(data), EpochField(data)))
  }

  function EmptyData(): Bytes {
    FooterBytes(0, 0, 0)
  }

  function AppendedOne(f: Fields, item: EnqueueItem): Result<Fields> {
    if !Encodable(item.location, item.metadata) then Err(InvalidInput)
    else
      Ok(f.(appended := f.appended + EncodedEntry(QueueEntry(f.nextSequence, item.location, item.metadata)),
            nextSequence := AdvancedU64(f.nextSequence, 1), appendedCount := f.appendedCount + 1))
  }

  function AppendedAll(f: Fields, items: seq<EnqueueItem>): Result<Fields>
    decreases |items|
  {
    if items == [] then Ok(f)
    else
      match AppendedOne(f, items[0])
      case Err(e) => Err(e)
      case Ok(g) => AppendedAll(g, items[1..])
  }

  function Serialized(f: Fields): Result<Bytes>
    requires |f.data| >= MANIFEST_FOOTER_SIZE
  {
    if f.appended == [] then Ok(f.data)
    else if CountField(f.data) + f.appendedCount >= U32_LIMIT then Err(Serialization)
    else Ok(f.data[..FooterStart(f.data)] + f.appended
            + FooterBytes(CountField(f.data) + f.appendedCount, f.nextSequence, f.epoch))
  }

  /** The bytes one round of `enqueueBatch` writes back: the stored manifest, or the empty one if
      there is none, with `items` appended. */
  function Rewritten(stored: Option<Bytes>, items: seq<EnqueueItem>): Result<Bytes> {
    match Loaded(if stored.Some? then stored.value else EmptyData())
    case Err(e) => Err(e)
    case Ok(f) =>
      match AppendedAll(f, items)
      case Err(e) => Err(e)
      case Ok(g) =>
        AppendedAllKeepsBase(f, items);
        Serialized(g)
  }

  // ---------- lemmas ----------

  lemma FooterFields(area: Bytes, count: U32, nextSequence: U64, epoch: U64)
    ensures var data := area + FooterBytes(count, nextSequence, epoch);
            && |data| >= MANIFEST_FOOTER_SIZE
            && data[..FooterStart(data)] == area
            && CountField(data) == count && SequenceField(data) == nextSequence
            && EpochField(data) == epoch && VersionField(data) == MANIFEST_VERSION
  {
    hide PutU32, PutU64, PutU16;
    var a, b, c, d := PutU32(count), PutU64(nextSequence), PutU64(epoch), PutU16(MANIFEST_VERSION);
    var data := area + FooterBytes(count, nextSequence, epoch);
    var at := FooterStart(data);
    assert data == area + a + b + c + d;
    assert data[at..at + 4] == a && data[at + 4..at + 12] == b;
    assert data[at + 12..at + 20] == c && data[at + 20..] == d;
  }

  lemma EmptyHolds()
    ensures Holds(EmptyData(), EMPTY_LOG)
  {
    FooterFields([], 0, 0, 0);
    assert [] + EmptyData() == EmptyData();
  }

  lemma {:induction false} AppendedAllKeepsBase(f: Fields, items: seq<EnqueueItem>)
    ensures AppendedAll(f, items).Ok? ==> AppendedAll(f, items).value.data == f.data
    decreases |items|
  {
    if items == [] || AppendedOne(f, items[0]).Err? {
    } else {
      AppendedAllKeepsBase(AppendedOne(f, items[0]).value, items[1..]);
    }
  }

  predicate ItemsEncodable(items: seq<EnqueueItem>) {
    forall i :: 0 <= i < |items| ==> Encodable(items[i].location, items[i].metadata)
  }

  predicate ItemsFit(items: seq<EnqueueItem>) {
    forall i :: 0 <= i < |items| ==> BodyFits(items[i].location, items[i].metadata)
  }

  lemma {:induction false} NumberedMatchesItems(items: seq<EnqueueItem>, first: U64)
    ensures ItemsEncodable(items) ==> AllEncodable(Numbered(items, first))
    ensures ItemsEncodable(items) && ItemsFit(items) ==> AllFit(Numbered(items, first))
  {
    hide BodyFits;
    if items == [] {
    } else {
      NumberedMatchesItems(items[1..], AdvancedU64(first, 1));
    }
  }

  lemma {:induction false} NumberedAt(items: seq<EnqueueItem>, first: U64, i: nat)
    requires i < |items|
    ensures Numbered(items, first)[i] == QueueEntry(AdvancedU64(first, i), items[i].location, items[i].metadata)
    decreases i
  {
    hide AdvancedU64;
    AdvancedU64Adds(first, 1, if i > 0 then i - 1 else 0);
    if i == 0 {
    } else {
      NumberedAt(items[1..], AdvancedU64(first, 1), i - 1);
    }
  }

  lemma {:induction false} NumberedConcat(a: seq<EnqueueItem>, b: seq<EnqueueItem>, first: U64)
    ensures Numbered(a + b, first) == Numbered(a, first) + Numbered(b, AdvancedU64(first, |a|))
  {
    hide AdvancedU64;
    AdvancedU64Adds(first, 1, if a == [] then 0 else |a| - 1);
    if a == [] {
      assert a + b == b;
    } else {
      NumberedConcat(a[1..], b, AdvancedU64(first, 1));
      assert (a + b)[1..] == a[1..] + b;
    }
  }

  /** Appending in two goes is appending once. */
  lemma ExtendedTwice(log: Log, a: seq<EnqueueItem>, b: seq<EnqueueItem>)
    ensures Extended(Extended(log, a), b) == Extended(log, a + b)
  {
    hide AdvancedU64, Numbered;
    NumberedConcat(a, b, log.nextSequence);
    AdvancedU64Adds(log.nextSequence, |a|, |b|);
    var x, y := Numbered(a, log.nextSequence), Numbered(b, AdvancedU64(log.nextSequence, |a|));
    assert log.entries + (x + y) == (log.entries + x) + y;
  }

  /** What any number of `append` calls leaves in the struct: all or nothing. */
  lemma {:induction false} AppendedAllIs(f: Fields, items: seq<EnqueueItem>)
    ensures AppendedAll(f, items).Ok? <==> ItemsEncodable(items)
    ensures ItemsEncodable(items) ==>
      && AllEncodable(Numbered(items, f.nextSequence))
      && AppendedAll(f, items).value
         == f.(appended := f.appended + EncodedEntries(Numbered(items, f.nextSequence)),
               nextSequence := AdvancedU64(f.nextSequence, |items|), appendedCount := f.appendedCount + |items|)
    decreases |items|
  {
    hide EncodedEntry, Encodable, AdvancedU64;
    NumberedMatchesItems(items, f.nextSequence);
    AdvancedU64Adds(f.nextSequence, 1, if items == [] then 0 else |items| - 1);
    if items == [] {
      assert f.appended + [] == f.appended;
    } else if AppendedOne(f, items[0]).Ok? {
      var g := AppendedOne(f, items[0]).value;
      AppendedAllIs(g, items[1..]);
      if ItemsEncodable(items) {
        var es := Numbered(items, f.nextSequence);
        assert es[1..] == Numbered(items[1..], g.nextSequence);
        assert f.appended + EncodedEntries(es) == f.appended + EncodedEntry(es[0]) + EncodedEntries(es[1..]);
      }
    }
  }

  lemma {:induction false} EncodedEntriesNonempty(es: seq<QueueEntry>)
    requires AllEncodable(es) && es != []
    ensures EncodedEntries(es) != []
  {
    assert |EncodedEntry(es[0])| >= 4;
  }

  /** Any number of appends, then `toBytes`: if every item encodes and the count still fits 32
      bits, decoding the new bytes gives the old entries followed by the new ones, numbered from the
      old next sequence; the new manifest again tiles exactly, and its footer carries the next
      sequence and the epoch on. Otherwise nothing is produced. */
  lemma AppendRefinesList(data: Bytes, log: Log, items: seq<EnqueueItem>)
    requires Holds(data, log) && ItemsFit(items)
    ensures Rewritten(Some(data), items).Ok?
       <==> ItemsEncodable(items) && (items == [] || |log.entries| + |items| < U32_LIMIT)
    ensures Rewritten(Some(data), items).Ok? ==> Holds(Rewritten(Some(data), items).value, Extended(log, items))
  {
    hide EncodedEntry, Encodable, BodyFits, ParsedEntry, FooterBytes, EncodedEntries, Numbered, CountField,
         SequenceField, EpochField, VersionField;
    var f := Loaded(data).value;
    AppendedAllIs(f, items);
    var area := data[..FooterStart(data)];
    ParsedEntriesSize(area, CountField(data));
    if ItemsEncodable(items) {
      var es := Numbered(items, log.nextSequence);
      var g := AppendedAll(f, items).value;
      assert g.appended == EncodedEntries(es);
      if items == [] {
        EmptyExtension(log, es);
      } else {
        EncodedEntriesNonempty(es);
        var count := CountField(data) + |items|;
        if count < U32_LIMIT {
          NumberedMatchesItems(items, log.nextSequence);
          AreaExtends(area, CountField(data), log.entries, es);
          FooterFields(area + g.appended, count, g.nextSequence, g.epoch);
        }
      }
    }
  }

  lemma EmptyExtension(log: Log, es: seq<QueueEntry>)
    requires es == Numbered([], log.nextSequence)
    ensures es == [] && EncodedEntries(es) == [] && Extended(log, []) == log
  {
    assert log.entries + [] == log.entries;
  }

  lemma AreaExtends(area: Bytes, count: nat, before: seq<QueueEntry>, es: seq<QueueEntry>)
    requires ParsedEntries(area, count) == Ok((before, []))
    requires AllFit(es)
    ensures ParsedEntries(area + EncodedEntries(es), count + |es|) == Ok((before + es, []))
  {
    hide ParsedEntry, EncodedEntry, EncodedEntries, AllEncodable, BodyFits, ParsedEntries;
    var more := EncodedEntries(es);
    ParsedEntriesExtend(area, count, more, |es|);
    EntriesRoundTrip(es, []);
    assert [] + more == more && more + [] == more;
  }

  // ---------- the struct ----------

  // ---------- the bytes written out ----------

  /** The empty manifest: count, next sequence and epoch zero, version 1. */
  lemma EmptyManifestBytes()
    ensures EmptyData() == [0, 0, 0, 0, 0, 0, 0, 0, 0, 0, 0, 0, 0, 0, 0, 0, 0, 0, 0, 0, 1, 0]
  {
    hide PutU16, PutU32, PutU64;
    Put4(0);
    Put8(0);
    Put2(1);
  }

  /** Every manifest rewritten with new entries: the old entries, the new ones, and behind them the new count, the
      next sequence, the epoch and version 1. */
  lemma ManifestBytes(f: Fields)
    requires |f.data| >= 22 && f.appended != []
    ensures var at := |f.data| - 22;
            var count := N4(f.data[at..at + 4]) + f.appendedCount;
            if count >= 4294967296 then Serialized(f) == Err(Serialization)
            else Serialized(f)
                 == Ok(f.data[..at] + f.appended + (B4(count) + B8(f.nextSequence) + B8(f.epoch) + [1, 0]))
  {
    hide PutU16, PutU32, PutU64, GetU32, B4, B8;
    var at := |f.data| - 22;
    GetU32Is(f.data[at..at + 4]);
    if N4(f.data[at..at + 4]) + f.appendedCount < 4294967296 {
      Put4(N4(f.data[at..at + 4]) + f.appendedCount);
    }
    Put8(f.nextSequence);
    Put8(f.epoch);
    Put2(1);
  }

  /** A manifest loads exactly when it ends in version 1 of 22 bytes or more; sequence and epoch are in front of it. */
  lemma LoadedBytes(data: Bytes)
    ensures Loaded(data).Ok? <==> |data| >= 22 && data[|data| - 2] == 1 && data[|data| - 1] == 0
    ensures Loaded(data).Ok? ==>
              Loaded(data).value == Fields(data, [], 0, N8(data[|data| - 18..|data| - 10]),
                                           N8(data[|data| - 10..|data| - 2]))
    ensures Loaded(data).Err? ==> Loaded(data).error == Serialization
  {
    hide GetU16, GetU64, N8;
    if |data| >= 22 {
      GetU16Is(data[|data| - 2..]);
      GetU64Is(data[|data| - 18..|data| - 10]);
      GetU64Is(data[|data| - 10..|data| - 2]);
    }
  }

  lemma EmptyLoads()
    ensures Loaded(EmptyData()) == Ok(Fields(EmptyData(), [], 0, 0, 0))
  {
    hide Loaded, EmptyData;
    EmptyManifestBytes();
    LoadedBytes(EmptyData());
  }

  class Manifest {
    var data: Bytes
    var appended: Bytes
    var appendedCount: nat
    var nextSequence: U64
    var epoch: U64

    function View(): Fields
      reads this
    {
      Fields(data, appended, appendedCount, nextSequence, epoch)
    }

    constructor Empty()
      ensures Ok(View()) == Loaded(EmptyData())
      ensures View() == Fields([0, 0, 0, 0, 0, 0, 0, 0, 0, 0, 0, 0, 0, 0, 0, 0, 0, 0, 0, 0, 1, 0], [], 0, 0, 0)
    {
      hide Loaded, EmptyData;
      EmptyManifestBytes();
      EmptyLoads();
      data, appended, appendedCount, nextSequence, epoch := EmptyData(), [], 0, 0, 0;
    }

    constructor FromFields(f: Fields)
      ensures View() == f
    {
      data, appended, appendedCount, nextSequence, epoch :=
        f.data, f.appended, f.appendedCount, f.nextSequence, f.epoch;
    }

    static method FromBytes(bytes: Bytes) returns (r: Result<Manifest>)
      ensures r.Ok? <==> Loaded(bytes).Ok?
      ensures r.Err? ==> Loaded(bytes) == Err(r.error)
      ensures r.Ok? ==> fresh(r.value) && r.value.View() == Loaded(bytes).value
      ensures r.Ok? <==> |bytes| >= 22 && bytes[|bytes| - 2] == 1 && bytes[|bytes| - 1] == 0
      ensures r.Ok? ==> r.value.nextSequence == N8(bytes[|bytes| - 18..|bytes| - 10])
      ensures r.Ok? ==> r.value.epoch == N8(bytes[|bytes| - 10..|bytes| - 2])
    {
      hide N8, GetU16, GetU64;
      LoadedBytes(bytes);
      if |bytes| == 0 || |bytes| < MANIFEST_FOOTER_SIZE {
        return Err(Serialization);
      }
      var footerStart := |bytes| - MANIFEST_FOOTER_SIZE;
      if GetU16(bytes[|bytes| - 2..]) != MANIFEST_VERSION {
        return Err(Serialization);
      }
      var epoch := GetU64(bytes[footerStart + 12..footerStart + 20]);
      var nextSeq := GetU64(bytes[footerStart + 4..footerStart + 12]);
      var m := new Manifest.FromFields(Fields(bytes, [], 0, nextSeq, epoch));
      return Ok(m);
    }

    method Append(item: EnqueueItem) returns (err: Option<Error>)
      modifies this
      ensures match AppendedOne(old(View()), item)
              case Ok(f) => err == None && View() == f
              case Err(e) => err == Some(e) && View() == old(View())
    {
      var encoded := EncodeQueueEntry(QueueEntry(nextSequence, item.location, item.metadata));
      match encoded {
        case Err(e) => return Some(e);
        case Ok(bytes) =>
          appended := appended + bytes;
          nextSequence := AdvancedU64(nextSequence, 1);
          appendedCount := appendedCount + 1;
          return None;
      }
    }

    method ToBytes() returns (r: Result<Bytes>)
      requires |data| >= MANIFEST_FOOTER_SIZE
      ensures r == Serialized(View())
      ensures var at := |data| - 22;
              var count := N4(data[at..at + 4]) + appendedCount;
              r == if appended == [] then Ok(data)
                   else if count >= 4294967296 then Err(Serialization)
                   else Ok(data[..at] + appended + (B4(count) + B8(nextSequence) + B8(epoch) + [1, 0]))
    {
      hide N4, B4, B8, FooterBytes;
      if appended != [] {
        ManifestBytes(View());
      }
      if |appended| == 0 {
        return Ok(data);
      }
      var prefix := data[..FooterStart(data)];
      var totalCount := CountField(data) + appendedCount;
      if totalCount > U32_LIMIT - 1 {
        return Err(Serialization);
      }
      return Ok(prefix + appended + FooterBytes(totalCount, nextSequence, epoch));
    }
  }
}
