/** Append messages and the accumulator that joins them into a batch (buffer/producer.go,
    `appendMessage` and `batchAccumulator`; buffer/budget.go, `appendByteCost`). */
module Accumulator {
  import opened Bytes
  import BatchCodec
  import opened ManifestCodec

  /** `watcher` identifies the message's DurabilityWatcher. */
  datatype Message = Message(entries: seq<Bytes>, metadata: Bytes, ingestionTimeMs: I64, watcher: nat)

  function MessageCost(m: Message): nat {
    BatchCodec.TotalLength(m.entries) + |m.metadata|
  }

  function CostOf(ms: seq<Message>): nat {
    if ms == [] then 0 else CostOf(ms[..|ms| - 1]) + MessageCost(ms[|ms| - 1])
  }

  function EntriesOf(ms: seq<Message>): seq<Bytes> {
    if ms == [] then [] else EntriesOf(ms[..|ms| - 1]) + ms[|ms| - 1].entries
  }

  /** One metadata range per message; the start index is cut to 32 bits, as `uint32(len(b.entries))` is. */
  function RangesOf(ms: seq<Message>): seq<QueueMetadata> {
    if ms == [] then []
    else
      var earlier, last := ms[..|ms| - 1], ms[|ms| - 1];
      RangesOf(earlier) + [QueueMetadata(|EntriesOf(earlier)| % U32_LIMIT, last.ingestionTimeMs, last.metadata)]
  }

  function WatchersOf(ms: seq<Message>): seq<nat> {
    if ms == [] then [] else WatchersOf(ms[..|ms| - 1]) + [ms[|ms| - 1].watcher]
  }

  /** Framing the encoder adds: a length prefix per entry and the footer. */
  function FramingOf(ms: seq<Message>): nat {
    BatchCodec.ENTRY_LEN_SIZE * |EntriesOf(ms)| + BatchCodec.FOOTER_SIZE
  }

  /** What the budget charges for a sealed batch. */
  function FramedCost(ms: seq<Message>): nat {
    CostOf(ms) + FramingOf(ms)
  }

  method AppendByteCost(entries: seq<Bytes>, metadata: Bytes) returns (total: nat)
    ensures total == BatchCodec.TotalLength(entries) + |metadata|
  {
    total := 0;
    for i := 0 to |entries|
      invariant total == BatchCodec.TotalLength(entries[..i])
    {
      assert entries[..i + 1][..i] == entries[..i];
      total := total + |entries[i]|;
    }
    assert entries[..|entries|] == entries;
    total := total + |metadata|;
  }

  class BatchAccumulator {
    var entries: seq<Bytes>
    var metadata: seq<QueueMetadata>
    var watchers: seq<nat>
    var sizeBytes: nat
    var byteCost: nat
    var started: bool
    /** The messages added since the last reset. */
    ghost var messages: seq<Message>

    ghost predicate Valid()
      reads this
    {
      && entries == EntriesOf(messages)
      && metadata == RangesOf(messages)
      && watchers == WatchersOf(messages)
      && sizeBytes == byteCost == CostOf(messages)
      && (started <==> messages != [])
    }

    constructor ()
      ensures Valid() && messages == []
    {
      entries, metadata, watchers, sizeBytes, byteCost, started := [], [], [], 0, 0, false;
      messages := [];
    }

    method Add(m: Message) returns (becameStarted: bool)
      requires Valid()
      modifies this
      ensures Valid() && messages == old(messages) + [m]
      ensures becameStarted <==> old(messages) == []
    {
      var wasStarted := started;
      var startIndex := |entries| % U32_LIMIT;
      entries := entries + m.entries;
      metadata := metadata + [QueueMetadata(startIndex, m.ingestionTimeMs, m.metadata)];
      watchers := watchers + [m.watcher];
      var cost := AppendByteCost(m.entries, m.metadata);
      sizeBytes := sizeBytes + cost;
      byteCost := byteCost + cost;
      started := true;
      messages := messages + [m];
      assert messages[..|messages| - 1] == old(messages);
      return !wasStarted && started;
    }

    method Reset() returns (es: seq<Bytes>, ms: seq<QueueMetadata>, ws: seq<nat>, cost: nat)
      requires Valid()
      modifies this
      ensures Valid() && messages == []
      ensures es == EntriesOf(old(messages)) && ms == RangesOf(old(messages))
      ensures ws == WatchersOf(old(messages)) && cost == CostOf(old(messages))
    {
      es, ms, ws, cost := entries, metadata, watchers, byteCost;
      entries, metadata, watchers, sizeBytes, byteCost, started := [], [], [], 0, 0, false;
      messages := [];
    }

    method IsEmpty() returns (empty: bool)
      requires Valid()
      ensures empty <==> forall i :: 0 <= i < |messages| ==> messages[i].entries == []
    {
      EntriesOfEmpty(messages);
      empty := |entries| == 0;
    }
  }

  /** `drainAppendChInto`: the queued messages follow the accumulated ones, in order. */
  method DrainInto(queue: seq<Message>, batch: BatchAccumulator)
    requires batch.Valid()
    modifies batch
    ensures batch.Valid() && batch.messages == old(batch.messages) + queue
  {
    for i := 0 to |queue|
      invariant batch.Valid() && batch.messages == old(batch.messages) + queue[..i]
    {
      var _ := batch.Add(queue[i]);
    }
  }

  // ---------- what a batch keeps of each message ----------

  lemma {:induction false} EntriesOfConcat(a: seq<Message>, b: seq<Message>)
    ensures EntriesOf(a + b) == EntriesOf(a) + EntriesOf(b)
  {
    if b == [] {
      assert a + b == a;
    } else {
      EntriesOfConcat(a, b[..|b| - 1]);
      assert (a + b)[..|a + b| - 1] == a + b[..|b| - 1];
    }
  }

  lemma {:induction false} EntriesOfEmpty(ms: seq<Message>)
    ensures EntriesOf(ms) == [] <==> forall i :: 0 <= i < |ms| ==> ms[i].entries == []
  {
    if ms == [] {
    } else {
      EntriesOfEmpty(ms[..|ms| - 1]);
    }
  }

  lemma {:induction false} RangesOfAt(ms: seq<Message>, i: nat)
    requires i < |ms|
    ensures |RangesOf(ms)| == |ms|
    ensures RangesOf(ms)[i]
         == QueueMetadata(|EntriesOf(ms[..i])| % U32_LIMIT, ms[i].ingestionTimeMs, ms[i].metadata)
  {
    RangesOfLength(ms);
    if i < |ms| - 1 {
      RangesOfAt(ms[..|ms| - 1], i);
      RangesOfLength(ms[..|ms| - 1]);
      assert ms[..|ms| - 1][..i] == ms[..i];
    } else {
      RangesOfLength(ms[..|ms| - 1]);
    }
  }

  lemma {:induction false} RangesOfLength(ms: seq<Message>)
    ensures |RangesOf(ms)| == |ms|
  {
    if ms == [] {
    } else {
      RangesOfLength(ms[..|ms| - 1]);
    }
  }

  /** In a batch small enough for 32-bit indices, message `i` keeps its metadata payload and time
      in range `i`, and its entries are the batch's entries from that range's start index on. */
  lemma MessageInBatch(ms: seq<Message>, i: nat)
    requires i < |ms| && |EntriesOf(ms)| < U32_LIMIT
    ensures |RangesOf(ms)| == |ms|
    ensures var range := RangesOf(ms)[i];
            && range.payload == ms[i].metadata && range.ingestionTimeMs == ms[i].ingestionTimeMs
            && range.startIndex + |ms[i].entries| <= |EntriesOf(ms)|
            && EntriesOf(ms)[range.startIndex..range.startIndex + |ms[i].entries|] == ms[i].entries
  {
    hide RangesOf, EntriesOf;
    RangesOfAt(ms, i);
    EntriesOfConcat(ms[..i + 1], ms[i + 1..]);
    assert ms[..i + 1] + ms[i + 1..] == ms;
    PrefixGrows(ms, i);
  }

  lemma {:induction false} CostOfConcat(a: seq<Message>, b: seq<Message>)
    ensures CostOf(a + b) == CostOf(a) + CostOf(b)
  {
    if b == [] {
      assert a + b == a;
    } else {
      CostOfConcat(a, b[..|b| - 1]);
      assert (a + b)[..|a + b| - 1] == a + b[..|b| - 1];
    }
  }

  lemma PrefixGrows(ms: seq<Message>, i: nat)
    requires i < |ms|
    ensures CostOf(ms[..i + 1]) == CostOf(ms[..i]) + MessageCost(ms[i])
    ensures EntriesOf(ms[..i + 1]) == EntriesOf(ms[..i]) + ms[i].entries
  {
    assert ms[..i + 1][..i] == ms[..i];
  }

  lemma CostOfSplit(ms: seq<Message>, i: nat)
    requires i < |ms|
    ensures CostOf(ms) == CostOf(ms[..i] + ms[i + 1..]) + MessageCost(ms[i])
  {
    hide CostOf, MessageCost;
    CostOfConcat(ms[..i], ms[i + 1..]);
    CostOfConcat(ms[..i + 1], ms[i + 1..]);
    assert ms[..i + 1] + ms[i + 1..] == ms;
    PrefixGrows(ms, i);
  }

  function PayloadBytes(ranges: seq<QueueMetadata>): nat {
    if ranges == [] then 0 else PayloadBytes(ranges[..|ranges| - 1]) + |ranges[|ranges| - 1].payload|
  }

  lemma {:induction false} CostOfIs(ms: seq<Message>)
    ensures CostOf(ms) == BatchCodec.TotalLength(EntriesOf(ms)) + PayloadBytes(RangesOf(ms))
  {
    if ms == [] {
    } else {
      var earlier, last := ms[..|ms| - 1], ms[|ms| - 1];
      CostOfIs(earlier);
      BatchCodec.TotalLengthConcat(EntriesOf(earlier), last.entries);
      assert RangesOf(ms)[..|RangesOf(ms)| - 1] == RangesOf(earlier);
    }
  }

  /** The charge for a sealed batch is exactly the size of its uncompressed data object plus its
      metadata payloads. */
  lemma FramedCostIsEncodedSize(z: BatchCodec.Zstd, ms: seq<Message>)
    requires BatchCodec.EntriesFit(EntriesOf(ms))
    ensures BatchCodec.Encoded(z, EntriesOf(ms), BatchCodec.COMPRESSION_NONE).Ok?
    ensures FramedCost(ms)
         == |BatchCodec.Encoded(z, EntriesOf(ms), BatchCodec.COMPRESSION_NONE).value| + PayloadBytes(RangesOf(ms))
  {
    CostOfIs(ms);
    BatchCodec.PlainEncodedLength(z, EntriesOf(ms));
  }
}
