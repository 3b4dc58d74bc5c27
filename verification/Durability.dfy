/** End-to-end durability, as a consumer of the object store sees it. */
module Durability {
  import opened Wrappers
  import opened Bytes
  import opened ManifestCodec
  import opened ManifestLog
  import opened ObjStore
  import opened Accumulator
  import opened Pipeline
  import opened JobsInv
  import opened MessagesInv
  import opened WorldInv
  import opened BlocksInv
  import opened ProducerInv
  import opened SharedInv
  import opened System
  import BatchCodec
  import Committer
  import FlowInv
  import GatesInv
  import LedgerInv
  import FlushInv

  /** A message can be found and read back from the bytes in the store alone: range `x` of manifest entry
      `k` names its time and metadata, and the object at the entry's location decodes to a batch in
      which the message's entries begin at the range's start index. */
  ghost predicate FoundAt(zstd: BatchCodec.Zstd, path: Path, objects: Objects, m: Message, k: nat, x: nat) {
    && path in objects && DecodedEntries(objects[path].data).Ok?
    && var es := DecodedEntries(objects[path].data).value;
       && k < |es| && x < |es[k].metadata| && es[k].location in objects
       && var range, batch := es[k].metadata[x], BatchCodec.Decoded(zstd, objects[es[k].location].data);
          && range.payload == m.metadata && range.ingestionTimeMs == m.ingestionTimeMs
          && batch.Ok? && range.startIndex + |m.entries| <= |batch.value|
          && batch.value[range.startIndex..range.startIndex + |m.entries|] == m.entries
  }

  /** Manifest entry `k` is that of batch `b`: it names the batch's own data object, which decodes to the
      batch's entries, and carries one range per message. */
  ghost predicate BatchAt(c: Config, path: Path, objects: Objects, b: Batch, k: nat) {
    && path in objects && DecodedEntries(objects[path].data).Ok?
    && var es := DecodedEntries(objects[path].data).value;
       && k < |es| && es[k].location == c.location(b.ordinal) && es[k].metadata == RangesOf(b.messages)
       && BlobOk(c, objects, b)
  }

  /** Message `i` lies in the entry and the data object of its own batch, at its own place in the batch. */
  ghost predicate Readable(c: Config, path: Path, objects: Objects, h: History, i: nat) {
    && i < |h.accepted| && i < |h.home| && h.home[i].Some? && h.home[i].value < |h.emitted|
    && var b := h.emitted[h.home[i].value];
       && b.ordinal == h.home[i].value && First(b) <= i
       && exists k: nat :: BatchAt(c, path, objects, b, k)
           && FoundAt(c.zstd, path, objects, h.accepted[i], k, i - First(b))
  }

  // ---------- from a block to a manifest entry ----------

  lemma {:induction false} AllItemsAt(blocks: seq<Block>, k: nat, x: nat) returns (y: nat)
    requires k < |blocks| && x < |blocks[k].items|
    ensures y < |AllItems(blocks)| && AllItems(blocks)[y] == blocks[k].items[x]
    decreases |blocks|
  {
    var earlier := blocks[..|blocks| - 1];
    if k == |blocks| - 1 {
      y := |AllItems(earlier)| + x;
    } else {
      y := AllItemsAt(earlier, k, x);
    }
  }

  lemma EntryOf(path: Path, base: Log, w: World, y: nat)
    requires Chained(path, base, w) && y < |AllItems(w.blocks)|
    ensures path in w.objects && DecodedEntries(w.objects[path].data).Ok?
    ensures var es, item, k := DecodedEntries(w.objects[path].data).value, AllItems(w.blocks)[y], |base.entries| + y;
            k < |es| && es[k].location == item.location && es[k].metadata == item.metadata
  {
    hide ParsedEntries, AllItems;
    NumberedAt(AllItems(w.blocks), base.nextSequence, y);
  }

  // ---------- from a watcher to its message ----------

  lemma DurableMessage(c: Config, s: State, w: World, i: nat) returns (o: nat, k: nat, x: nat)
    requires Shared(c, s, w) && i in s.acct.watchers && s.acct.watchers[i] == None
    ensures i < |s.hist.home| && s.hist.home[i] == Some(o)
    ensures o < |s.hist.emitted| && BlobOk(c, w.objects, s.hist.emitted[o])
    ensures k < |w.blocks| && x < |w.blocks[k].items| && w.blocks[k].items[x] == ItemOf(c, s.hist.emitted[o])
  {
    hide AllRepresentable, JobsBacked, OwnOrder, CopiesBound, Frontier, Versions, BlobOk, ItemOf;
    o := s.hist.home[i].value;
    assert Durable(c, s.hist, w, o);
    k :| 0 <= k < |w.blocks| && w.blocks[k].run == c.run && o in w.blocks[k].ordinals;
    assert OwnBlock(c, s.hist, w.objects, w.blocks[k]);
    x :| 0 <= x < |w.blocks[k].ordinals| && w.blocks[k].ordinals[x] == o;
  }

  lemma MessageOfBatch(h: History, o: nat, i: nat)
    requires Housed(h) && i < |h.home| && h.home[i] == Some(o) && o < |h.emitted|
    ensures First(h.emitted[o]) <= i && i - First(h.emitted[o]) < |h.emitted[o].messages|
    ensures i < |h.accepted| && h.emitted[o].messages[i - First(h.emitted[o])] == h.accepted[i]
  {
    hide FramedCost;
    assert MessagesInv.Holds(h.emitted[o], i);
    assert Stretch(h.emitted[o], h);
  }

  lemma ReadFrom(c: Config, path: Path, objects: Objects, b: Batch, es: seq<QueueEntry>, k: nat, x: nat)
    requires path in objects && DecodedEntries(objects[path].data) == Ok(es)
    requires k < |es| && es[k].location == c.location(b.ordinal) && es[k].metadata == RangesOf(b.messages)
    requires BlobOk(c, objects, b) && x < |b.messages| && |EntriesOf(b.messages)| < U32_LIMIT
    ensures FoundAt(c.zstd, path, objects, b.messages[x], k, x) && BatchAt(c, path, objects, b, k)
  {
    hide RangesOf, EntriesOf, DecodedEntries, BatchCodec.Decoded;
    MessageInBatch(b.messages, x);
  }

  lemma LocalHas(c: Config, s: State)
    requires Local(c, s)
    ensures Housed(s.hist) && Conserved(s.jobs, s.hist) && Resolved(s.hist, s.acct.watchers, s.jobs.res)
            && InOrder(s.front, s.hist)
    ensures forall o :: 0 <= o < |s.hist.emitted| ==> s.hist.emitted[o].ordinal == o
  {
    hide Housed, Resolved, InOrder, FlowInv.Phases, FlowInv.Cursor, GatesInv.Gated, GatesInv.Typed, LedgerInv.Balanced,
         FlushInv.Flushing, Total, Unaltered;
  }

  /** In every state the system can reach, a watcher resolved with nil belongs to a readable message. */
  lemma NilIsReadable(cs: Configs, path: Path, base: Log, s: System, r: nat, i: nat)
    requires Cluster(cs, path) && Good(cs, path, base, s) && r in cs
    requires i in s.states[r].acct.watchers && s.states[r].acct.watchers[i] == None
    ensures Readable(cs[r], path, s.world.objects, s.states[r].hist, i)
  {
    hide Local, Shared, Chained, Cluster, BlobOk, DecodedEntries, FoundAt, BatchAt, RangesOf, EntriesOf, BodyFits,
         AllItems, Housed, Conserved, Resolved, InOrder;
    var c, p, w := cs[r], s.states[r], s.world;
    var o, k, x := DurableMessage(c, p, w, i);
    LocalHas(c, p);
    MessageOfBatch(p.hist, o, i);
    SharedRepresentable(c, p, w);
    var b := p.hist.emitted[o];
    assert Representable(c, o, b.messages);
    var y := AllItemsAt(w.blocks, k, x);
    EntryOf(path, base, w, y);
    ReadFrom(c, path, w.objects, b, DecodedEntries(w.objects[path].data).value, |base.entries| + y, i - First(b));
  }

  // ---------- for ever after ----------

  /** Two messages never share a place: different producers use different data objects, and within one
      producer the batch and the position in it determine the message. */
  lemma OwnPlace(c: Config, h: History, i: nat, q: Config, g: History, k: nat, path: Path, objects: Objects)
    requires Readable(c, path, objects, h, i) && Readable(q, path, objects, g, k)
    requires ValidConfig(c) && (Apart(c, q) || (c == q && h == g && i != k))
    ensures var b, d := h.emitted[h.home[i].value], g.emitted[g.home[k].value];
            (c.location(b.ordinal), i - First(b)) != (q.location(d.ordinal), k - First(d))
  {
    hide BatchAt, FoundAt, BatchCodec.Lossless;
  }

  /** Watchers keep their first outcome, messages their numbers and batches, and batches their contents. */
  ghost predicate Remembers(s: State, s': State) {
    && (forall i :: i in s.acct.watchers ==> i in s'.acct.watchers && s'.acct.watchers[i] == s.acct.watchers[i])
    && s.hist.accepted <= s'.hist.accepted && s.hist.home <= s'.hist.home && s.hist.emitted <= s'.hist.emitted
  }

  lemma {:induction false} AllResolvedGrows(watchers: Watchers, ms: seq<Message>, err: Option<Error>)
    ensures forall i :: i in watchers ==>
              i in AllResolved(watchers, ms, err) && AllResolved(watchers, ms, err)[i] == watchers[i]
  {
    if ms == [] {
    } else {
      AllResolvedGrows(watchers, ms[..|ms| - 1], err);
    }
  }

  lemma FrontRemembers(c: Config, s: State, a: RotatorAction)
    requires RotatorCan(c, s, a)
    ensures Remembers(s, RotatorStep(c, s, a))
  {
    hide AllResolved, AckFlush, CostOf, FramedCost, FramingOf, Representable;
    AllResolvedGrows(s.acct.watchers, s.front.acc, Some(Shutdown));
  }

  lemma CommitRemembers(c: Config, s: State, w: World, a: CommitAction)
    requires CommitCan(s, a)
    ensures Remembers(s, CommitStep(c, s, w, a))
  {
    hide Outcomes, Stored, Unstored, Rewritten, Matches, ItemsOf, Committer.TakeCount, Committer.Taken, Committer.Left;
  }

  lemma StepRemembers(c: Config, s: State, w: World, a: Action)
    requires Enabled(c, s, a)
    ensures Remembers(s, NextState(c, s, w, a))
  {
    hide RotatorStep, CommitStep, RotatorCan, CommitCan, MessageCost, CostOf, EncodeResult, AckFlush;
    if a.ByRotator? {
      FrontRemembers(c, s, a.rotator);
    } else if a.ByCommitter? {
      CommitRemembers(c, s, w, a.committer);
    }
  }

  lemma {:induction false} RunRemembers(cs: Configs, s: System, es: seq<Event>, r: nat)
    requires Possible(cs, s, es) && r in s.states
    ensures r in Final(cs, s, es).states && Remembers(s.states[r], Final(cs, s, es).states[r])
    decreases |es|
  {
    hide Enabled, NextState, NextWorld;
    if es == [] {
    } else {
      var e := es[0];
      StepRemembers(cs[e.run], s.states[e.run], s.world, e.action);
      RunRemembers(cs, Happened(cs, s, e), es[1..], r);
    }
  }

  lemma SamePlace(c: Config, path: Path, objects: Objects, s: State, objects': Objects, s': State, i: nat)
    requires Readable(c, path, objects, s.hist, i) && Readable(c, path, objects', s'.hist, i) && Remembers(s, s')
    ensures Readable(c, path, objects', s.hist, i)
  {
    hide BatchAt, FoundAt;
  }

  /** A watcher resolved with nil at any point of any run of any number of producers: from then on, in
      every continuation, it stays nil, and its message can be read back from the store, from the manifest
      entry and the data object of its own batch and from its own range there. */
  lemma DurableForever(cs: Configs, path: Path, base: Log, start: System, es: seq<Event>, more: seq<Event>, r: nat,
                       i: nat)
    requires Cluster(cs, path) && Start(cs, path, base, start) && Possible(cs, start, es)
            && Possible(cs, Final(cs, start, es), more)
    requires r in cs && r in Final(cs, start, es).states
    requires var watchers := Final(cs, start, es).states[r].acct.watchers; i in watchers && watchers[i] == None
    ensures var p, later := Final(cs, start, es).states[r], Final(cs, Final(cs, start, es), more);
            && r in later.states && i in later.states[r].acct.watchers && later.states[r].acct.watchers[i] == None
            && Readable(cs[r], path, later.world.objects, p.hist, i)
  {
    hide Good, Readable, Possible, Final, Cluster, Start;
    var now := Final(cs, start, es);
    var later := Final(cs, now, more);
    ReachableIsGood(cs, path, base, start, es);
    RunIsGood(cs, path, base, now, more);
    NilIsReadable(cs, path, base, now, r, i);
    RunRemembers(cs, now, more, r);
    NilIsReadable(cs, path, base, later, r, i);
    SamePlace(cs[r], path, now.world.objects, now.states[r], later.world.objects, later.states[r], i);
  }
}
