/** The manifest's history: a chain of whole blocks under any number of producers, and what an ambiguous
    store error can do to it. */
module ManifestHistory {
  import opened Wrappers
  import opened Bytes
  import opened ManifestCodec
  import opened ManifestLog
  import opened Enqueuer
  import opened ObjStore
  import opened Pipeline
  import opened WorldInv
  import opened BlocksInv
  import opened ProducerInv
  import opened SharedInv
  import opened System

  // ---------- nothing is lost ----------

  lemma StepGrowsBlocks(c: Config, s: State, w: World, a: Action)
    requires Enabled(c, s, a)
    ensures w.blocks <= NextWorld(c, s, w, a).blocks
  {
    hide EncodeResult, Stored, ItemsOf, Matches, CallerCan, RotatorCan, ResolverCan, WriteApplies;
  }

  lemma {:induction false} RunGrowsBlocks(cs: Configs, s: System, es: seq<Event>)
    requires Possible(cs, s, es)
    ensures s.world.blocks <= Final(cs, s, es).world.blocks
    decreases |es|
  {
    hide Enabled, NextState, NextWorld;
    if es == [] {
    } else {
      var e := es[0];
      StepGrowsBlocks(cs[e.run], s.states[e.run], s.world, e.action);
      RunGrowsBlocks(cs, Happened(cs, s, e), es[1..]);
    }
  }

  lemma {:induction false} AllItemsConcat(a: seq<Block>, b: seq<Block>)
    ensures AllItems(a + b) == AllItems(a) + AllItems(b)
    decreases |b|
  {
    if b == [] {
      assert a + b == a;
    } else {
      var earlier, last := b[..|b| - 1], b[|b| - 1];
      AllItemsConcat(a, earlier);
      assert (a + b)[..|a + b| - 1] == a + earlier && (a + b)[|a + b| - 1] == last;
      Reassociate(AllItems(a), AllItems(earlier), last.items);
    }
  }

  /** Block `k` lies in the manifest in one piece, behind the blocks before it. */
  lemma BlockIsContiguous(blocks: seq<Block>, k: nat)
    requires k < |blocks|
    ensures var at := |AllItems(blocks[..k])|;
            && at + |blocks[k].items| <= |AllItems(blocks)|
            && AllItems(blocks)[at..at + |blocks[k].items|] == blocks[k].items
  {
    var one := blocks[..k + 1];
    assert one[..k] == blocks[..k];
    AllItemsConcat(one, blocks[k + 1..]);
    assert one + blocks[k + 1..] == blocks;
  }

  lemma EntriesGrow(base: Log, a: seq<EnqueueItem>, b: seq<EnqueueItem>)
    ensures Extended(base, a).entries <= Extended(base, a + b).entries
            && Extended(base, a).epoch == Extended(base, a + b).epoch
  {
    NumberedConcat(a, b, base.nextSequence);
  }

  /** In every run, whatever the producers do and however the store fails: the manifest always decodes to
      the log of all writes so far, and every later manifest begins with the same entries. */
  lemma ManifestIsChain(cs: Configs, path: Path, base: Log, start: System, es: seq<Event>, more: seq<Event>)
    requires Cluster(cs, path) && Start(cs, path, base, start) && Possible(cs, start, es)
            && Possible(cs, Final(cs, start, es), more)
    ensures var now, later := Final(cs, start, es).world, Final(cs, Final(cs, start, es), more).world;
            var log, log' := Extended(base, AllItems(now.blocks)), Extended(base, AllItems(later.blocks));
            && StoreHolds(now.objects, path, log) && StoreHolds(later.objects, path, log')
            && now.blocks <= later.blocks && log.entries <= log'.entries && log.epoch == log'.epoch == base.epoch
  {
    hide Cluster, Start, Possible, Final, Local, Shared, StoreHolds, AllItems, Numbered, Versioned;
    var now := Final(cs, start, es);
    ReachableIsGood(cs, path, base, start, es);
    RunIsGood(cs, path, base, now, more);
    RunGrowsBlocks(cs, now, more);
    var a, b := now.world.blocks, Final(cs, now, more).world.blocks;
    AllItemsConcat(a, b[|a|..]);
    assert a + b[|a|..] == b;
    EntriesGrow(base, AllItems(a), AllItems(b[|a|..]));
  }

  // ---------- sequence numbers ----------

  lemma HeldCount(data: Bytes, log: Log)
    requires Holds(data, log)
    ensures |log.entries| < U32_LIMIT
  {
    ParsedEntriesSize(data[..FooterStart(data)], CountField(data));
  }

  /** From an empty manifest the entries are numbered 0, 1, 2, … and the next number is their count. */
  lemma SequencesFromEmpty(path: Path, w: World, i: nat)
    requires Chained(path, EMPTY_LOG, w)
    ensures var log := Extended(EMPTY_LOG, AllItems(w.blocks));
            && log.nextSequence == |log.entries| < U32_LIMIT
            && (i < |log.entries| ==> log.entries[i].sequence == i)
  {
    hide Holds, AllItems;
    var items := AllItems(w.blocks);
    var log := Extended(EMPTY_LOG, items);
    if path in w.objects {
      HeldCount(w.objects[path].data, log);
    }
    if i < |items| {
      NumberedAt(items, 0, i);
    }
  }

  lemma SequencesInEveryRun(cs: Configs, path: Path, start: System, es: seq<Event>, i: nat)
    requires Cluster(cs, path) && Start(cs, path, EMPTY_LOG, start) && Possible(cs, start, es)
    ensures var log := Extended(EMPTY_LOG, AllItems(Final(cs, start, es).world.blocks));
            && StoreHolds(Final(cs, start, es).world.objects, path, log)
            && log.nextSequence == |log.entries| < U32_LIMIT
            && (i < |log.entries| ==> log.entries[i].sequence == i)
  {
    hide Cluster, Start, Possible, Final, Local, Shared, StoreHolds, AllItems, Numbered, Versioned, Extended;
    ReachableIsGood(cs, path, EMPTY_LOG, start, es);
    SequencesFromEmpty(path, Final(cs, start, es).world, i);
  }

  // ---------- ambiguous errors ----------

  lemma SameOrdinalSameGroup(run: nat, blocks: seq<Block>, i: nat, k: nat, o: nat)
    requires OwnOrder(run, blocks) && i < |blocks| && k < |blocks| && blocks[i].run == blocks[k].run == run
    requires o in blocks[i].ordinals && o in blocks[k].ordinals
    ensures blocks[i].ordinals == blocks[k].ordinals
  {
    if i < k {
      NotBefore(blocks[i].ordinals, blocks[k].ordinals, o);
    } else if k < i {
      NotBefore(blocks[k].ordinals, blocks[i].ordinals, o);
    }
  }

  lemma NotBefore(xs: seq<nat>, ys: seq<nat>, o: nat)
    requires o in xs && o in ys
    ensures !Precedes(xs, ys)
  {
    var x :| 0 <= x < |xs| && xs[x] == o;
    var y :| 0 <= y < |ys| && ys[y] == o;
    assert !(xs[x] < ys[y]);
  }

  /** Writes of a run that carry ordinal `o`. */
  function Carrying(blocks: seq<Block>, run: nat, o: nat): nat {
    if blocks == [] then 0
    else
      var last := blocks[|blocks| - 1];
      Carrying(blocks[..|blocks| - 1], run, o) + if last.run == run && o in last.ordinals then 1 else 0
  }

  lemma {:induction false} CarryingIsCopies(blocks: seq<Block>, run: nat, o: nat, ordinals: seq<nat>)
    requires o in ordinals
    requires forall k :: 0 <= k < |blocks| && blocks[k].run == run && o in blocks[k].ordinals ==>
            blocks[k].ordinals == ordinals
    ensures Carrying(blocks, run, o) == Copies(blocks, run, ordinals)
  {
    if blocks == [] {
    } else {
      CarryingIsCopies(blocks[..|blocks| - 1], run, o, ordinals);
    }
  }

  lemma {:induction false} CarriedAtLeastOnce(blocks: seq<Block>, run: nat, o: nat, k: nat)
    requires k < |blocks| && blocks[k].run == run && o in blocks[k].ordinals
    ensures Carrying(blocks, run, o) >= 1
    decreases |blocks|
  {
    if k == |blocks| - 1 {
    } else {
      CarriedAtLeastOnce(blocks[..|blocks| - 1], run, o, k);
    }
  }

  /** A producer's writes, even when a write may take effect and still be reported as failed: each is one
      whole commit group, in ordinal order, of batches whose data objects are stored. Two writes carry
      the same group, or all ordinals of the earlier are below those of the later, so all copies of a
      group precede every later group. A batch is carried at most `manifestAttempts` times, and at least
      once if it was resolved as committed. */
  lemma WholeGroupsInOrder(cs: Configs, path: Path, base: Log, s: System, r: nat, k: nat, o: nat)
    requires Good(cs, path, base, s) && r in cs && cs[r].run == r
    requires k < |s.world.blocks| && s.world.blocks[k].run == r && o in s.world.blocks[k].ordinals
    ensures OwnBlock(cs[r], s.states[r].hist, s.world.objects, s.world.blocks[k])
    ensures OwnOrder(r, s.world.blocks)
    ensures 1 <= Carrying(s.world.blocks, r, o) <= cs[r].manifestAttempts
  {
    hide Local, Chained, Versioned, AllRepresentable, JobsBacked, WatchersDurable, Frontier, Versions, OwnBlock,
         OwnOrder, Copies, Carrying;
    var blocks := s.world.blocks;
    forall x | 0 <= x < |blocks| && blocks[x].run == r && o in blocks[x].ordinals
      ensures blocks[x].ordinals == blocks[k].ordinals
    {
      SameOrdinalSameGroup(r, blocks, x, k, o);
    }
    CarryingIsCopies(blocks, r, o, blocks[k].ordinals);
    CarriedAtLeastOnce(blocks, r, o, k);
  }

  /** Resolved as committed: at least once and at most `manifestAttempts` times in the manifest. */
  lemma CommittedOnceOrAgain(cs: Configs, path: Path, base: Log, start: System, es: seq<Event>, r: nat, i: nat)
    requires Cluster(cs, path) && Start(cs, path, base, start) && Possible(cs, start, es) && r in cs
            && r in Final(cs, start, es).states
    requires var watchers := Final(cs, start, es).states[r].acct.watchers; i in watchers && watchers[i] == None
    ensures var s := Final(cs, start, es); var h := s.states[r].hist;
            && i < |h.home| && h.home[i].Some?
            && 1 <= Carrying(s.world.blocks, r, h.home[i].value) <= cs[r].manifestAttempts
  {
    hide Start, Possible, Final, Local, Shared, Chained, Versioned, Carrying, ValidConfig, Apart;
    var s := Final(cs, start, es);
    ReachableIsGood(cs, path, base, start, es);
    var k := CommittedBlock(cs[r], s.states[r], s.world, i);
    WholeGroupsInOrder(cs, path, base, s, r, k, s.states[r].hist.home[i].value);
  }

  lemma CommittedBlock(c: Config, s: State, w: World, i: nat) returns (k: nat)
    requires Shared(c, s, w) && i in s.acct.watchers && s.acct.watchers[i] == None
    ensures i < |s.hist.home| && s.hist.home[i].Some?
    ensures k < |w.blocks| && w.blocks[k].run == c.run && s.hist.home[i].value in w.blocks[k].ordinals
  {
    hide AllRepresentable, JobsBacked, OwnBlocks, OwnOrder, CopiesBound, Frontier, Versions, BlobOk;
    assert Durable(c, s.hist, w, s.hist.home[i].value);
    k :| 0 <= k < |w.blocks| && w.blocks[k].run == c.run && s.hist.home[i].value in w.blocks[k].ordinals;
  }

  /** The same in every run. */
  lemma WritesAreWholeGroups(cs: Configs, path: Path, base: Log, start: System, es: seq<Event>, r: nat, k: nat, o: nat)
    requires Cluster(cs, path) && Start(cs, path, base, start) && Possible(cs, start, es) && r in cs
            && r in Final(cs, start, es).states
    requires var blocks := Final(cs, start, es).world.blocks;
             k < |blocks| && blocks[k].run == r && o in blocks[k].ordinals
    ensures var s := Final(cs, start, es); var blocks := s.world.blocks;
            && OwnBlock(cs[r], s.states[r].hist, s.world.objects, blocks[k]) && OwnOrder(r, blocks)
            && 1 <= Carrying(blocks, r, o) <= cs[r].manifestAttempts
  {
    hide Start, Possible, Final, Good, Carrying, ValidConfig, Apart, OwnBlock, OwnOrder;
    ReachableIsGood(cs, path, base, start, es);
    WholeGroupsInOrder(cs, path, base, Final(cs, start, es), r, k, o);
  }

  /** The manifest's version counts the writes that took effect. */
  lemma {:induction false} VersionCountsBlocks(cs: Configs, path: Path, s: System, es: seq<Event>)
    requires Cluster(cs, path) && Possible(cs, s, es)
    ensures var later := Final(cs, s, es).world;
            VersionOf(later.objects, path) - VersionOf(s.world.objects, path) == |later.blocks| - |s.world.blocks|
    decreases |es|
  {
    hide Enabled, NextState, NextWorld, Versioned, ValidConfig, Apart;
    if es == [] {
    } else {
      var e := es[0];
      StepTouches(cs[e.run], s.states[e.run], s.world, e.action);
      VersionCountsBlocks(cs, path, Happened(cs, s, e), es[1..]);
    }
  }
}
