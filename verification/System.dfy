/** Any number of producers sharing one store and one manifest: runs, and the invariant of all runs. */
module System {
  import opened ManifestCodec
  import opened ManifestLog
  import opened Enqueuer
  import opened ObjStore
  import opened Accumulator
  import opened Pipeline
  import opened JobsInv
  import opened WorldInv
  import opened BlocksInv
  import opened ProducerInv
  import opened SharedInv
  import FlowInv
  import GatesInv
  import MessagesInv
  import LedgerInv
  import FlushInv

  type Configs = map<nat, Config>

  datatype System = System(states: map<nat, State>, world: World)

  /** Producers with their own run and data locations, and one manifest. */
  ghost predicate Cluster(cs: Configs, path: Path) {
    && (forall r :: r in cs ==> ValidConfig(cs[r]) && cs[r].run == r && cs[r].manifestPath == path)
    && (forall r, q :: r in cs && q in cs && r != q ==> Apart(cs[r], cs[q]))
  }

  /** The store may hold a manifest with any log `base` already, or none. */
  ghost predicate Start(cs: Configs, path: Path, base: Log, s: System) {
    && s.states.Keys == cs.Keys && (forall r :: r in cs ==> s.states[r] == Init(cs[r]))
    && s.world.blocks == [] && Versioned(s.world.objects) && StoreHolds(s.world.objects, path, base)
  }

  /** One producer takes one step. */
  datatype Event = Event(run: nat, action: Action)

  predicate CanHappen(cs: Configs, s: System, e: Event) {
    e.run in cs && e.run in s.states && Enabled(cs[e.run], s.states[e.run], e.action)
  }

  function Happened(cs: Configs, s: System, e: Event): System
    requires CanHappen(cs, s, e)
  {
    var c, p := cs[e.run], s.states[e.run];
    System(s.states[e.run := NextState(c, p, s.world, e.action)], NextWorld(c, p, s.world, e.action))
  }

  predicate Possible(cs: Configs, s: System, es: seq<Event>)
    decreases |es|
  {
    es == [] || (CanHappen(cs, s, es[0]) && Possible(cs, Happened(cs, s, es[0]), es[1..]))
  }

  /** The system after a run. */
  function Final(cs: Configs, s: System, es: seq<Event>): System
    requires Possible(cs, s, es)
    decreases |es|
  {
    if es == [] then s else Final(cs, Happened(cs, s, es[0]), es[1..])
  }

  function AllItems(blocks: seq<Block>): seq<EnqueueItem> {
    if blocks == [] then [] else AllItems(blocks[..|blocks| - 1]) + blocks[|blocks| - 1].items
  }

  /** The manifest is the first log, extended by every write that took effect, in order. */
  ghost predicate Chained(path: Path, base: Log, w: World) {
    StoreHolds(w.objects, path, Extended(base, AllItems(w.blocks)))
  }

  ghost predicate Good(cs: Configs, path: Path, base: Log, s: System) {
    && s.states.Keys == cs.Keys && Versioned(s.world.objects) && Chained(path, base, s.world)
    && (forall r :: r in cs ==> Local(cs[r], s.states[r]) && Shared(cs[r], s.states[r], s.world))
    && (forall k :: 0 <= k < |s.world.blocks| ==> s.world.blocks[k].run in cs)
  }

  lemma LocalOf(cs: Configs, path: Path, base: Log, s: System, r: nat)
    requires Good(cs, path, base, s) && r in cs
    ensures r in s.states && Local(cs[r], s.states[r])
  {
    hide Local, Shared, Chained;
  }

  // ---------- the start ----------

  lemma StartsShared(c: Config, w: World)
    requires w.blocks == []
    ensures Shared(c, Init(c), w)
  {}

  lemma StartIsGood(cs: Configs, path: Path, base: Log, s: System)
    requires Cluster(cs, path) && Start(cs, path, base, s)
    ensures Good(cs, path, base, s)
  {
    hide Local, Shared, StoreHolds, Versioned, Extended, Init;
    ExtendedByNothing(base);
    forall r | r in cs
      ensures Local(cs[r], s.states[r]) && Shared(cs[r], s.states[r], s.world)
    {
      StartsLocal(cs[r]);
      StartsShared(cs[r], s.world);
    }
  }

  // ---------- one step ----------

  lemma ItemsOfGenuineFit(c: Config, h: History, js: seq<Job>)
    requires AllRepresentable(c, h) && AllGenuine(h.emitted, js)
    ensures ItemsFit(ItemsOf(c, js))
  {
    hide RangesOf, EntriesOf, BodyFits;
    forall i | 0 <= i < |js|
      ensures BodyFits(ItemsOf(c, js)[i].location, ItemsOf(c, js)[i].metadata)
    {
      assert Genuine(h.emitted, js[i].batch);
      assert Representable(c, js[i].batch.ordinal, h.emitted[js[i].batch.ordinal].messages);
    }
  }

  lemma {:induction false} StoredOfGenuine(emitted: seq<Batch>, js: seq<Job>)
    requires AllGenuine(emitted, js)
    ensures AllGenuine(emitted, Stored(js))
  {
    if js == [] {
    } else {
      StoredOfGenuine(emitted, js[..|js| - 1]);
    }
  }

  lemma HandFits(c: Config, s: State, w: World)
    requires Local(c, s) && Shared(c, s, w) && s.jobs.com.Writing?
    ensures ItemsFit(ItemsOf(c, Stored(s.jobs.com.taken))) && Versions(c, s.jobs, w.objects)
  {
    hide FlowInv.Phases, FlowInv.Cursor, GatesInv.Gated, GatesInv.Typed, MessagesInv.InOrder, MessagesInv.Housed,
         MessagesInv.Resolved, LedgerInv.Balanced, FlushInv.Flushing, OwnBlocks, OwnOrder, CopiesBound, Frontier,
         Versions, WatchersDurable, AllRepresentable, ItemsFit, Stored, Genuine, AllGenuine;
    HandIsSound(c, s, w);
    StoredOfGenuine(s.hist.emitted, s.jobs.com.taken);
    ItemsOfGenuineFit(c, s.hist, Stored(s.jobs.com.taken));
  }

  /** A write that takes effect extends the log by one block. */
  lemma WriteChains(c: Config, s: State, w: World, base: Log, answer: Answer)
    requires Local(c, s) && Shared(c, s, w) && Versioned(w.objects) && Chained(c.manifestPath, base, w)
    requires s.jobs.com.Writing? && WriteApplies(c, s, w, answer)
    ensures Chained(c.manifestPath, base, CasWritten(c, s, w, answer))
  {
    hide Local, Shared, Versioned, Versions, StoreHolds, Extended, Rewritten, WriteApplies, Stored, ItemsOf, ItemsFit;
    HandFits(c, s, w);
    WriteIsCurrent(c, s, w, answer);
    var items, log := ItemsOf(c, Stored(s.jobs.com.taken)), Extended(base, AllItems(w.blocks));
    EnqueueExtends(w.objects, c.manifestPath, log, items);
    ExtendedTwice(base, AllItems(w.blocks), items);
    var blocks' := CasWritten(c, s, w, answer).blocks;
    assert blocks'[..|w.blocks|] == w.blocks;
  }

  lemma StepChains(c: Config, s: State, w: World, base: Log, a: Action)
    requires ValidConfig(c) && Enabled(c, s, a)
    requires Local(c, s) && Shared(c, s, w) && Versioned(w.objects) && Chained(c.manifestPath, base, w)
    ensures Chained(c.manifestPath, base, NextWorld(c, s, w, a))
  {
    hide Local, Shared, Versioned, Extended, Holds, WriteApplies, CallerCan, RotatorCan, ResolverCan, EncodeResult,
         AllItems;
    if a.ByCommitter? && a.committer.CasWrite? {
      if WriteApplies(c, s, w, a.committer.answer) {
        WriteChains(c, s, w, base, a.committer.answer);
      }
    }
  }

  lemma OthersStayShared(cs: Configs, path: Path, s: System, c: Config, w': World)
    requires Cluster(cs, path) && s.states.Keys == cs.Keys && c.run in cs && cs[c.run] == c
    requires forall r :: r in cs ==> Shared(cs[r], s.states[r], s.world)
    requires Versioned(s.world.objects) && Touches(c, s.world, w')
    ensures forall r :: r in cs && r != c.run ==> Shared(cs[r], s.states[r], w')
  {
    hide Shared, Versioned, Touches, ValidConfig, Apart;
    forall r | r in cs && r != c.run
      ensures Shared(cs[r], s.states[r], w')
    {
      OtherKeepsShared(c, cs[r], s.states[r], s.world, w');
    }
  }

  lemma BlocksKnown(cs: Configs, c: Config, w: World, w': World)
    requires Touches(c, w, w') && c.run in cs && forall k :: 0 <= k < |w.blocks| ==> w.blocks[k].run in cs
    ensures forall k :: 0 <= k < |w'.blocks| ==> w'.blocks[k].run in cs
    ensures Versioned(w.objects) ==> Versioned(w'.objects)
  {
    hide Versioned;
    forall k | 0 <= k < |w'.blocks|
      ensures w'.blocks[k].run in cs
    {
      if k < |w.blocks| {
        assert w'.blocks[..|w.blocks|][k] == w.blocks[k];
      }
    }
  }

  /** Every step of every producer keeps the invariant of all of them. */
  lemma StepIsGood(cs: Configs, path: Path, base: Log, s: System, e: Event)
    requires Cluster(cs, path) && Good(cs, path, base, s) && CanHappen(cs, s, e)
    ensures Good(cs, path, base, Happened(cs, s, e))
  {
    hide Local, Shared, Chained, Versioned, Touches, ValidConfig, Apart, NextState, NextWorld, Enabled;
    var c, p, w := cs[e.run], s.states[e.run], s.world;
    StepKeepsLocal(c, p, w, e.action);
    StepKeepsShared(c, p, w, e.action);
    StepChains(c, p, w, base, e.action);
    StepTouches(c, p, w, e.action);
    OthersStayShared(cs, path, s, c, NextWorld(c, p, w, e.action));
    BlocksKnown(cs, c, w, NextWorld(c, p, w, e.action));
  }

  /** Hence every run does. */
  lemma {:induction false} RunIsGood(cs: Configs, path: Path, base: Log, s: System, es: seq<Event>)
    requires Cluster(cs, path) && Good(cs, path, base, s) && Possible(cs, s, es)
    ensures Good(cs, path, base, Final(cs, s, es))
    decreases |es|
  {
    hide Cluster, Good, CanHappen, Happened;
    if es == [] {
    } else {
      StepIsGood(cs, path, base, s, es[0]);
      RunIsGood(cs, path, base, Happened(cs, s, es[0]), es[1..]);
    }
  }

  lemma ReachableIsGood(cs: Configs, path: Path, base: Log, s: System, es: seq<Event>)
    requires Cluster(cs, path) && Start(cs, path, base, s) && Possible(cs, s, es)
    ensures Good(cs, path, base, Final(cs, s, es))
  {
    StartIsGood(cs, path, base, s);
    RunIsGood(cs, path, base, s, es);
  }

  // ---------- events ----------

  /** Producer `r` takes step `a` somewhere in `es`. */
  predicate HasEvent(es: seq<Event>, r: nat, a: Action) {
    exists j :: 0 <= j < |es| && es[j] == Event(r, a)
  }

  lemma NoEvent(r: nat, a: Action)
    ensures !HasEvent([], r, a)
  {}

  lemma FirstOrLater(es: seq<Event>, r: nat, a: Action)
    requires es != []
    ensures HasEvent(es, r, a) <==> es[0] == Event(r, a) || HasEvent(es[1..], r, a)
  {
    if HasEvent(es[1..], r, a) {
      var j :| 0 <= j < |es[1..]| && es[1..][j] == Event(r, a);
      assert es[j + 1] == Event(r, a);
    }
    if HasEvent(es, r, a) {
      var j :| 0 <= j < |es| && es[j] == Event(r, a);
      assert j > 0 ==> es[1..][j - 1] == Event(r, a);
    }
  }

  /** One run after another is one run. */
  lemma {:induction false} RunsJoin(cs: Configs, s: System, es: seq<Event>, more: seq<Event>)
    requires Possible(cs, s, es) && Possible(cs, Final(cs, s, es), more)
    ensures Possible(cs, s, es + more) && Final(cs, s, es + more) == Final(cs, Final(cs, s, es), more)
    decreases |es|
  {
    hide CanHappen, Happened;
    if es == [] {
      assert es + more == more;
    } else {
      RunsJoin(cs, Happened(cs, s, es[0]), es[1..], more);
      assert (es + more)[1..] == es[1..] + more;
    }
  }
}
