/** The part of a producer's invariant that speaks of the shared store: its own steps keep it, and so
    does everything another producer may do. */
module SharedInv {
  import opened Wrappers
  import opened ManifestLog
  import opened ObjStore
  import opened Accumulator
  import opened Committer
  import opened Pipeline
  import opened JobsInv
  import opened FlowInv
  import opened GatesInv
  import opened MessagesInv
  import opened LedgerInv
  import opened WorldInv
  import opened BlocksInv
  import opened ProducerInv
  import BatchCodec
  import FlushInv

  ghost predicate Shared(c: Config, s: State, w: World) {
    && AllRepresentable(c, s.hist)
    && JobsBacked(c, s.jobs, s.hist, w) && WatchersDurable(c, s.hist, s.acct.watchers, w)
    && OwnBlocks(c, s.hist, w) && OwnOrder(c.run, w.blocks) && CopiesBound(c, w.blocks)
    && Frontier(c, s.jobs, w.blocks) && Versions(c, s.jobs, w.objects)
  }

  // ---------- callers and rotator ----------

  /** Batches may be added upstream; nothing the store knows about changes. */
  lemma QuietKeepsShared(c: Config, s: State, s': State, w: World)
    requires Shared(c, s, w) && s'.acct.watchers == s.acct.watchers
    requires s'.jobs == s.jobs.(sending := s'.jobs.sending, enc := s'.jobs.enc)
    requires |s.hist.emitted| <= |s'.hist.emitted| && s'.hist.emitted[..|s.hist.emitted|] == s.hist.emitted
    requires |s.hist.home| <= |s'.hist.home| && s'.hist.home[..|s.hist.home|] == s.hist.home
    requires AllRepresentable(c, s'.hist)
    ensures Shared(c, s', w)
  {
    hide AllRepresentable, JobsBacked, WatchersDurable, OwnBlocks, OwnOrder, CopiesBound, Copies, Stored, Rewritten;
    EmitKeepsBacked(c, s.jobs, s.hist, s'.jobs, s'.hist, w);
    EmitKeepsWatchers(c, s.hist, s'.hist, s.acct.watchers, w);
    EmitKeepsBlocks(c, s.hist, s'.hist, w);
  }

  lemma SameBatchesRepresentable(c: Config, h: History, h': History)
    requires AllRepresentable(c, h) && h'.emitted == h.emitted
    ensures AllRepresentable(c, h')
  {
    hide Representable;
  }

  lemma CallerKeepsShared(c: Config, s: State, w: World, a: CallerAction)
    requires Shared(c, s, w) && CallerCan(c, s, a)
    ensures Shared(c, CallerStep(c, s, a), w)
  {
    hide Shared, AllRepresentable, MessageCost, CostOf;
    var s' := CallerStep(c, s, a);
    SharedRepresentable(c, s, w);
    SameBatchesRepresentable(c, s.hist, s'.hist);
    QuietKeepsShared(c, s, s', w);
  }

  lemma SharedRepresentable(c: Config, s: State, w: World)
    requires Shared(c, s, w)
    ensures AllRepresentable(c, s.hist)
  {
    hide AllRepresentable, JobsBacked, WatchersDurable, OwnBlocks, OwnOrder, CopiesBound, Frontier, Versions;
  }

  lemma SealKeepsShared(c: Config, s: State, w: World)
    requires Shared(c, s, w) && RotatorCan(c, s, Seal)
    ensures Shared(c, RotatorStep(c, s, Seal), w)
  {
    hide Shared, FramedCost, FramingOf, Representable;
    var s' := DoSeal(s);
    SharedRepresentable(c, s, w);
    QuietKeepsShared(c, s, s', w);
  }

  /** Dropped messages are resolved with an error. */
  lemma DropKeepsShared(c: Config, s: State, w: World)
    requires Local(c, s) && Shared(c, s, w) && RotatorCan(c, s, Drop)
    ensures Shared(c, RotatorStep(c, s, Drop), w)
  {
    hide Shared, Local, AllRepresentable, CostOf, AckFlush;
    var s1 := DoDrop(s).(acct := DoDrop(s).acct.(watchers := s.acct.watchers));
    SharedRepresentable(c, s, w);
    SameBatchesRepresentable(c, s.hist, s1.hist);
    QuietKeepsShared(c, s, s1, w);
    DropResolvesWithError(c, s);
    MoreErrorsKeepShared(c, s1, DoDrop(s), w);
  }

  lemma DropResolvesWithError(c: Config, s: State)
    requires Local(c, s) && RotatorCan(c, s, Drop)
    ensures var watchers' := DoDrop(s).acct.watchers;
            forall i :: i in watchers' && watchers'[i] == None ==> i in s.acct.watchers && s.acct.watchers[i] == None
  {
    hide Conserved, Phases, Cursor, Gated, Typed, Housed, Resolved, Balanced, FlushInv.Flushing, AckFlush, CostOf;
    AccIsRange(s);
    WatchersAreHoused(s.hist, s.acct.watchers, s.jobs.res);
    AllResolvedAt(s.acct.watchers, s.front.acc, Some(Shutdown), |s.hist.home|);
  }

  lemma MoreErrorsKeepShared(c: Config, s: State, s': State, w: World)
    requires Shared(c, s, w) && s'.jobs == s.jobs && s'.hist == s.hist
    requires forall i :: i in s'.acct.watchers && s'.acct.watchers[i] == None ==>
            i in s.acct.watchers && s.acct.watchers[i] == None
    ensures Shared(c, s', w)
  {
    hide AllRepresentable, JobsBacked, OwnBlocks, OwnOrder, CopiesBound, Frontier, Versions, Durable;
  }

  lemma RotatorKeepsShared(c: Config, s: State, w: World, a: RotatorAction)
    requires Local(c, s) && Shared(c, s, w) && RotatorCan(c, s, a)
    ensures Shared(c, RotatorStep(c, s, a), w)
  {
    hide Local, Shared, AllRepresentable, CostOf, AckFlush, DoSeal, DoDrop, Representable;
    if a == Seal {
      SealKeepsShared(c, s, w);
    } else if a == Drop {
      DropKeepsShared(c, s, w);
    } else {
      var s' := RotatorStep(c, s, a);
      SharedRepresentable(c, s, w);
      SameBatchesRepresentable(c, s.hist, s'.hist);
      QuietKeepsShared(c, s, s', w);
    }
  }

  // ---------- workers ----------

  lemma PutElsewhere(c: Config, s: State, w: World, a: WorkerAction)
    requires ValidConfig(c) && WorkerCan(c, s, a)
    ensures var w' := WorkerWorld(c, s, w, a);
            && w'.blocks == w.blocks && ManifestAdvances(c.manifestPath, w.objects, w'.objects)
            && (Versioned(w.objects) ==> Versioned(w'.objects))
  {
    hide EncodeResult, BatchCodec.Lossless;
  }

  lemma WorkerKeepsShared(c: Config, s: State, w: World, a: WorkerAction)
    requires ValidConfig(c) && Local(c, s) && Shared(c, s, w) && Versioned(w.objects) && WorkerCan(c, s, a)
    ensures Shared(c, WorkerStep(c, s, a), WorkerWorld(c, s, w, a))
  {
    hide ValidConfig, AllRepresentable, JobsBacked, WatchersDurable, OwnBlocks, OwnOrder, CopiesBound, Frontier,
         Versions, Versioned, Keeps, Conserved, Phases, Cursor, Gated, Typed, Housed, Resolved, InOrder, Balanced,
         FlushInv.Flushing, WorkerStep, WorkerWorld, WorkerCan, ManifestAdvances;
    var s', w' := WorkerStep(c, s, a), WorkerWorld(c, s, w, a);
    WorkerKeepsBacked(c, s, w, a);
    WorkerKeepsRest(c, s, a);
    WorkerKeepsCommitter(c, s, a);
    KeepsWatchers(c, s.hist, s.acct.watchers, w, w');
    PutElsewhere(c, s, w, a);
    KeepsAllBlocks(c, s.hist, w, w');
    AdvanceKeepsVersions(c, s.jobs, w.objects, w'.objects);
    SameCommitter(c, s.jobs, s'.jobs, w');
  }

  lemma KeepsAllBlocks(c: Config, h: History, w: World, w': World)
    requires OwnBlocks(c, h, w) && Keeps(c, h, w, w') && w'.blocks == w.blocks
    ensures OwnBlocks(c, h, w')
  {
    KeepsBlocks(c, h, w, w', |w.blocks|);
  }

  lemma WorkerKeepsCommitter(c: Config, s: State, a: WorkerAction)
    requires WorkerCan(c, s, a)
    ensures var j' := WorkerStep(c, s, a).jobs;
            j'.com == s.jobs.com && j'.next == s.jobs.next && j'.halted == s.jobs.halted
  {
    hide EncodeResult;
  }

  lemma SameCommitter(c: Config, j: Jobs, j': Jobs, w: World)
    requires Frontier(c, j, w.blocks) && Versions(c, j, w.objects)
    requires j'.com == j.com && j'.next == j.next && j'.halted == j.halted
    ensures Frontier(c, j', w.blocks) && Versions(c, j', w.objects)
  {
    hide Copies, AllLess, Stored, Rewritten;
  }

  // ---------- committer ----------

  /** What the producer has written, and where its committer stands with respect to it. */
  ghost predicate Ledgered(c: Config, j: Jobs, h: History, w: World) {
    && OwnBlocks(c, h, w) && OwnOrder(c.run, w.blocks) && CopiesBound(c, w.blocks)
    && Frontier(c, j, w.blocks) && Versions(c, j, w.objects)
  }

  /** A CAS step that does not change the store. */
  lemma CasKeepsLedgered(c: Config, s: State, w: World, a: CommitAction)
    requires CommitCan(s, a) && (a.CasRead? || a.CasWrite? || a.CasRetry? || a.CasAbort?)
    requires Phases(s.jobs) && Ledgered(c, s.jobs, s.hist, w) && Versioned(w.objects)
    requires NextWorld(c, s, w, ByCommitter(a)) == w
    ensures Ledgered(c, CommitStep(c, s, w, a).jobs, s.hist, w)
  {
    hide OwnBlocks, OwnOrder, CopiesBound, Frontier, Versions, Versioned, CommitStep, NextWorld, CasMove;
    CasMoves(c, s, w, a);
    CasSteps(c, s, w, a);
    CasKeepsFrontier(c, s.jobs, CommitStep(c, s, w, a).jobs, w.blocks);
    CasKeepsVersions(c, s, w, a);
  }

  lemma CasWriteAdds(c: Config, s: State, w: World, answer: Answer, blk: Block)
    requires s.jobs.com.Writing? && WriteApplies(c, s, w, answer)
    requires blk == Block(c.run, GroupOrdinals(s.jobs.com), ItemsOf(c, Stored(s.jobs.com.taken)))
    ensures CasWritten(c, s, w, answer) == World(Written(w.objects, c.manifestPath, s.jobs.com.data), w.blocks + [blk])
    ensures NextWorld(c, s, w, ByCommitter(CasWrite(answer))) == CasWritten(c, s, w, answer)
  {
    hide Stored, ItemsOf, WriteApplies;
  }

  lemma WriteKeepsLedgered(c: Config, s: State, w: World, answer: Answer, w': World)
    requires ValidConfig(c) && s.jobs.com.Writing? && WriteApplies(c, s, w, answer) && w' == CasWritten(c, s, w, answer)
    requires Phases(s.jobs) && Ledgered(c, s.jobs, s.hist, w) && Versioned(w.objects)
    requires AllGenuine(s.hist.emitted, s.jobs.com.taken) && Backed(c, s.hist, w, s.jobs.com.taken)
    ensures Ledgered(c, DoCasWrite(c, s, w, answer).jobs, s.hist, w')
  {
    hide ValidConfig, OwnBlocks, OwnOrder, CopiesBound, Frontier, Versions, Versioned, DoCasWrite, NextWorld, CasMove,
         Backed, AllGenuine, Keeps, CasWritten, WriteApplies;
    hide Stored, ItemsOf;
    var a, j, j' := CasWrite(answer), s.jobs, DoCasWrite(c, s, w, answer).jobs;
    var blk := Block(c.run, GroupOrdinals(j.com), ItemsOf(c, Stored(j.com.taken)));
    CasWriteAdds(c, s, w, answer, blk);
    WriteKeeps(c, s, w, answer);
    WriteKeepsBlocks(c, s, w, w', blk);
    WriteKeepsOrder(c, j, s.hist, w, blk);
    WriteKeepsCopies(c, j, w, blk);
    CasMoves(c, s, w, a);
    CasSteps(c, s, w, a);
    WriteKeepsFrontier(c, j, j', w, blk);
    CasKeepsVersions(c, s, w, a);
  }

  /** Steps that neither take a group nor talk to the store. */
  lemma IdleKeepsLedgered(c: Config, s: State, w: World, a: CommitAction)
    requires CommitCan(s, a) && !a.Group? && !(a.CasRead? || a.CasWrite? || a.CasRetry? || a.CasAbort?)
    requires Ledgered(c, s.jobs, s.hist, w)
    ensures Ledgered(c, CommitStep(c, s, w, a).jobs, s.hist, w)
  {
    hide OwnBlocks, OwnOrder, CopiesBound, AllLess, Copies, Stored, Rewritten;
  }

  lemma GroupKeepsLedgered(c: Config, s: State, w: World)
    requires ValidConfig(c) && CommitCan(s, Group)
    requires Conserved(s.jobs, s.hist) && Phases(s.jobs) && Ledgered(c, s.jobs, s.hist, w)
    ensures Ledgered(c, CommitStep(c, s, w, Group).jobs, s.hist, w)
  {
    hide OwnBlocks, OwnOrder, CopiesBound, Frontier, Conserved, Phases, Stored, Unstored, Taken, Left, TakeCount,
         Rewritten;
    GroupKeepsFrontier(c, s, w);
  }

  lemma HandIsSound(c: Config, s: State, w: World)
    requires Conserved(s.jobs, s.hist) && JobsBacked(c, s.jobs, s.hist, w) && s.jobs.com.Writing?
    ensures AllGenuine(s.hist.emitted, s.jobs.com.taken) && Backed(c, s.hist, w, s.jobs.com.taken)
  {
    hide Total, Live, Genuine, StoredAt, Durable;
  }

  lemma CommitKeepsLedgered(c: Config, s: State, w: World, a: CommitAction, w': World)
    requires ValidConfig(c) && CommitCan(s, a) && Versioned(w.objects) && w' == NextWorld(c, s, w, ByCommitter(a))
    requires Conserved(s.jobs, s.hist) && Phases(s.jobs) && JobsBacked(c, s.jobs, s.hist, w)
            && Ledgered(c, s.jobs, s.hist, w)
    ensures Ledgered(c, CommitStep(c, s, w, a).jobs, s.hist, w')
  {
    hide ValidConfig, Ledgered, DoRecv, DoGroup, DoCasRead, DoCasWrite, Conserved, Phases, JobsBacked, Versioned,
         AllGenuine, Backed, WriteApplies;
    if a.Group? {
      GroupKeepsLedgered(c, s, w);
    } else if a.CasWrite? && WriteApplies(c, s, w, a.answer) {
      HandIsSound(c, s, w);
      WriteKeepsLedgered(c, s, w, a.answer, w');
    } else if a.CasRead? || a.CasWrite? || a.CasRetry? || a.CasAbort? {
      CasKeepsLedgered(c, s, w, a);
    } else {
      IdleKeepsLedgered(c, s, w, a);
    }
  }

  lemma CommitKeepsShared(c: Config, s: State, w: World, a: CommitAction)
    requires CommitCan(s, a) && ValidConfig(c) && Shared(c, s, w) && Versioned(w.objects)
    requires Conserved(s.jobs, s.hist) && Phases(s.jobs) && Housed(s.hist)
            && Resolved(s.hist, s.acct.watchers, s.jobs.res)
    ensures Shared(c, CommitStep(c, s, w, a), NextWorld(c, s, w, ByCommitter(a)))
  {
    hide ValidConfig, AllRepresentable, JobsBacked, WatchersDurable, OwnBlocks, OwnOrder, CopiesBound, Frontier,
         Versions, Versioned, Keeps, Conserved, Phases, Housed, Resolved, CommitStep, NextWorld, CommitCan;
    var s', w' := CommitStep(c, s, w, a), NextWorld(c, s, w, ByCommitter(a));
    CommitKeepsBacked(c, s, w, a, w');
    CommitKeepsRest(c, s, w, a);
    KeepsWatchers(c, s.hist, s.acct.watchers, w, w');
    CommitKeepsLedgered(c, s, w, a, w');
  }

  // ---------- resolver ----------

  lemma ResolverKeepsBacked(c: Config, s: State, w: World, a: ResolverAction)
    requires JobsBacked(c, s.jobs, s.hist, w) && ResolverCan(s, a)
    ensures JobsBacked(c, ResolverStep(s, a).jobs, ResolverStep(s, a).hist, w)
  {
    hide BlobOk, Recorded, AckFlush;
    var h, h' := s.hist, ResolverStep(s, a).hist;
    EmitKeepsBacked(c, s.jobs, h, s.jobs, h', w);
  }

  lemma ResolvedIsDurable(c: Config, s: State, w: World)
    requires Local(c, s) && Shared(c, s, w) && ResolverCan(s, Resolve)
    ensures WatchersDurable(c, s.hist, DoResolve(s).acct.watchers, w)
  {
    hide AllRepresentable, WatchersDurable, OwnBlocks, OwnOrder, CopiesBound, Frontier, Versions, Phases, Cursor, Gated,
         Housed, Resolved, Balanced, FlushInv.Flushing, Total, Live, Genuine, StoredAt, Durable, Committed;
    var r := s.jobs.res;
    ReleasingIsLive(s.jobs, s.hist);
    NotReleased(s.jobs, s.hist);
    ResolveIsFirst(s.hist, s.acct.watchers, r.job, r.done);
    assert InResolver(r)[0] == r.job;
    ResolveKeepsWatchers(c, s, w, r.job.batch.messages[r.done].watcher);
  }

  lemma ResolverKeepsShared(c: Config, s: State, w: World, a: ResolverAction)
    requires Local(c, s) && Shared(c, s, w) && ResolverCan(s, a)
    ensures Shared(c, ResolverStep(s, a), w)
  {
    hide Local, AllRepresentable, JobsBacked, WatchersDurable, OwnBlocks, OwnOrder, CopiesBound, Frontier, Versions,
         AckFlush;
    var s' := ResolverStep(s, a);
    SameBatchesRepresentable(c, s.hist, s'.hist);
    ResolverKeepsBacked(c, s, w, a);
    if a == Resolve {
      ResolvedIsDurable(c, s, w);
    }
    EmitKeepsWatchers(c, s.hist, s'.hist, s'.acct.watchers, w);
    EmitKeepsBlocks(c, s.hist, s'.hist, w);
    SameCommitter(c, s.jobs, s'.jobs, w);
  }

  lemma LocalParts(c: Config, s: State)
    requires Local(c, s)
    ensures Conserved(s.jobs, s.hist) && Phases(s.jobs) && Housed(s.hist)
            && Resolved(s.hist, s.acct.watchers, s.jobs.res)
  {
    hide Conserved, Phases, Cursor, Gated, Typed, InOrder, Housed, Resolved, Balanced, FlushInv.Flushing;
  }

  /** Every action of the producer keeps what it may say of the store. */
  lemma StepKeepsShared(c: Config, s: State, w: World, a: Action)
    requires ValidConfig(c) && Local(c, s) && Shared(c, s, w) && Versioned(w.objects) && Enabled(c, s, a)
    ensures Shared(c, NextState(c, s, w, a), NextWorld(c, s, w, a))
  {
    hide ValidConfig, Local, Shared, Versioned, CallerStep, RotatorStep, WorkerStep, CommitStep, ResolverStep,
         CallerCan, RotatorCan, WorkerCan, CommitCan, ResolverCan, WorkerWorld, CasWritten, Conserved, Phases, Housed,
         Resolved;
    match a
    case ByCaller(x) => CallerKeepsShared(c, s, w, x);
    case ByRotator(x) => RotatorKeepsShared(c, s, w, x);
    case ByWorker(x) => WorkerKeepsShared(c, s, w, x);
    case ByCommitter(x) =>
      LocalParts(c, s);
      CommitKeepsShared(c, s, w, x);
    case ByResolver(x) => ResolverKeepsShared(c, s, w, x);
  }

  // ---------- what producers do to each other ----------

  /** What a step of producer `c` may do to the store: write its own data objects, or write the manifest
      once and record the block. */
  ghost predicate Touches(c: Config, w: World, w': World) {
    && (forall p :: p != c.manifestPath && (forall o :: p != c.location(o)) ==>
          (p in w'.objects <==> p in w.objects) && (p in w.objects ==> w'.objects[p] == w.objects[p]))
    && (|| (w'.blocks == w.blocks && VersionRead(w'.objects, c.manifestPath) == VersionRead(w.objects, c.manifestPath)
            && DataAt(w'.objects, c.manifestPath) == DataAt(w.objects, c.manifestPath))
        || (|w'.blocks| == |w.blocks| + 1 && w'.blocks[..|w.blocks|] == w.blocks && w'.blocks[|w.blocks|].run == c.run
            && VersionOf(w'.objects, c.manifestPath) == VersionOf(w.objects, c.manifestPath) + 1))
    && (Versioned(w.objects) ==> Versioned(w'.objects))
  }

  lemma StepTouches(c: Config, s: State, w: World, a: Action)
    requires ValidConfig(c) && Enabled(c, s, a)
    ensures Touches(c, w, NextWorld(c, s, w, a))
  {
    hide EncodeResult, Stored, ItemsOf, Matches, BatchCodec.Lossless, CallerCan, RotatorCan, ResolverCan, WriteApplies;
  }

  /** Different runs share the manifest and nothing else. */
  ghost predicate Apart(c: Config, q: Config) {
    && c.manifestPath == q.manifestPath && c.run != q.run
    && (forall o, p :: c.location(o) != q.location(p))
  }

  lemma OtherKeepsOwn(c: Config, q: Config, h: History, w: World, w': World)
    requires ValidConfig(q) && Apart(c, q) && Touches(c, w, w')
    ensures Keeps(q, h, w, w') && ManifestAdvances(q.manifestPath, w.objects, w'.objects)
    ensures w'.blocks == w.blocks || (|w'.blocks| == |w.blocks| + 1 && w'.blocks[..|w.blocks|] == w.blocks
            && w'.blocks[|w.blocks|].run != q.run)
  {
    hide EntriesOf, BatchCodec.Decoded, BatchCodec.Lossless;
    forall o | 0 <= o < |h.emitted| && BlobOk(q, w.objects, h.emitted[o])
      ensures BlobOk(q, w'.objects, h.emitted[o])
    {
      var p := q.location(h.emitted[o].ordinal);
      assert p != c.manifestPath && forall x :: p != c.location(x);
    }
  }

  lemma ForeignBlock(q: Config, j: Jobs, h: History, w: World, w': World)
    requires OwnBlocks(q, h, w) && OwnOrder(q.run, w.blocks) && CopiesBound(q, w.blocks) && Frontier(q, j, w.blocks)
    requires Keeps(q, h, w, w')
    requires |w'.blocks| == |w.blocks| + 1 && w'.blocks[..|w.blocks|] == w.blocks && w'.blocks[|w.blocks|].run != q.run
    ensures OwnBlocks(q, h, w') && OwnOrder(q.run, w'.blocks) && CopiesBound(q, w'.blocks) && Frontier(q, j, w'.blocks)
  {
    hide BlobOk, Copies, Stored, Increasing, Precedes, AllLess, OwnBlock, Keeps;
    KeepsBlocks(q, h, w, w', |w.blocks|);
    var blk := w'.blocks[|w.blocks|];
    assert w'.blocks == w.blocks + [blk];
    forall ordinals
      ensures Copies(w'.blocks, q.run, ordinals) == Copies(w.blocks, q.run, ordinals)
    {
      CopiesGrow(w.blocks, blk, q.run, ordinals);
    }
  }

  /** A step of one producer keeps what any other may say of the store. */
  lemma OtherKeepsShared(c: Config, q: Config, s: State, w: World, w': World)
    requires ValidConfig(q) && Apart(c, q) && Touches(c, w, w') && Shared(q, s, w) && Versioned(w.objects)
    ensures Shared(q, s, w')
  {
    hide ValidConfig, Apart, AllRepresentable, JobsBacked, WatchersDurable, OwnBlocks, OwnOrder, CopiesBound, Frontier,
         Versions, Versioned, Keeps, ManifestAdvances;
    OtherKeepsOwn(c, q, s.hist, w, w');
    KeepsBacked(q, s.jobs, s.hist, w, w');
    KeepsWatchers(q, s.hist, s.acct.watchers, w, w');
    AdvanceKeepsVersions(q, s.jobs, w.objects, w'.objects);
    if w'.blocks == w.blocks {
      KeepsAllBlocks(q, s.hist, w, w');
    } else {
      ForeignBlock(q, s.jobs, s.hist, w, w');
    }
  }
}
