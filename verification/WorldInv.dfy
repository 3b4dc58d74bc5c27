/** What a producer may say of the shared store: a finished upload is a decodable data object, a batch
    resolved with nil is in the manifest, its own manifest blocks are in ordinal order. */
module WorldInv {
  import opened Wrappers
  import opened Bytes
  import opened ManifestCodec
  import opened ManifestLog
  import opened ObjStore
  import opened Accumulator
  import opened Committer
  import opened Pipeline
  import opened JobsInv
  import opened FlowInv
  import opened GatesInv
  import BatchCodec

  /** The data object of batch `b` is stored, is the batch's entries in the configured compression, and decodes to
      them. */
  ghost predicate BlobOk(c: Config, objects: Objects, b: Batch) {
    && c.location(b.ordinal) in objects
    && var data := objects[c.location(b.ordinal)].data;
       && BatchCodec.Encoded(c.zstd, EntriesOf(b.messages), c.compression) == Ok(data)
       && BatchCodec.Decoded(c.zstd, data) == Ok(EntriesOf(b.messages))
  }

  ghost predicate StoredAt(c: Config, h: History, w: World, o: nat) {
    o < |h.emitted| && BlobOk(c, w.objects, h.emitted[o])
  }

  /** Some manifest write of this run carried ordinal `o`. */
  ghost predicate Recorded(blocks: seq<Block>, run: nat, o: nat) {
    exists k :: 0 <= k < |blocks| && blocks[k].run == run && o in blocks[k].ordinals
  }

  ghost predicate Durable(c: Config, h: History, w: World, o: nat) {
    StoredAt(c, h, w, o) && Recorded(w.blocks, c.run, o)
  }

  /** Jobs finished without error have their data object. */
  ghost predicate Backed(c: Config, h: History, w: World, js: seq<Job>) {
    forall i :: 0 <= i < |js| && js[i].work == Finished(None) ==> StoredAt(c, h, w, js[i].batch.ordinal)
  }

  ghost predicate ReadyBacked(c: Config, h: History, w: World, ready: map<nat, Job>) {
    forall o :: o in ready && ready[o].work == Finished(None) ==> StoredAt(c, h, w, o)
  }

  /** Jobs to be resolved with nil are durable. */
  ghost predicate Committed(c: Config, h: History, w: World, js: seq<Job>) {
    forall i :: 0 <= i < |js| && js[i].work == Finished(None) ==> Durable(c, h, w, js[i].batch.ordinal)
  }

  ghost predicate JobsBacked(c: Config, j: Jobs, h: History, w: World) {
    && Backed(c, h, w, j.upl) && Backed(c, h, w, j.chan) && ReadyBacked(c, h, w, j.ready)
    && (InCas(j.com) ==> Backed(c, h, w, j.com.taken))
    && (j.com.Delivering? ==> Committed(c, h, w, j.com.out))
    && Committed(c, h, w, InResolver(j.res))
  }

  /** Every message whose watcher was resolved with nil is in a durable batch. */
  ghost predicate WatchersDurable(c: Config, h: History, watchers: Watchers, w: World) {
    forall i :: i in watchers && watchers[i] == None ==>
      i < |h.home| && h.home[i].Some? && Durable(c, h, w, h.home[i].value)
  }

  ghost predicate AllRepresentable(c: Config, h: History) {
    forall o :: 0 <= o < |h.emitted| ==> Representable(c, o, h.emitted[o].messages)
  }

  // ---------- the store only gets better ----------

  /** Data objects of sealed batches stay readable and manifest writes are not undone. */
  ghost predicate Keeps(c: Config, h: History, w: World, w': World) {
    && (forall o :: 0 <= o < |h.emitted| && BlobOk(c, w.objects, h.emitted[o]) ==> BlobOk(c, w'.objects, h.emitted[o]))
    && w.blocks <= w'.blocks
  }

  lemma RecordedGrows(blocks: seq<Block>, blocks': seq<Block>, run: nat, o: nat)
    requires Recorded(blocks, run, o) && blocks <= blocks'
    ensures Recorded(blocks', run, o)
  {
    var k :| 0 <= k < |blocks| && blocks[k].run == run && o in blocks[k].ordinals;
    assert blocks'[k] == blocks[k];
  }

  lemma KeepsDurable(c: Config, h: History, w: World, w': World)
    requires Keeps(c, h, w, w')
    ensures forall o :: StoredAt(c, h, w, o) ==> StoredAt(c, h, w', o)
    ensures forall o :: Durable(c, h, w, o) ==> Durable(c, h, w', o)
  {
    hide BlobOk, Recorded;
    forall o: nat | Durable(c, h, w, o)
      ensures Durable(c, h, w', o)
    {
      RecordedGrows(w.blocks, w'.blocks, c.run, o);
    }
  }

  lemma KeepsBacked(c: Config, j: Jobs, h: History, w: World, w': World)
    requires JobsBacked(c, j, h, w) && Keeps(c, h, w, w')
    ensures JobsBacked(c, j, h, w')
  {
    hide StoredAt, Durable, Keeps, InResolver;
    KeepsDurable(c, h, w, w');
  }

  lemma KeepsWatchers(c: Config, h: History, watchers: Watchers, w: World, w': World)
    requires WatchersDurable(c, h, watchers, w) && Keeps(c, h, w, w')
    ensures WatchersDurable(c, h, watchers, w')
  {
    hide StoredAt, Durable, Keeps;
    KeepsDurable(c, h, w, w');
  }

  /** More batches: what was said of the earlier ones still holds. */
  lemma EmitKeepsDurable(c: Config, h: History, h': History, w: World)
    requires |h.emitted| <= |h'.emitted| && h'.emitted[..|h.emitted|] == h.emitted
    ensures forall o :: StoredAt(c, h, w, o) ==> StoredAt(c, h', w, o)
    ensures forall o :: Durable(c, h, w, o) ==> Durable(c, h', w, o)
  {
    hide BlobOk, Recorded;
    forall o: nat | StoredAt(c, h, w, o)
      ensures StoredAt(c, h', w, o)
    {
      assert h'.emitted[..|h.emitted|][o] == h'.emitted[o];
    }
  }

  lemma EmitKeepsBacked(c: Config, j: Jobs, h: History, j': Jobs, h': History, w: World)
    requires JobsBacked(c, j, h, w)
    requires |h.emitted| <= |h'.emitted| && h'.emitted[..|h.emitted|] == h.emitted
    requires j' == j.(sending := j'.sending, enc := j'.enc)
    ensures JobsBacked(c, j', h', w)
  {
    hide StoredAt, Durable, InResolver;
    EmitKeepsDurable(c, h, h', w);
  }

  lemma EmitKeepsWatchers(c: Config, h: History, h': History, watchers: Watchers, w: World)
    requires WatchersDurable(c, h, watchers, w)
    requires |h.emitted| <= |h'.emitted| && h'.emitted[..|h.emitted|] == h.emitted
    requires |h.home| <= |h'.home| && h'.home[..|h.home|] == h.home
    ensures WatchersDurable(c, h', watchers, w)
  {
    hide StoredAt, Durable;
    EmitKeepsDurable(c, h, h', w);
    forall i | i in watchers && watchers[i] == None
      ensures i < |h'.home| && h'.home[i].Some? && Durable(c, h', w, h'.home[i].value)
    {
      assert h'.home[..|h.home|][i] == h'.home[i];
    }
  }

  // ---------- uploads ----------

  /** What the uploader writes decodes to the batch. */
  lemma PayloadDecodes(c: Config, b: Batch, payload: Bytes)
    requires BatchCodec.Lossless(c.zstd) && EncodeResult(c, b) == Ok(payload) && |EntriesOf(b.messages)| < U32_LIMIT
    ensures BatchCodec.Decoded(c.zstd, payload) == Ok(EntriesOf(b.messages))
  {
    hide BatchCodec.Encoded, BatchCodec.Decoded, EntriesOf, BatchCodec.Lossless;
    BatchCodec.BatchRoundTrip(c.zstd, EntriesOf(b.messages), c.compression);
  }

  lemma PutKeeps(c: Config, h: History, w: World, j: Job)
    requires ValidConfig(c) && AllRepresentable(c, h)
    requires Genuine(h.emitted, j.batch) && j.work.Putting? && EncodeResult(c, j.batch) == Ok(j.work.payload)
    requires forall o :: 0 <= o < |h.emitted| ==> h.emitted[o].ordinal == o
    ensures Keeps(c, h, w, PutAt(c, w, j)) && StoredAt(c, h, PutAt(c, w, j), j.batch.ordinal)
  {
    hide BatchCodec.Encoded, BatchCodec.Decoded, EntriesOf, BodyFits, RangesOf, BatchCodec.Lossless;
    var b := j.batch;
    assert Representable(c, b.ordinal, h.emitted[b.ordinal].messages);
    PayloadDecodes(c, b, j.work.payload);
    forall o | 0 <= o < |h.emitted| && BlobOk(c, w.objects, h.emitted[o])
      ensures BlobOk(c, PutAt(c, w, j).objects, h.emitted[o])
    {
      assert c.location(o) == c.location(b.ordinal) ==> o == b.ordinal;
    }
  }

  lemma WorkerKeepsBacked(c: Config, s: State, w: World, a: WorkerAction)
    requires ValidConfig(c) && AllRepresentable(c, s.hist)
    requires Conserved(s.jobs, s.hist) && Typed(c, s.jobs) && JobsBacked(c, s.jobs, s.hist, w)
    requires WorkerCan(c, s, a)
    ensures Keeps(c, s.hist, w, WorkerWorld(c, s, w, a))
    ensures JobsBacked(c, WorkerStep(c, s, a).jobs, s.hist, WorkerWorld(c, s, w, a))
  {
    hide ValidConfig, AllRepresentable, EncodeResult, StoredAt, Durable, InResolver, Total, Live, BlobOk;
    if a.PutOk? || a.PutFail? {
      var j := s.jobs.upl[a.i];
      assert UploaderWork(c, j) && Genuine(s.hist.emitted, j.batch);
      PutKeeps(c, s.hist, w, j);
      KeepsBacked(c, s.jobs, s.hist, w, WorkerWorld(c, s, w, a));
    } else if a.ReportEncode? {
      assert EncoderWork(c, s.jobs.enc[a.i]);
    }
  }

  // ---------- the committer's moves ----------

  lemma {:induction false} SplitByStorage(js: seq<Job>)
    ensures forall i :: 0 <= i < |Stored(js)| ==> Stored(js)[i] in js && Stored(js)[i].work == Finished(None)
    ensures forall i :: 0 <= i < |Unstored(js)| ==> Unstored(js)[i].work != Finished(None)
  {
    if js == [] {
    } else {
      SplitByStorage(js[..|js| - 1]);
    }
  }

  lemma FileKeepsBacked(c: Config, s: State, w: World, a: CommitAction)
    requires JobsBacked(c, s.jobs, s.hist, w) && CommitCan(s, a) && (a.Recv? || a.Gather?)
    ensures JobsBacked(c, CommitStep(c, s, w, a).jobs, s.hist, w)
  {
    hide StoredAt, Durable, InResolver;
  }

  lemma GroupKeepsBacked(c: Config, s: State, w: World)
    requires JobsBacked(c, s.jobs, s.hist, w) && ReadyGenuine(s.hist.emitted, s.jobs.ready) && s.jobs.com.Grouping?
    ensures JobsBacked(c, DoGroup(c, s, w).jobs, s.hist, w)
  {
    hide StoredAt, Durable, InResolver, Stored, Unstored, TakeCount;
    var k := TakeCount(s.jobs.ready, s.jobs.next, c.groupSize);
    var taken := Taken(s.jobs.ready, s.jobs.next, k);
    SplitByStorage(taken);
    forall i | 0 <= i < |taken| && taken[i].work == Finished(None)
      ensures StoredAt(c, s.hist, w, taken[i].batch.ordinal)
    {
      assert s.jobs.next + i in s.jobs.ready;
    }
  }

  /** A group settled with an error owes nothing. */
  lemma ErrorOwesNothing(c: Config, h: History, w: World, taken: seq<Job>, err: Option<Error>)
    requires err.Some?
    ensures Committed(c, h, w, Outcomes(taken, err))
  {
    hide Stored, Unstored, Durable;
    SplitByStorage(taken);
  }

  /** A group settled with nil was recorded, and its uploads are stored. */
  lemma SuccessIsCommitted(c: Config, h: History, w: World, taken: seq<Job>)
    requires Backed(c, h, w, taken)
    requires forall i :: 0 <= i < |Stored(taken)| ==> Recorded(w.blocks, c.run, Stored(taken)[i].batch.ordinal)
    ensures Committed(c, h, w, Outcomes(taken, None))
  {
    hide Stored, Unstored, StoredAt, Recorded;
    SplitByStorage(taken);
    var out := Outcomes(taken, None);
    forall i | 0 <= i < |out| && out[i].work == Finished(None)
      ensures Durable(c, h, w, out[i].batch.ordinal)
    {
      if i < |Stored(taken)| {
        var k :| 0 <= k < |taken| && taken[k] == Stored(taken)[i];
      }
    }
  }

  /** CAS steps that write nothing. */
  lemma CasErrorKeepsBacked(c: Config, s: State, w: World, attempt: nat)
    requires JobsBacked(c, s.jobs, s.hist, w) && InCas(s.jobs.com)
    ensures JobsBacked(c, AfterCasError(c, s, s.jobs.com.taken, attempt).jobs, s.hist, w)
  {
    hide StoredAt, Durable, InResolver, Outcomes;
    ErrorOwesNothing(c, s.hist, w, s.jobs.com.taken, Some(ProducerHalted));
  }

  lemma WriteKeeps(c: Config, s: State, w: World, answer: Answer)
    requires ValidConfig(c) && s.jobs.com.Writing?
    ensures Keeps(c, s.hist, w, CasWritten(c, s, w, answer))
  {
    hide BatchCodec.Decoded, EntriesOf, Stored, Matches, BatchCodec.Lossless, ItemsOf;
  }

  lemma WriteRecords(c: Config, s: State, w: World, answer: Answer)
    requires s.jobs.com.Writing? && WriteApplies(c, s, w, answer)
    ensures var taken := s.jobs.com.taken;
            forall i :: 0 <= i < |Stored(taken)| ==>
              Recorded(CasWritten(c, s, w, answer).blocks, c.run, Stored(taken)[i].batch.ordinal)
  {
    hide Stored, Matches, ItemsOf;
    var js := Stored(s.jobs.com.taken);
    var blocks' := CasWritten(c, s, w, answer).blocks;
    forall i | 0 <= i < |js|
      ensures Recorded(blocks', c.run, js[i].batch.ordinal)
    {
      assert Ordinals(js)[i] == js[i].batch.ordinal;
      assert blocks'[|w.blocks|].ordinals == Ordinals(js);
    }
  }

  lemma CasKeepsBacked(c: Config, s: State, w: World, a: CommitAction, w': World)
    requires ValidConfig(c) && JobsBacked(c, s.jobs, s.hist, w) && CommitCan(s, a)
    requires a.CasRead? || a.CasWrite? || a.CasRetry? || a.CasAbort?
    requires w' == NextWorld(c, s, w, ByCommitter(a))
    ensures Keeps(c, s.hist, w, w') && JobsBacked(c, CommitStep(c, s, w, a).jobs, s.hist, w')
  {
    hide ValidConfig, StoredAt, Durable, InResolver, Outcomes, Stored, Rewritten, AfterCasError, BlobOk, Recorded,
         CasWritten, Keeps, WriteApplies, ItemsOf;
    var taken := s.jobs.com.taken;
    if a.CasWrite? {
      WriteKeeps(c, s, w, a.answer);
    } else {
      KeepsItself(c, s.hist, w);
    }
    KeepsBacked(c, s.jobs, s.hist, w, w');
    CasErrorKeepsBacked(c, s, w', s.jobs.com.attempt);
    if a.CasAbort? {
      ErrorOwesNothing(c, s.hist, w', taken, Some(Shutdown));
    } else if a.CasWrite? && WriteApplies(c, s, w, a.answer) {
      WriteRecords(c, s, w, a.answer);
      SuccessIsCommitted(c, s.hist, w', taken);
    }
  }

  lemma KeepsItself(c: Config, h: History, w: World)
    ensures Keeps(c, h, w, w)
  {}

  lemma CommitKeepsBacked(c: Config, s: State, w: World, a: CommitAction, w': World)
    requires ValidConfig(c) && Conserved(s.jobs, s.hist) && JobsBacked(c, s.jobs, s.hist, w) && CommitCan(s, a)
    requires w' == NextWorld(c, s, w, ByCommitter(a))
    ensures Keeps(c, s.hist, w, w') && JobsBacked(c, CommitStep(c, s, w, a).jobs, s.hist, w')
  {
    hide ValidConfig, StoredAt, Durable, Outcomes, DoGroup, DoCasRead, DoCasWrite, CasWritten, Keeps, Total, Live;
    KeepsItself(c, s.hist, w);
    match a
    case Recv => FileKeepsBacked(c, s, w, a);
    case RecvClosed =>
    case Gather => FileKeepsBacked(c, s, w, a);
    case GatherEnd =>
    case Group => GroupKeepsBacked(c, s, w);
    case CasRead(_) => CasKeepsBacked(c, s, w, a, w');
    case CasWrite(_) => CasKeepsBacked(c, s, w, a, w');
    case CasRetry => CasKeepsBacked(c, s, w, a, w');
    case CasAbort => CasKeepsBacked(c, s, w, a, w');
    case Deliver =>
    case Delivered =>
    case Abandon(o) =>
    case Abandoned =>
  }

  /** Resolving a watcher with nil: its batch is durable. */
  lemma ResolveKeepsWatchers(c: Config, s: State, w: World, i: nat)
    requires WatchersDurable(c, s.hist, s.acct.watchers, w) && Committed(c, s.hist, w, InResolver(s.jobs.res))
    requires s.jobs.res.Resolving? && s.jobs.res.job.work.Finished?
    requires i < |s.hist.home| && s.hist.home[i] == Some(s.jobs.res.job.batch.ordinal)
    ensures WatchersDurable(c, s.hist, WatcherResolved(s.acct.watchers, i, JobError(s.jobs.res.job)), w)
  {
    hide Durable;
    var j := s.jobs.res.job;
    assert j.work == Finished(None) ==> Durable(c, s.hist, w, j.batch.ordinal) by {
      assert InResolver(s.jobs.res)[0] == j;
    }
  }
}
