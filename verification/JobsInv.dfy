/** Where the batches are: every sealed and unreleased batch is in exactly one stage, unaltered, and
    the committer's cursor separates the settled ordinals from the ones still upstream. */
module JobsInv {
  import opened Wrappers
  import opened ObjStore
  import opened Committer
  import opened Pipeline

  /** The ordinals in a list of jobs, with multiplicity. */
  function Bag(js: seq<Job>): multiset<nat> {
    multiset(Ordinals(js))
  }

  /** Jobs in the committer's hand. */
  function Hand(com: Commit): seq<Job> {
    match com
    case Reading(taken, _, _, _) => taken
    case Writing(taken, _, _, _, _, _) => taken
    case BackingOff(taken, _) => taken
    case Delivering(out, _) => out
    case _ => []
  }

  function InResolver(res: Resolver): seq<Job> {
    match res
    case Idle => []
    case Resolving(job, _) => [job]
    case Releasing(job) => [job]
  }

  /** Ordinals the committer has taken out of `ready` and not yet seen released. */
  function Downstream(j: Jobs): multiset<nat> {
    Bag(Hand(j.com)) + Bag(InResolver(j.res))
  }

  function Upstream(j: Jobs): multiset<nat> {
    Bag(j.sending) + Bag(j.enc) + Bag(j.upl) + Bag(j.chan)
  }

  /** Every ordinal held by any stage, with multiplicity. */
  function Total(j: Jobs): multiset<nat> {
    Upstream(j) + multiset(j.ready.Keys) + Downstream(j)
  }

  function Live(h: History): set<nat> {
    Below(|h.emitted|) - h.released
  }

  predicate Genuine(emitted: seq<Batch>, b: Batch) {
    b.ordinal < |emitted| && emitted[b.ordinal] == b
  }

  predicate AllGenuine(emitted: seq<Batch>, js: seq<Job>) {
    forall i :: 0 <= i < |js| ==> Genuine(emitted, js[i].batch)
  }

  predicate ReadyGenuine(emitted: seq<Batch>, ready: map<nat, Job>) {
    forall o :: o in ready ==> ready[o].batch.ordinal == o && Genuine(emitted, ready[o].batch)
  }

  predicate Unaltered(j: Jobs, emitted: seq<Batch>) {
    && AllGenuine(emitted, j.sending) && AllGenuine(emitted, j.enc) && AllGenuine(emitted, j.upl)
    && AllGenuine(emitted, j.chan) && ReadyGenuine(emitted, j.ready)
    && AllGenuine(emitted, Hand(j.com)) && AllGenuine(emitted, InResolver(j.res))
  }

  /** Each live ordinal is held exactly once, by an unaltered batch, and no other ordinal is held. */
  predicate Conserved(j: Jobs, h: History) {
    && h.released <= Below(|h.emitted|)
    && (forall o :: 0 <= o < |h.emitted| ==> h.emitted[o].ordinal == o)
    && Total(j) == multiset(Live(h))
    && Unaltered(j, h.emitted)
  }

  // ---------- bags ----------

  lemma BagAppend(a: seq<Job>, b: seq<Job>)
    ensures Bag(a + b) == Bag(a) + Bag(b)
  {
    assert Ordinals(a + b) == Ordinals(a) + Ordinals(b);
  }

  lemma BagOne(j: Job)
    ensures Bag([j]) == multiset{j.batch.ordinal}
    ensures Bag([]) == multiset{}
  {
    assert Ordinals([j]) == [j.batch.ordinal];
    assert Ordinals([]) == [];
  }

  lemma BagHead(js: seq<Job>)
    requires js != []
    ensures Bag(js) == multiset{js[0].batch.ordinal} + Bag(js[1..])
  {
    assert js == [js[0]] + js[1..];
    BagAppend([js[0]], js[1..]);
    BagOne(js[0]);
  }

  lemma BagWithout(js: seq<Job>, i: nat)
    requires i < |js|
    ensures Bag(js) == Bag(Without(js, i)) + multiset{js[i].batch.ordinal}
  {
    assert js == js[..i] + ([js[i]] + js[i + 1..]);
    BagAppend(js[..i], [js[i]] + js[i + 1..]);
    BagAppend([js[i]], js[i + 1..]);
    BagAppend(js[..i], js[i + 1..]);
    BagOne(js[i]);
  }

  lemma BagUpdate(js: seq<Job>, i: nat, work: Work)
    requires i < |js|
    ensures Bag(js[i := js[i].(work := work)]) == Bag(js)
  {
    assert Ordinals(js[i := js[i].(work := work)]) == Ordinals(js);
  }

  lemma BagStamped(js: seq<Job>, err: Option<Error>)
    ensures Bag(Stamped(js, err)) == Bag(js)
  {
    assert Ordinals(Stamped(js, err)) == Ordinals(js);
  }

  lemma {:induction false} BagSplit(js: seq<Job>)
    ensures Bag(Stored(js)) + Bag(Unstored(js)) == Bag(js)
  {
    hide Bag;
    if js == [] {
      BagOne(Job(Batch(0, [], None, 0), Encoding));
    } else {
      var earlier, last := js[..|js| - 1], js[|js| - 1];
      BagSplit(earlier);
      assert js == earlier + [last];
      BagAppend(earlier, [last]);
      BagAppend(Stored(earlier), [last]);
      BagAppend(Unstored(earlier), [last]);
      assert Stored(earlier) + [] == Stored(earlier) && Unstored(earlier) + [] == Unstored(earlier);
    }
  }

  lemma BagOutcomes(taken: seq<Job>, err: Option<Error>)
    ensures Bag(Outcomes(taken, err)) == Bag(taken)
  {
    hide Bag, Stored, Unstored, Stamped;
    BagSplit(taken);
    BagStamped(Stored(taken), err);
    BagAppend(Stamped(Stored(taken), err), Unstored(taken));
  }

  lemma {:induction false} BagTaken(ready: map<nat, Job>, next: nat, k: nat)
    requires forall o :: next <= o < next + k ==> o in ready
    requires forall o :: o in ready ==> ready[o].batch.ordinal == o
    ensures Bag(Taken(ready, next, k)) + multiset(Left(ready, next, k).Keys) == multiset(ready.Keys)
    decreases k
  {
    if k == 0 {
      assert Taken(ready, next, 0) == [];
      assert Ordinals(Taken(ready, next, 0)) == [];
      assert Left(ready, next, 0) == ready;
    } else {
      BagTaken(ready, next, k - 1);
      TakenOneMore(ready, next, k);
    }
  }

  lemma TakenOneMore(ready: map<nat, Job>, next: nat, k: nat)
    requires k > 0 && forall o :: next <= o < next + k ==> o in ready
    requires forall o :: o in ready ==> ready[o].batch.ordinal == o
    ensures var end: nat := next + k - 1;
            && Bag(Taken(ready, next, k)) == Bag(Taken(ready, next, k - 1)) + multiset{end}
            && multiset(Left(ready, next, k - 1).Keys) == multiset(Left(ready, next, k).Keys) + multiset{end}
  {
    var end: nat := next + k - 1;
    var last := ready[end];
    assert Taken(ready, next, k) == Taken(ready, next, k - 1) + [last];
    BagAppend(Taken(ready, next, k - 1), [last]);
    BagOne(last);
    assert Left(ready, next, k - 1).Keys == Left(ready, next, k).Keys + {end};
  }

  // ---------- genuine batches ----------

  lemma {:induction false} GenuineSplit(emitted: seq<Batch>, js: seq<Job>)
    requires AllGenuine(emitted, js)
    ensures AllGenuine(emitted, Stored(js)) && AllGenuine(emitted, Unstored(js))
  {
    hide Genuine;
    if js == [] {
    } else {
      GenuineSplit(emitted, js[..|js| - 1]);
    }
  }

  lemma GenuineOutcomes(emitted: seq<Batch>, taken: seq<Job>, err: Option<Error>)
    requires AllGenuine(emitted, taken)
    ensures AllGenuine(emitted, Outcomes(taken, err))
  {
    hide Genuine, Stored, Unstored;
    GenuineSplit(emitted, taken);
  }

  // ---------- every step conserves ----------

  lemma StartConserved(c: Config)
    ensures Conserved(Init(c).jobs, Init(c).hist)
  {
    BagOne(Job(Batch(0, [], None, 0), Encoding));
  }

  lemma SealConserves(s: State)
    requires Conserved(s.jobs, s.hist) && s.front.rot.Reconciling? && s.jobs.sending == []
    ensures Conserved(DoSeal(s).jobs, DoSeal(s).hist)
  {
    hide Bag, Hand, InResolver, Genuine, Below, Live, SealedBatch;
    var b := SealedBatch(s);
    BagOne(Job(b, Encoding));
    LiveGrows(s.hist, DoSeal(s).hist);
    GenuineGrows(s.jobs, s.hist.emitted, b);
    SealedIsGenuine(s);
  }

  lemma SealedIsGenuine(s: State)
    requires s.front.rot.Reconciling?
    ensures SealedBatch(s).ordinal == |s.hist.emitted|
    ensures Genuine(s.hist.emitted + [SealedBatch(s)], SealedBatch(s))
  {}

  lemma LiveGrows(h: History, h': History)
    requires h.released <= Below(|h.emitted|)
    requires |h'.emitted| == |h.emitted| + 1 && h'.released == h.released
    ensures var o: nat := |h.emitted|; multiset(Live(h')) == multiset(Live(h)) + multiset{o}
    ensures h'.released <= Below(|h'.emitted|)
  {
    var o: nat := |h.emitted|;
    assert Live(h') == Live(h) + {o};
  }

  lemma LiveShrinks(h: History, o: nat)
    requires o in Live(h) && h.released <= Below(|h.emitted|)
    ensures var h' := h.(released := h.released + {o});
            multiset(Live(h)) == multiset(Live(h')) + multiset{o} && h'.released <= Below(|h.emitted|)
  {
    assert Live(h) == Live(h.(released := h.released + {o})) + {o};
  }

  lemma GenuineGrows(j: Jobs, emitted: seq<Batch>, b: Batch)
    requires Unaltered(j, emitted)
    ensures Unaltered(j, emitted + [b])
  {
    hide Hand, InResolver;
  }

  lemma SendConserves(s: State)
    requires Conserved(s.jobs, s.hist) && s.front.rot.Sending? && |s.jobs.sending| == 1
    ensures Conserved(DoSend(s).jobs, DoSend(s).hist)
  {
    hide Bag, Hand, InResolver, Genuine, Below;
    BagAppend(s.jobs.enc, s.jobs.sending);
    BagOne(s.jobs.sending[0]);
  }

  /** A worker's step on a job it holds, and a job leaving one list for another. */
  lemma WorkConserves(c: Config, s: State, a: WorkerAction)
    requires Conserved(s.jobs, s.hist) && WorkerCan(c, s, a)
    ensures Conserved(WorkerStep(c, s, a).jobs, WorkerStep(c, s, a).hist)
  {
    hide Bag, Hand, InResolver, Genuine, Below, EncodeResult, Without, Live;
    match a
    case Encode(i) => BagUpdate(s.jobs.enc, i, EncodeWork(c, s.jobs.enc[i].batch));
    case ToUploader(i) => ToUploaderConserves(s, i);
    case ReportEncode(i) => ReportEncodeConserves(s, i);
    case EncoderExit =>
    case CloseEncoded =>
    case PutOk(i) => BagUpdate(s.jobs.upl, i, Finished(None));
    case PutFail(i, _) => BagUpdate(s.jobs.upl, i, AfterFailedPut(c, s.jobs.upl[i].work));
    case PutAbort(i) => BagUpdate(s.jobs.upl, i, Finished(Some(Shutdown)));
    case ReportUpload(i) => ReportUploadConserves(s, i);
    case UploaderExit =>
    case CloseCompletion =>
  }

  lemma ToUploaderConserves(s: State, i: nat)
    requires Conserved(s.jobs, s.hist) && i < |s.jobs.enc| && s.jobs.enc[i].work.Encoded?
    ensures Conserved(DoToUploader(s, i).jobs, DoToUploader(s, i).hist)
  {
    hide Bag, Hand, InResolver, Genuine, Below, Live;
    var j := s.jobs.enc[i];
    var put := j.(work := Putting(j.work.payload, 0));
    BagWithout(s.jobs.enc, i);
    BagAppend(s.jobs.upl, [put]);
    BagOne(put);
  }

  lemma ReportEncodeConserves(s: State, i: nat)
    requires Conserved(s.jobs, s.hist) && i < |s.jobs.enc|
    ensures Conserved(DoReportEncode(s, i).jobs, DoReportEncode(s, i).hist)
  {
    hide Bag, Hand, InResolver, Genuine, Below, Live;
    BagWithout(s.jobs.enc, i);
    BagAppend(s.jobs.chan, [s.jobs.enc[i]]);
    BagOne(s.jobs.enc[i]);
  }

  lemma ReportUploadConserves(s: State, i: nat)
    requires Conserved(s.jobs, s.hist) && i < |s.jobs.upl|
    ensures Conserved(DoReportUpload(s, i).jobs, DoReportUpload(s, i).hist)
  {
    hide Bag, Hand, InResolver, Genuine, Below, Live;
    BagWithout(s.jobs.upl, i);
    BagAppend(s.jobs.chan, [s.jobs.upl[i]]);
    BagOne(s.jobs.upl[i]);
  }

  /** No two jobs share an ordinal, so filing a completion in `ready` overwrites nothing. */
  lemma ChanHeadIsNew(j: Jobs, h: History)
    requires Conserved(j, h) && j.chan != []
    ensures j.chan[0].batch.ordinal !in j.ready
    ensures j.chan[0].batch.ordinal in Live(h)
    ensures Downstream(j)[j.chan[0].batch.ordinal] == 0
  {
    hide Bag, Hand, InResolver, Genuine, Below, Live;
    BagHead(j.chan);
    var o := j.chan[0].batch.ordinal;
    assert Total(j)[o] == multiset(Live(h))[o] <= 1;
  }

  lemma FileConserves(j: Jobs, h: History, com: Commit)
    requires Conserved(j, h) && j.chan != [] && Hand(j.com) == Hand(com) == []
    ensures Conserved(j.(chan := j.chan[1..], ready := j.ready[j.chan[0].batch.ordinal := j.chan[0]], com := com), h)
  {
    hide Bag, Hand, InResolver, Genuine, Below, Live, Total;
    ChanHeadIsNew(j, h);
    FileKeepsTotal(j, com);
  }

  lemma FileKeepsTotal(j: Jobs, com: Commit)
    requires j.chan != [] && j.chan[0].batch.ordinal !in j.ready && Hand(j.com) == Hand(com) == []
    ensures Total(j.(chan := j.chan[1..], ready := j.ready[j.chan[0].batch.ordinal := j.chan[0]], com := com))
         == Total(j)
  {
    hide Bag, Hand, InResolver;
    BagHead(j.chan);
    var o := j.chan[0].batch.ordinal;
    assert j.ready[o := j.chan[0]].Keys == j.ready.Keys + {o};
    assert multiset(j.ready.Keys + {o}) == multiset(j.ready.Keys) + multiset{o};
  }

  lemma HaltedRecvConserves(s: State)
    requires Conserved(s.jobs, s.hist) && s.jobs.com.Receiving? && s.jobs.chan != [] && s.jobs.halted
    ensures Conserved(DoRecv(s).jobs, DoRecv(s).hist)
  {
    hide Bag, InResolver, Genuine, Below, Live;
    BagHead(s.jobs.chan);
    BagOne(s.jobs.chan[0]);
    BagStamped([s.jobs.chan[0]], Some(ProducerHalted));
  }

  lemma GroupConserves(c: Config, s: State, w: World)
    requires Conserved(s.jobs, s.hist) && s.jobs.com.Grouping?
    ensures Conserved(DoGroup(c, s, w).jobs, DoGroup(c, s, w).hist)
  {
    hide Bag, Genuine, Below, Live, Stored, Unstored, Taken, Left, Total, Unaltered, AfterDrain;
    var k := TakeCount(s.jobs.ready, s.jobs.next, c.groupSize);
    if k == 0 {
      AfterDrainHand(s.jobs.sawClose);
      SameHand(s.jobs, s.hist, DoGroup(c, s, w).jobs);
    } else {
      var taken := Taken(s.jobs.ready, s.jobs.next, k);
      BagSplit(taken);
      BagOne(Job(Batch(0, [], None, 0), Encoding));
      if AllGenuine(s.hist.emitted, taken) {
        GenuineSplit(s.hist.emitted, taken);
      }
      TakeConserves(s.jobs, s.hist, k, DoGroup(c, s, w).jobs);
    }
  }

  lemma AfterDrainHand(sawClose: bool)
    ensures Hand(AfterDrain(sawClose)) == []
  {}

  /** `k` jobs leave `ready` for the committer's hand. */
  lemma TakeConserves(j: Jobs, h: History, k: nat, j': Jobs)
    requires Conserved(j, h) && Hand(j.com) == []
    requires forall o :: j.next <= o < j.next + k ==> o in j.ready
    requires j' == j.(ready := Left(j.ready, j.next, k), next := j'.next, com := j'.com)
    requires Bag(Hand(j'.com)) == Bag(Taken(j.ready, j.next, k))
    requires AllGenuine(h.emitted, Taken(j.ready, j.next, k)) ==> AllGenuine(h.emitted, Hand(j'.com))
    ensures Conserved(j', h)
  {
    hide Bag, Hand, InResolver, Genuine, Below, Live, Taken, Left;
    BagOne(Job(Batch(0, [], None, 0), Encoding));
    BagTaken(j.ready, j.next, k);
    TakenGenuine(h.emitted, j.ready, j.next, k);
  }

  lemma TakenGenuine(emitted: seq<Batch>, ready: map<nat, Job>, next: nat, k: nat)
    requires ReadyGenuine(emitted, ready)
    requires forall o :: next <= o < next + k ==> o in ready
    ensures AllGenuine(emitted, Taken(ready, next, k)) && ReadyGenuine(emitted, Left(ready, next, k))
  {
    hide Genuine;
  }

  /** The hand is relabelled: same jobs, other outcomes. */
  lemma OutcomesConserve(j: Jobs, h: History, taken: seq<Job>, err: Option<Error>, next: Then, halted: bool)
    requires Conserved(j, h) && Hand(j.com) == taken
    ensures Conserved(j.(halted := halted, com := Delivering(Outcomes(taken, err), next)), h)
  {
    hide Bag, InResolver, Genuine, Below, Live, Outcomes;
    BagOutcomes(taken, err);
    GenuineOutcomes(h.emitted, taken, err);
  }

  lemma CasErrorConserves(c: Config, s: State, taken: seq<Job>, attempt: nat)
    requires Conserved(s.jobs, s.hist) && Hand(s.jobs.com) == taken
    ensures Conserved(AfterCasError(c, s, taken, attempt).jobs, AfterCasError(c, s, taken, attempt).hist)
  {
    hide Bag, InResolver, Genuine, Below, Live, Outcomes;
    OutcomesConserve(s.jobs, s.hist, taken, Some(ProducerHalted), AbandonReady, true);
  }

  lemma CasConserves(c: Config, s: State, w: World, a: CommitAction)
    requires Conserved(s.jobs, s.hist) && CommitCan(s, a)
    requires a.CasRead? || a.CasWrite? || a.CasRetry? || a.CasAbort?
    ensures Conserved(CommitStep(c, s, w, a).jobs, CommitStep(c, s, w, a).hist)
  {
    hide Conserved, Outcomes, AfterCasError, ManifestLog.Rewritten, Matches, ItemsOf, Stored;
    var s' := CommitStep(c, s, w, a);
    CasErrorConserves(c, s, s.jobs.com.taken, s.jobs.com.attempt);
    OutcomesConserve(s.jobs, s.hist, s.jobs.com.taken, None, Regroup, s.jobs.halted);
    OutcomesConserve(s.jobs, s.hist, s.jobs.com.taken, Some(Shutdown), Regroup, s.jobs.halted);
    if s' != AfterCasError(c, s, s.jobs.com.taken, s.jobs.com.attempt) && !s'.jobs.com.Delivering? {
      SameHand(s.jobs, s.hist, s'.jobs);
    }
  }

  lemma DeliverConserves(s: State)
    requires Conserved(s.jobs, s.hist) && s.jobs.com.Delivering? && s.jobs.com.out != [] && s.jobs.res.Idle?
    ensures Conserved(DoDeliver(s).jobs, DoDeliver(s).hist)
  {
    hide Bag, Genuine, Below, Live;
    BagHead(s.jobs.com.out);
    BagOne(s.jobs.com.out[0]);
  }

  lemma AbandonConserves(s: State, o: nat)
    requires Conserved(s.jobs, s.hist) && o in s.jobs.ready && s.jobs.res.Idle?
    ensures Conserved(DoAbandon(s, o).jobs, DoAbandon(s, o).hist)
  {
    hide Bag, Hand, Genuine, Below, Live;
    BagOne(s.jobs.ready[o].(work := Finished(Some(ProducerHalted))));
    assert s.jobs.ready.Keys == (s.jobs.ready - {o}).Keys + {o};
    assert multiset((s.jobs.ready - {o}).Keys + {o}) == multiset((s.jobs.ready - {o}).Keys) + multiset{o};
  }

  lemma CommitConserves(c: Config, s: State, w: World, a: CommitAction)
    requires Conserved(s.jobs, s.hist) && CommitCan(s, a)
    ensures Conserved(CommitStep(c, s, w, a).jobs, CommitStep(c, s, w, a).hist)
  {
    hide Bag, Genuine, Below, Live, Total, Unaltered, DoGroup, DoCasRead, DoCasWrite, Outcomes;
    match a
    case Recv =>
      if s.jobs.halted {
        HaltedRecvConserves(s);
      } else {
        FileConserves(s.jobs, s.hist, Gathering);
      }
    case RecvClosed => SameHand(s.jobs, s.hist, DoRecvClosed(s).jobs);
    case Gather => FileConserves(s.jobs, s.hist, Gathering);
    case GatherEnd => SameHand(s.jobs, s.hist, DoGatherEnd(s).jobs);
    case Group => GroupConserves(c, s, w);
    case CasRead(_) => CasConserves(c, s, w, a);
    case CasWrite(_) => CasConserves(c, s, w, a);
    case CasRetry => CasConserves(c, s, w, a);
    case CasAbort => CasConserves(c, s, w, a);
    case Deliver => DeliverConserves(s);
    case Delivered => SameHand(s.jobs, s.hist, DoDelivered(s).jobs);
    case Abandon(o) => AbandonConserves(s, o);
    case Abandoned => SameHand(s.jobs, s.hist, DoAbandoned(s).jobs);
  }

  /** Steps of the committer that move no job. */
  lemma SameHand(j: Jobs, h: History, j': Jobs)
    requires Conserved(j, h)
    requires j' == j.(com := j'.com, sawClose := j'.sawClose) && Hand(j'.com) == Hand(j.com)
    ensures Conserved(j', h)
  {
    hide Bag, Hand, Genuine, Below, Live;
  }

  lemma CancelOne(a: multiset<nat>, b: multiset<nat>, o: nat)
    requires a + multiset{o} == b + multiset{o}
    ensures a == b
  {
    assert a == (a + multiset{o}) - multiset{o};
    assert b == (b + multiset{o}) - multiset{o};
  }

  lemma ReleaseConserves(s: State)
    requires Conserved(s.jobs, s.hist) && s.jobs.res.Releasing?
    ensures Conserved(DoRelease(s).jobs, DoRelease(s).hist)
  {
    hide Bag, Hand, Genuine, Below, Live;
    var s' := DoRelease(s);
    var o := s.jobs.res.job.batch.ordinal;
    BagOne(s.jobs.res.job);
    assert Total(s.jobs) == Total(s'.jobs) + multiset{o};
    assert o in Total(s.jobs);
    LiveShrinks(s.hist, o);
    CancelOne(Total(s'.jobs), multiset(Live(s'.hist)), o);
  }

  lemma ResolverConserves(s: State, a: ResolverAction)
    requires Conserved(s.jobs, s.hist) && ResolverCan(s, a)
    ensures Conserved(ResolverStep(s, a).jobs, ResolverStep(s, a).hist)
  {
    hide Bag, Hand, Genuine, Below, Live;
    if a == Release {
      ReleaseConserves(s);
    }
  }
}
