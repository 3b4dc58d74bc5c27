/** The pipeline cannot get stuck, and cannot run on for ever without new batches or rival writes. */
module Progress {
  import opened Pipeline
  import opened JobsInv
  import opened FlowInv
  import opened GatesInv
  import opened MessagesInv
  import opened LedgerInv
  import opened FlushInv
  import opened ProducerInv
  import opened Promises
  import BatchCodec

  /** Steps of the stages behind the rotator's accumulator. */
  predicate Internal(a: Action) {
    a == ByRotator(Send) || a.ByWorker? || a.ByCommitter? || a.ByResolver?
  }

  // ---------- completions always fit ----------

  lemma HeldCount(j: Jobs, h: History)
    requires Conserved(j, h)
    ensures |j.sending| + |j.enc| + |j.upl| + |j.chan| + |j.ready| + |Hand(j.com)| + |InResolver(j.res)| == |Live(h)|
  {
    hide Unaltered, Live, Hand, InResolver;
    assert |Total(j)| == |multiset(Live(h))|;
  }

  /** Completions waiting in the channel and in `ready` are at most the batches in flight; so the channel
      has room for every batch a worker still holds, and no completion send blocks. */
  lemma CompletionsFit(c: Config, s: State)
    requires Local(c, s)
    ensures |s.jobs.chan| + |s.jobs.ready| <= |Live(s.hist)| <= c.maxBatches
    ensures |s.jobs.enc| + |s.jobs.upl| > 0 ==> |s.jobs.chan| < c.maxBatches
  {
    hide Conserved, Phases, Cursor, Gated, Typed, InOrder, Housed, Resolved, Balanced, Flushing, Live;
    HeldCount(s.jobs, s.hist);
    ReleasedBelow(s.jobs, s.hist);
    BytesAreBounded(c, s);
  }

  // ---------- some step is always enabled ----------

  lemma UploaderMoves(c: Config, s: State) returns (a: WorkerAction)
    requires Typed(c, s.jobs) && s.jobs.upl != [] && |s.jobs.chan| < c.maxBatches
    ensures WorkerCan(c, s, a) && (a.PutOk? || a.ReportUpload?)
  {
    hide EncodeResult;
    assert UploaderWork(c, s.jobs.upl[0]);
    a := if s.jobs.upl[0].work.Putting? then PutOk(0) else ReportUpload(0);
  }

  lemma EncoderMoves(c: Config, s: State) returns (a: WorkerAction)
    requires Typed(c, s.jobs) && Gated(c, s) && c.uploaders >= 1
    requires s.jobs.enc != [] && s.jobs.upl == [] && |s.jobs.chan| < c.maxBatches
    ensures WorkerCan(c, s, a) && (a.Encode? || a.ToUploader? || a.ReportEncode?)
  {
    hide EncodeResult;
    assert EncoderWork(c, s.jobs.enc[0]);
    var work := s.jobs.enc[0].work;
    a := if work.Encoding? then Encode(0) else if work.Encoded? then ToUploader(0) else ReportEncode(0);
  }

  lemma UpstreamMoves(c: Config, s: State) returns (a: Action)
    requires ValidConfig(c) && Local(c, s) && Upstream(s.jobs) != multiset{} && s.jobs.chan == []
    ensures Enabled(c, s, a) && Internal(a)
  {
    hide Conserved, Phases, Cursor, Typed, InOrder, Housed, Resolved, Balanced, Flushing, WorkerCan,
         BatchCodec.Lossless;
    CompletionsFit(c, s);
    if s.jobs.upl != [] {
      var x := UploaderMoves(c, s);
      a := ByWorker(x);
    } else if s.jobs.enc != [] {
      var x := EncoderMoves(c, s);
      a := ByWorker(x);
    } else {
      a := ByRotator(Send);
    }
  }

  lemma CommitterMoves(s: State) returns (a: Action)
    requires s.jobs.res.Idle? && !s.jobs.com.Done? && (s.jobs.com.Receiving? ==> s.jobs.chan != [])
    ensures a.ByCommitter? && CommitCan(s, a.committer)
  {
    var j := s.jobs;
    match j.com
    case Receiving => a := ByCommitter(Recv);
    case Gathering => a := ByCommitter(if j.chan != [] then Gather else GatherEnd);
    case Grouping => a := ByCommitter(Group);
    case Reading(_, _, _, _) => a := ByCommitter(CasRead(false));
    case Writing(_, _, _, _, _, _) => a := ByCommitter(CasWrite(Truthful));
    case BackingOff(_, _) => a := ByCommitter(CasRetry);
    case Delivering(out, _) => a := ByCommitter(if out == [] then Delivered else Deliver);
    case Abandoning =>
      if j.ready == map[] {
        a := ByCommitter(Abandoned);
      } else {
        var o :| o in j.ready;
        a := ByCommitter(Abandon(o));
      }
    case Done =>
  }

  /** With nothing upstream and nothing downstream of an idle committer, nothing is in flight. */
  lemma IdleMeansEmpty(c: Config, s: State)
    requires ValidConfig(c) && Local(c, s) && s.jobs.res.Idle? && (s.jobs.com.Receiving? || s.jobs.com.Done?)
    requires Upstream(s.jobs) == multiset{}
    ensures Live(s.hist) == {}
  {
    hide ValidConfig, Conserved, Cursor, Typed, Gated, InOrder, Housed, Resolved, Balanced, Flushing, Upstream;
    if !s.jobs.halted {
      CursorIsUpstream(s.jobs, s.hist);
    }
    NothingLive(s.jobs, s.hist);
  }

  /** While a batch is in flight, some stage can take a step: the ordinal the committer waits for is
      always still upstream of it. */
  lemma NeverStuck(c: Config, s: State) returns (a: Action)
    requires ValidConfig(c) && Local(c, s) && Live(s.hist) != {}
    ensures Enabled(c, s, a) && Internal(a)
  {
    hide ValidConfig, Local, Live, Upstream, CommitCan, RotatorCan, WorkerCan, CallerCan;
    var r := s.jobs.res;
    if !r.Idle? {
      DoneBound(c, s);
      a := ByResolver(if r.Releasing? then Release else if r.done < |r.job.batch.messages| then Resolve else
          Acknowledge);
    } else if s.jobs.com.Done? || (s.jobs.com.Receiving? && s.jobs.chan == []) {
      if s.jobs.com.Done? {
        DoneMeansClosed(c, s);
      }
      if Upstream(s.jobs) == multiset{} {
        IdleMeansEmpty(c, s);
        assert false;
      }
      a := UpstreamMoves(c, s);
    } else {
      a := CommitterMoves(s);
    }
  }

  lemma DoneBound(c: Config, s: State)
    requires Local(c, s)
    ensures s.jobs.res.Resolving? ==> s.jobs.res.done <= |s.jobs.res.job.batch.messages|
  {
    hide Conserved, Cursor, Typed, Gated, InOrder, Balanced, Flushing, Phases, Housed;
  }

  lemma DoneMeansClosed(c: Config, s: State)
    requires Local(c, s) && s.jobs.com.Done?
    ensures s.jobs.chan == []
  {
    hide Conserved, Cursor, Typed, InOrder, Balanced, Flushing, Phases, Housed, Resolved;
  }

  /** The rotator is about to seal a batch outside the 32-bit formats. */
  predicate TooBig(c: Config, s: State) {
    s.front.rot.Reconciling? && !Representable(c, |s.hist.emitted|, s.front.acc)
  }

  /** While any accepted message is unresolved, the rotator or some stage behind it can take a step: a message
      still queued or accumulated is not stuck either. The one exception is a batch outside the formats, alone in
      the producer, whose sealing is not modelled. */
  lemma NoMessageIsStuck(c: Config, s: State, i: nat) returns (a: Action)
    requires ValidConfig(c) && Local(c, s) && i < |s.hist.accepted| && i !in s.acct.watchers
    ensures || (Enabled(c, s, a) && (Internal(a) || a.ByRotator?) && a != ByRotator(Drop))
            || (TooBig(c, s) && Live(s.hist) == {})
  {
    hide ValidConfig, Local, Live, CommitCan, WorkerCan, CallerCan, ResolverCan, Representable;
    if Live(s.hist) != {} {
      a := NeverStuck(c, s);
    } else {
      NothingInFlight(c, s, i);
      var rot := s.front.rot;
      a := ByRotator(if s.front.queue != [] && (rot.Selecting? || rot.Draining?) then Receive
                     else if rot.Selecting? then Tick
                     else if rot.Draining? then DrainDone
                     else if rot.Acquiring? then Acquire
                     else Seal);
    }
  }

  /** With no batch in flight, an unresolved message is in the rotator's hands, and a slot is free. */
  lemma NothingInFlight(c: Config, s: State, i: nat)
    requires ValidConfig(c) && Local(c, s) && Live(s.hist) == {} && i < |s.hist.accepted| && i !in s.acct.watchers
    ensures s.front.acc != [] || s.front.queue != []
    ensures !s.front.rot.Stopped? && !s.front.rot.Sending?
    ensures s.front.rot.Acquiring? ==> s.acct.batchesUsed < c.maxBatches
    ensures s.front.rot.Reconciling? ==> s.jobs.sending == []
    ensures s.front.rot.Selecting? && s.front.queue == [] ==> s.front.acc != []
  {
    hide ValidConfig, Conserved, Phases, Cursor, Typed, Flushing, Housed, Resolved, Balanced, Live, Nonempty;
    HeldCount(s.jobs, s.hist);
    ReleasedBelow(s.jobs, s.hist);
    UnresolvedIsNew(s, i);
    BudgetIsExact(c, s);
    Counts(c);
  }

  /** All batches released: an unresolved message has none. */
  lemma UnresolvedIsNew(s: State, i: nat)
    requires Housed(s.hist) && Resolved(s.hist, s.acct.watchers, s.jobs.res) && Live(s.hist) == {}
    ensures i < |s.hist.home| ==> i in s.acct.watchers
  {
    hide Stretch;
    var h := s.hist;
    if i < |h.home| {
      assert h.home[i].Some? ==> h.home[i].value in Live(h) || h.home[i].value in h.released;
      assert Closed(h, s.jobs.res, i);
    }
  }
}
