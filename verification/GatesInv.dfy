/** Worker pools, channel closing, and the kind of work each stage holds. */
module GatesInv {
  import opened Wrappers
  import opened Accumulator
  import opened Committer
  import opened Pipeline
  import opened JobsInv
  import opened FlowInv

  /** `pendingCh` is closed when the rotator stops, `resolverCh` when the committer is done. */
  predicate Gated(c: Config, s: State) {
    var f, j, g := s.front, s.jobs, s.gates;
    && g.encLive <= c.encoders && |j.enc| <= g.encLive && (g.encLive < c.encoders ==> f.rot.Stopped?)
    && |j.sending| == (if f.rot.Sending? then 1 else 0)
    && (g.encodedClosed ==> g.encLive == 0)
    && g.uplLive <= c.uploaders && |j.upl| <= g.uplLive && (g.uplLive < c.uploaders ==> g.encodedClosed)
    && (g.completionClosed ==> g.uplLive == 0)
    && (j.sawClose || j.com.Done? ==> g.completionClosed && j.chan == [])
    && (j.sawClose ==> !j.com.Receiving? && !j.com.Gathering? && !(j.com.Delivering? && j.com.next == ReceiveNext))
    && (f.rot.Stopped? ==> f.closing && f.acc == [] && f.queue == [])
    && (f.closing ==> f.entering == [] && f.reserved == [])
    && (f.shutdown ==> f.closing)
    && (f.rot.Acquiring? || f.rot.Reconciling? ==> f.acc != [])
    && ((f.rot.Acquiring? || f.rot.Reconciling? || f.rot.Sending?) && f.rot.reason.ByClose? ==>
        f.closing && f.queue == [])
    && (f.rot.Sending? ==> f.acc == [])
  }

  lemma CallerKeepsGates(c: Config, s: State, a: CallerAction)
    requires Gated(c, s) && CallerCan(c, s, a)
    ensures Gated(c, CallerStep(c, s, a))
  {
    hide MessageCost, CostOf;
  }

  lemma RotatorKeepsGates(c: Config, s: State, a: RotatorAction)
    requires Gated(c, s) && RotatorCan(c, s, a)
    ensures Gated(c, RotatorStep(c, s, a))
  {
    hide CostOf, FramedCost, FramingOf, AllResolved, AckFlush, Representable;
  }

  lemma WorkerKeepsGates(c: Config, s: State, a: WorkerAction)
    requires c.encoders >= 1 && c.uploaders >= 1
    requires Gated(c, s) && WorkerCan(c, s, a)
    ensures Gated(c, WorkerStep(c, s, a))
  {
    hide EncodeResult;
  }

  lemma CommitKeepsGates(c: Config, s: State, w: World, a: CommitAction)
    requires Gated(c, s) && CommitCan(s, a)
    ensures Gated(c, CommitStep(c, s, w, a))
  {
    hide Gated, Outcomes, Stored, Unstored, Taken, Left, TakeCount, DoCasRead, DoCasWrite, CasMove;
    if a.CasRead? || a.CasWrite? || a.CasRetry? || a.CasAbort? {
      CasMoves(c, s, w, a);
      CasKeepsGates(c, s, CommitStep(c, s, w, a));
    } else {
      var s' := CommitStep(c, s, w, a);
      GatesSeeClose(c, s);
      CommitterKeepsGates(c, s, s');
    }
  }

  lemma GatesSeeClose(c: Config, s: State)
    requires Gated(c, s)
    ensures s.jobs.sawClose || s.jobs.com.Done? ==> s.gates.completionClosed && s.jobs.chan == []
    ensures s.jobs.sawClose ==>
              && !s.jobs.com.Receiving? && !s.jobs.com.Gathering?
              && !(s.jobs.com.Delivering? && s.jobs.com.next == ReceiveNext)
  {}

  /** The committer leaves the pools alone. */
  lemma CommitterKeepsGates(c: Config, s: State, s': State)
    requires Gated(c, s) && s'.front == s.front && s'.gates == s.gates
    requires s'.jobs.sending == s.jobs.sending && s'.jobs.enc == s.jobs.enc && s'.jobs.upl == s.jobs.upl
    requires s'.jobs.sawClose || s'.jobs.com.Done? ==> s.gates.completionClosed && s'.jobs.chan == []
    requires s'.jobs.sawClose ==>
              && !s'.jobs.com.Receiving? && !s'.jobs.com.Gathering?
              && !(s'.jobs.com.Delivering? && s'.jobs.com.next == ReceiveNext)
    ensures Gated(c, s')
  {}

  lemma CasKeepsGates(c: Config, s: State, s': State)
    requires Gated(c, s) && InCas(s.jobs.com)
    requires s' == s.(jobs := s'.jobs) && CasMove(s.jobs, s'.jobs)
    ensures Gated(c, s')
  {
    hide Outcomes;
  }

  lemma ResolverKeepsGates(c: Config, s: State, a: ResolverAction)
    requires Gated(c, s) && ResolverCan(s, a)
    ensures Gated(c, ResolverStep(s, a))
  {
    hide AckFlush;
  }

  // ---------- kinds of work ----------

  predicate EncoderWork(c: Config, j: Job) {
    match j.work
    case Encoding => true
    case Encoded(payload) => EncodeResult(c, j.batch) == Ok(payload)
    case Finished(err) => err.Some?
    case Putting(_, _) => false
  }

  predicate UploaderWork(c: Config, j: Job) {
    match j.work
    case Putting(payload, attempt) => EncodeResult(c, j.batch) == Ok(payload) && attempt < c.uploadAttempts
    case Finished(_) => true
    case _ => false
  }

  predicate AllFinished(js: seq<Job>) {
    forall i :: 0 <= i < |js| ==> js[i].work.Finished?
  }

  /** Payloads are what the encoder produced for that batch; what reaches the committer is finished. */
  predicate Typed(c: Config, j: Jobs) {
    && (forall i :: 0 <= i < |j.sending| ==> j.sending[i].work.Encoding?)
    && (forall i :: 0 <= i < |j.enc| ==> EncoderWork(c, j.enc[i]))
    && (forall i :: 0 <= i < |j.upl| ==> UploaderWork(c, j.upl[i]))
    && AllFinished(j.chan)
    && (forall o :: o in j.ready ==> j.ready[o].work.Finished?)
    && AllFinished(Hand(j.com)) && AllFinished(InResolver(j.res))
  }

  lemma {:induction false} FinishedSplit(js: seq<Job>)
    requires AllFinished(js)
    ensures AllFinished(Unstored(js))
    ensures forall i :: 0 <= i < |Stored(js)| ==> Stored(js)[i].work == Finished(None)
    ensures forall i :: 0 <= i < |Unstored(js)| ==> Unstored(js)[i].work.err.Some?
  {
    if js == [] {
    } else {
      FinishedSplit(js[..|js| - 1]);
    }
  }

  lemma FinishedOutcomes(taken: seq<Job>, err: Option<Error>)
    requires AllFinished(taken)
    ensures AllFinished(Outcomes(taken, err))
  {
    hide Stored, Unstored;
    FinishedSplit(taken);
  }

  lemma FrontKeepsTyped(c: Config, s: State, a: RotatorAction)
    requires Typed(c, s.jobs) && RotatorCan(c, s, a)
    ensures Typed(c, RotatorStep(c, s, a).jobs)
  {
    hide CostOf, FramedCost, FramingOf, AllResolved, AckFlush, Representable, EncodeResult, Hand, InResolver;
  }

  lemma WorkerKeepsTyped(c: Config, s: State, a: WorkerAction)
    requires c.uploadAttempts >= 1
    requires Typed(c, s.jobs) && WorkerCan(c, s, a)
    ensures Typed(c, WorkerStep(c, s, a).jobs)
  {
    hide EncodeResult, Hand, InResolver;
  }

  lemma CommitKeepsTyped(c: Config, s: State, w: World, a: CommitAction)
    requires Typed(c, s.jobs) && CommitCan(s, a)
    ensures Typed(c, CommitStep(c, s, w, a).jobs)
  {
    hide EncodeResult, Outcomes, Stored, Unstored, TakeCount, DoCasRead, DoCasWrite, CasMove, EncoderWork, UploaderWork;
    if a.CasRead? || a.CasWrite? || a.CasRetry? || a.CasAbort? {
      CasMoves(c, s, w, a);
      CasKeepsTyped(c, s.jobs, CommitStep(c, s, w, a).jobs);
    } else if a.Group? {
      var k := TakeCount(s.jobs.ready, s.jobs.next, c.groupSize);
      FinishedSplit(Taken(s.jobs.ready, s.jobs.next, k));
    }
  }

  lemma CasKeepsTyped(c: Config, j: Jobs, j': Jobs)
    requires Typed(c, j) && InCas(j.com) && CasMove(j, j')
    ensures Typed(c, j')
  {
    hide Outcomes, EncoderWork, UploaderWork;
    if j'.com.Delivering? {
      var err :| j'.com.out == Outcomes(j.com.taken, err);
      FinishedOutcomes(j.com.taken, err);
    }
  }

  lemma ResolverKeepsTyped(c: Config, s: State, a: ResolverAction)
    requires Typed(c, s.jobs) && ResolverCan(s, a)
    ensures Typed(c, ResolverStep(s, a).jobs)
  {
    hide EncoderWork, UploaderWork, Hand, AckFlush;
  }
}
