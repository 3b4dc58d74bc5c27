/** The inductive invariant of one producer, and that each of its own actions keeps it. */
module ProducerInv {
  import opened Wrappers
  import opened ObjStore
  import opened Accumulator
  import opened Committer
  import opened Pipeline
  import opened JobsInv
  import opened FlowInv
  import opened GatesInv
  import opened MessagesInv
  import opened LedgerInv
  import opened FlushInv
  import ManifestLog

  ghost predicate Local(c: Config, s: State) {
    && Conserved(s.jobs, s.hist)
    && Phases(s.jobs) && Cursor(s.jobs, s.hist)
    && Gated(c, s) && Typed(c, s.jobs)
    && InOrder(s.front, s.hist) && Housed(s.hist) && Resolved(s.hist, s.acct.watchers, s.jobs.res)
    && Balanced(c, s.front, s.acct, s.hist)
    && Flushing(s.front, s.acct.flushes, s.hist, s.acct.watchers)
  }

  lemma StartsLocal(c: Config)
    ensures Local(c, Init(c))
  {
    StartConserved(c);
    BagOne(Job(Batch(0, [], None, 0), Encoding));
  }

  // ---------- frames ----------

  /** Conservation and the cursor read only the batches and the releases of the history. */
  lemma JobsFrame(j: Jobs, h: History, h': History)
    requires Conserved(j, h) && Cursor(j, h)
    requires h'.emitted == h.emitted && h'.released == h.released
    ensures Conserved(j, h') && Cursor(j, h')
  {
    hide Total, Downstream, Below, Genuine, Unaltered;
  }

  lemma ResolvedFrame(h: History, h': History, watchers: Watchers, res: Resolver)
    requires Housed(h) && Resolved(h, watchers, res)
    requires h'.home == h.home && h'.emitted == h.emitted && h'.released == h.released && h'.accepted == h.accepted
    ensures Housed(h') && Resolved(h', watchers, res)
  {
    HousedIgnoresReleased(h, h');
    forall i | 0 <= i < |h.home|
      ensures Closed(h', res, i) <==> Closed(h, res, i)
    {}
  }

  // ---------- callers ----------

  /** Enter, GiveUp, CloseAppend, FireShutdown. */
  lemma DoorKeepsLocal(c: Config, s: State, a: CallerAction)
    requires Local(c, s) && CallerCan(c, s, a)
    requires a.Enter? || a.GiveUp? || a.CloseAppend? || a.FireShutdown?
    ensures Local(c, CallerStep(c, s, a))
  {
    hide Conserved, Phases, Cursor, Gated, Typed, Housed, Resolved, Flushing, LiveSum, CostOf;
    var s' := CallerStep(c, s, a);
    CallerKeepsGates(c, s, a);
    FlushFrame(s.front, s.acct.flushes, s.hist, s.acct.watchers, s'.front, s'.hist, s'.acct.watchers);
  }

  lemma ReserveKeepsLocal(c: Config, s: State, i: nat)
    requires Local(c, s) && CallerCan(c, s, Reserve(i))
    ensures Local(c, CallerStep(c, s, Reserve(i)))
  {
    hide Conserved, Phases, Cursor, Gated, Typed, Housed, Resolved, Balanced, Flushing, MessageCost;
    var s' := DoReserve(s, i);
    CallerKeepsGates(c, s, Reserve(i));
    JobsFrame(s.jobs, s.hist, s'.hist);
    ResolvedFrame(s.hist, s'.hist, s.acct.watchers, s.jobs.res);
    ReserveBalances(c, s, i);
    FlushFrame(s.front, s.acct.flushes, s.hist, s.acct.watchers, s'.front, s'.hist, s'.acct.watchers);
  }

  lemma WithdrawKeepsLocal(c: Config, s: State, i: nat)
    requires Local(c, s) && CallerCan(c, s, Withdraw(i))
    ensures Local(c, CallerStep(c, s, Withdraw(i)))
  {
    hide Conserved, Phases, Cursor, Gated, Typed, Housed, Resolved, Balanced, Flushing, MessageCost;
    var s' := DoWithdraw(s, i);
    CallerKeepsGates(c, s, Withdraw(i));
    WithdrawBalances(c, s, i);
    FlushFrame(s.front, s.acct.flushes, s.hist, s.acct.watchers, s'.front, s'.hist, s'.acct.watchers);
  }

  lemma AcceptKeepsLocal(c: Config, s: State, i: nat)
    requires Local(c, s) && CallerCan(c, s, Accept(i))
    ensures Local(c, CallerStep(c, s, Accept(i)))
  {
    hide Conserved, Phases, Cursor, Gated, Typed, Housed, Resolved, Balanced, Flushing, InOrder;
    var s' := DoAccept(s, i);
    CallerKeepsGates(c, s, Accept(i));
    JobsFrame(s.jobs, s.hist, s'.hist);
    AcceptKeepsOrder(s, i);
    AcceptKeepsResolved(s.hist, WithNumber(s.hist, s.front.reserved[i]), s.acct.watchers, s.jobs.res);
    AcceptBalances(c, s, i);
    FlushFrame(s.front, s.acct.flushes, s.hist, s.acct.watchers, s'.front, s'.hist, s'.acct.watchers);
  }

  lemma HandOverKeepsLocal(c: Config, s: State, i: nat)
    requires Local(c, s) && CallerCan(c, s, HandOver(i))
    ensures Local(c, CallerStep(c, s, HandOver(i)))
  {
    hide Conserved, Phases, Cursor, Gated, Typed, Housed, Resolved, Balanced, Flushing, InOrder, CostOf;
    var s' := DoHandOver(c, s, i);
    CallerKeepsGates(c, s, HandOver(i));
    JobsFrame(s.jobs, s.hist, s'.hist);
    HandOverKeepsOrder(c, s, i);
    AcceptKeepsResolved(s.hist, WithNumber(s.hist, s.front.reserved[i]), s.acct.watchers, s.jobs.res);
    HandOverBalances(c, s, i);
    FlushFrame(s.front, s.acct.flushes, s.hist, s.acct.watchers, s'.front, s'.hist, s'.acct.watchers);
  }

  lemma BalancedIgnoresFlushes(c: Config, s: State, a': Account)
    requires Balanced(c, s.front, s.acct, s.hist)
    requires a'.bytesUsed == s.acct.bytesUsed && a'.batchesUsed == s.acct.batchesUsed
    ensures Balanced(c, s.front, a', s.hist)
  {
    hide LiveSum, Loose;
  }

  lemma FlushCallKeepsLocal(c: Config, s: State, a: CallerAction)
    requires Local(c, s) && CallerCan(c, s, a)
    requires a.CallFlush? || a.FlushDrained? || a.FlushGiveUp?
    ensures Local(c, CallerStep(c, s, a))
  {
    hide Conserved, Phases, Cursor, Gated, Typed, Housed, Resolved, Flushing, InOrder, Balanced;
    CallerKeepsGates(c, s, a);
    ReleasedBelow(s.jobs, s.hist);
    BalancedIgnoresFlushes(c, s, CallerStep(c, s, a).acct);
    match a
    case CallFlush => CallKeepsFlushing(s);
    case FlushDrained(n) => DrainedKeepsFlushing(c, s, n);
    case FlushGiveUp(n) => UpdateKeepsFlushing(s.front, s.acct.flushes, n, GaveUp, s.hist, s.acct.watchers);
    case _ =>
  }

  lemma CallerKeepsLocal(c: Config, s: State, a: CallerAction)
    requires Local(c, s) && CallerCan(c, s, a)
    ensures Local(c, CallerStep(c, s, a))
  {
    hide Local, DoReserve, DoWithdraw, DoAccept, DoHandOver, MessageCost;
    match a
    case Enter(_) => DoorKeepsLocal(c, s, a);
    case GiveUp(_) => DoorKeepsLocal(c, s, a);
    case Reserve(i) => ReserveKeepsLocal(c, s, i);
    case Withdraw(i) => WithdrawKeepsLocal(c, s, i);
    case Accept(i) => AcceptKeepsLocal(c, s, i);
    case HandOver(i) => HandOverKeepsLocal(c, s, i);
    case CallFlush => FlushCallKeepsLocal(c, s, a);
    case FlushDrained(_) => FlushCallKeepsLocal(c, s, a);
    case FlushGiveUp(_) => FlushCallKeepsLocal(c, s, a);
    case CloseAppend => DoorKeepsLocal(c, s, a);
    case FireShutdown => DoorKeepsLocal(c, s, a);
  }

  // ---------- rotator ----------

  lemma ReceiveKeepsLocal(c: Config, s: State)
    requires Local(c, s) && RotatorCan(c, s, Receive)
    ensures Local(c, RotatorStep(c, s, Receive))
  {
    hide Conserved, Phases, Cursor, Gated, Typed, Housed, Resolved, Balanced, Flushing, InOrder, CostOf;
    var s' := DoReceive(c, s);
    RotatorKeepsGates(c, s, Receive);
    ReceiveKeepsOrder(c, s);
    ReceiveBalances(c, s);
    FlushFrame(s.front, s.acct.flushes, s.hist, s.acct.watchers, s'.front, s'.hist, s'.acct.watchers);
  }

  /** Tick, SeeClose, Park, Acquire: the rotator moves on with the accumulator it has. */
  lemma PhaseKeepsLocal(c: Config, s: State, a: RotatorAction)
    requires Local(c, s) && RotatorCan(c, s, a)
    requires a.Tick? || a.SeeClose? || a.Park? || a.Acquire?
    ensures Local(c, RotatorStep(c, s, a))
  {
    hide Conserved, Phases, Cursor, Gated, Typed, Housed, Resolved, Flushing, LiveSum, CostOf;
    var s' := RotatorStep(c, s, a);
    RotatorKeepsGates(c, s, a);
    FlushFrame(s.front, s.acct.flushes, s.hist, s.acct.watchers, s'.front, s'.hist, s'.acct.watchers);
  }

  lemma TakeFlushKeepsLocal(c: Config, s: State, n: nat)
    requires Local(c, s) && RotatorCan(c, s, TakeFlush(n))
    ensures Local(c, RotatorStep(c, s, TakeFlush(n)))
  {
    hide Conserved, Phases, Cursor, Gated, Typed, Housed, Resolved, Flushing, LiveSum, CostOf;
    RotatorKeepsGates(c, s, TakeFlush(n));
    TakeKeepsFlushing(s, n);
  }

  lemma DrainDoneKeepsFlushing(s: State)
    requires Flushing(s.front, s.acct.flushes, s.hist, s.acct.watchers) && InOrder(s.front, s.hist)
    requires s.front.rot.Draining? && s.front.queue == []
    ensures var s' := DoDrainDone(s); Flushing(s'.front, s'.acct.flushes, s'.hist, s'.acct.watchers)
  {
    hide AckFlush, Nonempty;
    var s' := DoDrainDone(s);
    if s.front.acc == [] {
      hide Flushing;
      LetGoKeepsFlushing(s.front, s.acct.flushes, s.hist, s.acct.watchers, s'.front, s.hist, s.acct.watchers);
      AckKeepsFlushing(s'.front, s.acct.flushes, s.hist, s.acct.watchers, Some(s.front.rot.flush), None, None);
    } else {
      forall n | 0 <= n < |s.acct.flushes|
        ensures FlushOk(s.acct.flushes[n], n, s'.front, s.hist, s.acct.watchers)
      {
        assert FlushOk(s.acct.flushes[n], n, s.front, s.hist, s.acct.watchers);
      }
      forall o | 0 <= o < |s.hist.emitted| && s.hist.emitted[o].flush.Some?
        ensures Handled(s.hist.emitted[o].flush.value, s'.front, s.acct.flushes)
      {
        assert Handled(s.hist.emitted[o].flush.value, s.front, s.acct.flushes);
      }
    }
  }

  lemma DrainDoneKeepsLocal(c: Config, s: State)
    requires Local(c, s) && RotatorCan(c, s, DrainDone)
    ensures Local(c, RotatorStep(c, s, DrainDone))
  {
    hide Conserved, Phases, Cursor, Gated, Typed, Housed, Resolved, Flushing, LiveSum, CostOf, AckFlush;
    RotatorKeepsGates(c, s, DrainDone);
    DrainDoneKeepsFlushing(s);
  }

  lemma AccIsRange(s: State)
    requires InOrder(s.front, s.hist)
    ensures forall i :: 0 <= i < |s.front.acc| ==> s.front.acc[i].watcher == |s.hist.home| + i
  {
    forall i | 0 <= i < |s.front.acc|
      ensures s.front.acc[i].watcher == |s.hist.home| + i
    {
      assert s.front.acc[i] == s.hist.accepted[|s.hist.home| + i];
    }
  }

  lemma DropKeepsFlushing(s: State)
    requires Flushing(s.front, s.acct.flushes, s.hist, s.acct.watchers) && s.front.rot.Acquiring?
    requires forall i :: i in s.acct.watchers ==>
              i in DoDrop(s).acct.watchers && DoDrop(s).acct.watchers[i] == s.acct.watchers[i]
    ensures var s' := DoDrop(s); Flushing(s'.front, s'.acct.flushes, s'.hist, s'.acct.watchers)
  {
    hide Flushing, AckFlush, AllResolved, CostOf;
    var s' := DoDrop(s);
    LetGoKeepsFlushing(s.front, s.acct.flushes, s.hist, s.acct.watchers, s'.front, s'.hist, s'.acct.watchers);
    AckKeepsFlushing(s'.front, s.acct.flushes, s'.hist, s'.acct.watchers, FlushOf(s.front.rot.reason), Some(Shutdown),
                     None);
  }

  lemma DropKeepsLocal(c: Config, s: State)
    requires Local(c, s) && RotatorCan(c, s, Drop)
    ensures Local(c, RotatorStep(c, s, Drop))
  {
    hide Conserved, Phases, Cursor, Gated, Typed, Housed, Resolved, Balanced, Flushing, AckFlush, CostOf;
    var s' := DoDrop(s);
    RotatorKeepsGates(c, s, Drop);
    AccIsRange(s);
    JobsFrame(s.jobs, s.hist, s'.hist);
    EmptyingKeepsOrder(s.front, s.hist, s'.front, s'.hist);
    DropKeepsResolved(s.hist, s.front.acc, s.acct.watchers, s.jobs.res);
    DropBalances(c, s);
    DropKeepsFlushing(s);
  }

  lemma SealKeepsFlushing(s: State)
    requires Flushing(s.front, s.acct.flushes, s.hist, s.acct.watchers) && s.front.rot.Reconciling?
    ensures var s' := DoSeal(s); Flushing(s'.front, s'.acct.flushes, s'.hist, s'.acct.watchers)
  {
    hide Flushing, FramedCost, FramingOf;
    var s' := DoSeal(s);
    LetGoKeepsFlushing(s.front, s.acct.flushes, s.hist, s.acct.watchers, s'.front, s'.hist, s'.acct.watchers);
  }

  lemma SealKeepsMessages(s: State)
    requires InOrder(s.front, s.hist) && Housed(s.hist) && Resolved(s.hist, s.acct.watchers, s.jobs.res)
    requires Conserved(s.jobs, s.hist) && s.front.rot.Reconciling? && s.front.acc != []
    ensures var s' := DoSeal(s);
            InOrder(s'.front, s'.hist) && Housed(s'.hist) && Resolved(s'.hist, s'.acct.watchers, s'.jobs.res)
  {
    hide Housed, Resolved, Total, Live, FramingOf, FramedCost, InOrder, Below;
    var s' := DoSeal(s);
    EmptyingKeepsOrder(s.front, s.hist, s'.front, s'.hist);
    SealKeepsHomes(s);
    SealKeepsResolved(s.hist, s'.hist, SealedBatch(s), s.acct.watchers, s.jobs.res);
  }

  lemma SealKeepsLocal(c: Config, s: State)
    requires Local(c, s) && RotatorCan(c, s, Seal)
    ensures Local(c, RotatorStep(c, s, Seal))
  {
    hide Conserved, Phases, Cursor, Gated, Typed, Housed, Resolved, Balanced, Flushing, InOrder, DoSeal, RotatorCan;
    SealReady(c, s);
    RotatorKeepsGates(c, s, Seal);
    FrontKeepsTyped(c, s, Seal);
    SealConserves(s);
    SealKeepsCursor(s);
    SealKeepsMessages(s);
    ReleasedBelow(s.jobs, s.hist);
    SealBalances(c, s);
    SealKeepsFlushing(s);
  }

  lemma SealReady(c: Config, s: State)
    requires Gated(c, s) && RotatorCan(c, s, Seal) && Phases(s.jobs)
    ensures s.front.rot.Reconciling? && s.front.acc != [] && s.jobs.sending == []
    ensures Phases(DoSeal(s).jobs)
  {
    hide FramedCost, FramingOf, Representable;
  }

  lemma ReleasedBelow(j: Jobs, h: History)
    requires Conserved(j, h)
    ensures h.released <= Below(|h.emitted|)
  {}

  lemma SendKeepsLocal(c: Config, s: State)
    requires Local(c, s) && RotatorCan(c, s, Send)
    ensures Local(c, RotatorStep(c, s, Send))
  {
    hide Conserved, Phases, Cursor, Gated, Typed, Housed, Resolved, Balanced, Flushing, InOrder;
    var s' := DoSend(s);
    RotatorKeepsGates(c, s, Send);
    FrontKeepsTyped(c, s, Send);
    SendConserves(s);
    FileKeepsCursorOnSend(s);
    SendKeepsFront(c, s);
    FlushFrame(s.front, s.acct.flushes, s.hist, s.acct.watchers, s'.front, s'.hist, s'.acct.watchers);
  }

  lemma SendKeepsFront(c: Config, s: State)
    requires s.front.rot.Sending? && |s.jobs.sending| == 1
    requires Phases(s.jobs) && InOrder(s.front, s.hist) && Balanced(c, s.front, s.acct, s.hist)
    ensures Phases(DoSend(s).jobs) && InOrder(DoSend(s).front, s.hist) && Balanced(c, DoSend(s).front, s.acct, s.hist)
  {
    hide LiveSum, CostOf;
  }

  lemma FileKeepsCursorOnSend(s: State)
    requires Cursor(s.jobs, s.hist) && s.front.rot.Sending? && |s.jobs.sending| == 1
    ensures Cursor(DoSend(s).jobs, DoSend(s).hist)
  {
    hide Bag, Hand, InResolver, Below;
    assert Downstream(DoSend(s).jobs) == Downstream(s.jobs);
  }

  lemma RotatorKeepsLocal(c: Config, s: State, a: RotatorAction)
    requires Local(c, s) && RotatorCan(c, s, a)
    ensures Local(c, RotatorStep(c, s, a))
  {
    hide Local, DoReceive, DoTakeFlush, DoDrainDone, DoDrop, DoSeal, DoSend, Representable;
    match a
    case Receive => ReceiveKeepsLocal(c, s);
    case Tick => PhaseKeepsLocal(c, s, a);
    case TakeFlush(n) => TakeFlushKeepsLocal(c, s, n);
    case DrainDone => DrainDoneKeepsLocal(c, s);
    case SeeClose => PhaseKeepsLocal(c, s, a);
    case Park => PhaseKeepsLocal(c, s, a);
    case Acquire => PhaseKeepsLocal(c, s, a);
    case Drop => DropKeepsLocal(c, s);
    case Seal => SealKeepsLocal(c, s);
    case Send => SendKeepsLocal(c, s);
  }

  // ---------- workers, committer, resolver ----------

  lemma WorkerKeepsLocal(c: Config, s: State, a: WorkerAction)
    requires ValidConfig(c) && Local(c, s) && WorkerCan(c, s, a)
    ensures Local(c, WorkerStep(c, s, a))
  {
    hide Conserved, Phases, Cursor, Gated, Typed, Housed, Resolved, Flushing, InOrder, Balanced, WorkerStep, WorkerCan;
    WorkConserves(c, s, a);
    WorkerKeepsGates(c, s, a);
    WorkerKeepsTyped(c, s, a);
    WorkerKeepsRest(c, s, a);
  }

  lemma WorkerKeepsRest(c: Config, s: State, a: WorkerAction)
    requires Cursor(s.jobs, s.hist) && Phases(s.jobs) && WorkerCan(c, s, a)
    ensures var s' := WorkerStep(c, s, a);
            && Cursor(s'.jobs, s'.hist) && Phases(s'.jobs)
            && s'.front == s.front && s'.acct == s.acct && s'.hist == s.hist && s'.jobs.res == s.jobs.res
  {
    hide Bag, Below, EncodeResult, Stored;
    assert Downstream(WorkerStep(c, s, a).jobs) == Downstream(s.jobs);
  }

  lemma CommitKeepsLocal(c: Config, s: State, w: World, a: CommitAction)
    requires ValidConfig(c) && Local(c, s) && CommitCan(s, a)
    ensures Local(c, CommitStep(c, s, w, a))
  {
    hide Conserved, Phases, Cursor, Gated, Typed, Housed, Resolved, Flushing, InOrder, Balanced, CommitStep, CommitCan;
    CommitConserves(c, s, w, a);
    CommitKeepsCursor(c, s, w, a);
    CommitKeepsGates(c, s, w, a);
    CommitKeepsTyped(c, s, w, a);
    CommitKeepsRest(c, s, w, a);
  }

  lemma CommitKeepsRest(c: Config, s: State, w: World, a: CommitAction)
    requires Conserved(s.jobs, s.hist) && CommitCan(s, a)
    requires Housed(s.hist) && Resolved(s.hist, s.acct.watchers, s.jobs.res)
    ensures var s' := CommitStep(c, s, w, a);
            && s'.front == s.front && s'.acct == s.acct && s'.hist == s.hist
            && Resolved(s'.hist, s'.acct.watchers, s'.jobs.res)
  {
    hide CommitStep, CommitCan, Conserved, Housed, Resolved;
    if a.Deliver? || a.Abandon? {
      HandOnKeepsRest(c, s, w, a);
    } else {
      OwnWorkKeepsRest(c, s, w, a);
    }
  }

  /** The committer hands a batch to the resolver. */
  lemma HandOnKeepsRest(c: Config, s: State, w: World, a: CommitAction)
    requires Conserved(s.jobs, s.hist) && CommitCan(s, a) && (a.Deliver? || a.Abandon?)
    requires Housed(s.hist) && Resolved(s.hist, s.acct.watchers, s.jobs.res)
    ensures var s' := CommitStep(c, s, w, a);
            && s'.front == s.front && s'.acct == s.acct && s'.hist == s.hist
            && Resolved(s'.hist, s'.acct.watchers, s'.jobs.res)
  {
    hide Housed, Resolved, Total, Live;
    if a.Deliver? {
      assert Genuine(s.hist.emitted, Hand(s.jobs.com)[0].batch);
      StartKeepsResolved(s.hist, s.acct.watchers, s.jobs.com.out[0]);
    } else {
      StartKeepsResolved(s.hist, s.acct.watchers, s.jobs.ready[a.o].(work := Finished(Some(ProducerHalted))));
    }
  }

  lemma OwnWorkKeepsRest(c: Config, s: State, w: World, a: CommitAction)
    requires CommitCan(s, a) && !a.Deliver? && !a.Abandon?
    ensures var s' := CommitStep(c, s, w, a);
            s'.front == s.front && s'.acct == s.acct && s'.hist == s.hist && s'.jobs.res == s.jobs.res
  {
    hide Outcomes, ManifestLog.Rewritten, Matches, ItemsOf, Stored, Unstored, Taken, Left, TakeCount;
  }

  lemma ResolverKeepsMessages(s: State, a: ResolverAction)
    requires Conserved(s.jobs, s.hist) && InOrder(s.front, s.hist)
    requires Housed(s.hist) && Resolved(s.hist, s.acct.watchers, s.jobs.res) && ResolverCan(s, a)
    ensures var s' := ResolverStep(s, a);
            InOrder(s'.front, s'.hist) && Housed(s'.hist) && Resolved(s'.hist, s'.acct.watchers, s'.jobs.res)
  {
    hide Housed, Resolved, Total, Live, AckFlush, Nonempty;
    ReleasingIsLive(s.jobs, s.hist);
    NotReleased(s.jobs, s.hist);
    var j := s.jobs.res.job;
    match a
    case Resolve => ResolveKeepsResolved(s.hist, s.acct.watchers, j, s.jobs.res.done);
    case Acknowledge => AcknowledgeKeepsResolved(s.hist, s.acct.watchers, j);
    case Release => ReleaseKeepsResolved(s.hist, s.acct.watchers, j);
  }

  lemma NotReleased(j: Jobs, h: History)
    requires Conserved(j, h) && !j.res.Idle?
    ensures j.res.job.batch.ordinal !in h.released
  {
    hide Conserved, Below;
    ReleasingIsLive(j, h);
  }

  lemma ResolverKeepsLedger(c: Config, s: State, a: ResolverAction)
    requires Conserved(s.jobs, s.hist) && Balanced(c, s.front, s.acct, s.hist) && ResolverCan(s, a)
    ensures var s' := ResolverStep(s, a); Balanced(c, s'.front, s'.acct, s'.hist)
  {
    hide Conserved, LiveSum, Loose, AckFlush;
    if a == Release {
      ReleaseBalances(c, s);
    }
  }

  lemma ResolveGrowsWatchers(s: State)
    requires ResolverCan(s, Resolve)
    ensures forall i :: i in s.acct.watchers ==>
              i in DoResolve(s).acct.watchers && DoResolve(s).acct.watchers[i] == s.acct.watchers[i]
  {}

  lemma ResolverKeepsFlushing(c: Config, s: State, a: ResolverAction)
    requires Local(c, s) && ResolverCan(s, a)
    ensures var s' := ResolverStep(s, a); Flushing(s'.front, s'.acct.flushes, s'.hist, s'.acct.watchers)
  {
    hide Conserved, Phases, Cursor, Gated, Typed, Housed, Resolved, Flushing, InOrder, Balanced, AckFlush;
    var s' := ResolverStep(s, a);
    match a
    case Resolve =>
      ResolveGrowsWatchers(s);
      FlushFrame(s.front, s.acct.flushes, s.hist, s.acct.watchers, s'.front, s'.hist, s'.acct.watchers);
    case Acknowledge => AcknowledgeKeepsFlushing(s);
    case Release =>
      FlushFrame(s.front, s.acct.flushes, s.hist, s.acct.watchers, s'.front, s'.hist, s'.acct.watchers);
  }

  lemma ResolverKeepsLocal(c: Config, s: State, a: ResolverAction)
    requires Local(c, s) && ResolverCan(s, a)
    ensures Local(c, ResolverStep(s, a))
  {
    hide Conserved, Phases, Cursor, Gated, Typed, Housed, Resolved, Flushing, InOrder, Balanced, ResolverStep,
         ResolverCan;
    ResolverConserves(s, a);
    ResolverKeepsCursor(s, a);
    ResolverKeepsGates(c, s, a);
    ResolverKeepsTyped(c, s, a);
    ResolverKeepsMessages(s, a);
    ResolverKeepsLedger(c, s, a);
    ResolverKeepsFlushing(c, s, a);
  }

  /** Every action of the producer keeps the local invariant. */
  lemma StepKeepsLocal(c: Config, s: State, w: World, a: Action)
    requires ValidConfig(c) && Local(c, s) && Enabled(c, s, a)
    ensures Local(c, NextState(c, s, w, a))
  {
    hide Local, CallerStep, RotatorStep, WorkerStep, CommitStep, ResolverStep, CallerCan, RotatorCan, WorkerCan,
         CommitCan, ResolverCan;
    match a
    case ByCaller(x) => CallerKeepsLocal(c, s, x);
    case ByRotator(x) => RotatorKeepsLocal(c, s, x);
    case ByWorker(x) => WorkerKeepsLocal(c, s, x);
    case ByCommitter(x) => CommitKeepsLocal(c, s, w, x);
    case ByResolver(x) => ResolverKeepsLocal(c, s, x);
  }
}
