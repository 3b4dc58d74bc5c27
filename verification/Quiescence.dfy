/** The whole pipeline comes to rest: without new messages and Flushes, rotator and stages take a bounded number of
    steps, and when they can take no more, every accepted message is resolved and every Flush taken is answered. */
module Quiescence {
  import opened Wrappers
  import opened ManifestLog
  import opened ObjStore
  import opened Accumulator
  import opened Pipeline
  import opened JobsInv
  import opened MessagesInv
  import opened LedgerInv
  import opened FlushInv
  import opened BlocksInv
  import opened ProducerInv
  import opened SharedInv
  import opened System
  import opened Progress
  import opened Measure
  import opened FlushRuns
  import FlowInv
  import GatesInv

  // ---------- the work in front of the stages ----------

  /** A step of the producer's own goroutines, rotator included. */
  predicate Own(a: Action) {
    Internal(a) || a.ByRotator?
  }

  /** A call that gives the producer more to do. */
  predicate Feeds(a: Action) {
    a.ByCaller? && (a.caller.Accept? || a.caller.HandOver? || a.caller.CallFlush?)
  }

  /** What sealing a batch costs, its messages apart. */
  function SealWeight(c: Config): nat { InChan(c) + c.uploadAttempts + 4 }

  function RotatorRank(rot: Rotator): nat {
    match rot
    case Stopped => 0
    case Reconciling(_) => 1
    case Acquiring(_, parked) => if parked then 2 else 3
    case Selecting => 4
    case Draining(_) => 5
    case Sending(_) => 5
  }

  /** Flush requests the rotator has not taken. */
  function Calls(flushes: seq<Flush>): nat {
    if flushes == [] then 0
    else Calls(flushes[..|flushes| - 1]) + if flushes[|flushes| - 1].Calling? then 1 else 0
  }

  function FrontRank(c: Config, f: Front): nat {
    Scaled(SealWeight(c) + 7, |f.queue|) + Scaled(SealWeight(c) + 6, |f.acc|) + RotatorRank(f.rot)
  }

  /** All work left: messages in the queue and the accumulator, Flush requests, and the batches in flight. */
  function Outstanding(c: Config, s: State, w: World): int {
    FrontRank(c, s.front) + 2 * Calls(s.acct.flushes) + Potential(c, s, w)
  }

  lemma {:induction false} CallsUpdate(flushes: seq<Flush>, n: nat, fl: Flush)
    requires n < |flushes|
    ensures Calls(flushes[n := fl]) + (if flushes[n].Calling? then 1 else 0)
         == Calls(flushes) + (if fl.Calling? then 1 else 0)
  {
    var last := |flushes| - 1;
    if n == last {
      assert flushes[n := fl][..last] == flushes[..last];
    } else {
      CallsUpdate(flushes[..last], n, fl);
      assert flushes[n := fl][..last] == flushes[..last][n := fl];
    }
  }

  lemma CallsAck(flushes: seq<Flush>, flush: Option<nat>, err: Option<Error>, batch: Option<nat>)
    ensures Calls(AckFlush(flushes, flush, err, batch)) == Calls(flushes)
  {
    hide Calls;
    if flush.Some? && flush.value < |flushes| && flushes[flush.value].Waiting? {
      CallsUpdate(flushes, flush.value, Acked(flushes[flush.value].snap, err, batch));
    }
  }

  // ---------- every step lowers it ----------

  lemma {:induction false} ScaledPays(weight: nat, n: nat, price: nat)
    requires n >= 1 && weight >= price + 1
    ensures Scaled(weight, n) >= price + n
  {
    if n == 1 {
      assert Scaled(weight, 0) == 0;
    } else {
      ScaledPays(weight, n - 1, price);
    }
  }

  lemma ReceiveDrains(c: Config, f: Front)
    requires f.queue != [] && (f.rot.Selecting? || f.rot.Draining?)
    ensures FrontRank(c, Absorbed(c, f.(queue := f.queue[1..]), f.queue[0])) < FrontRank(c, f)
  {
    hide CostOf, Scaled, SealWeight;
    ScaledOne(SealWeight(c) + 7, |f.queue| - 1);
    ScaledOne(SealWeight(c) + 6, |f.acc|);
  }

  /** A rotator step other than sealing and sending. */
  lemma RotatorDrains(c: Config, s: State, a: RotatorAction)
    requires RotatorCan(c, s, a) && a != Seal && a != Send
    requires s.front.rot.Acquiring? ==> s.front.acc != []
    ensures var s' := RotatorStep(c, s, a);
            FrontRank(c, s'.front) + 2 * Calls(s'.acct.flushes) < FrontRank(c, s.front) + 2 * Calls(s.acct.flushes)
  {
    hide CostOf, Scaled, SealWeight, Calls, AckFlush, AllResolved, Absorbed;
    var flushes := s.acct.flushes;
    match a
    case Receive => ReceiveDrains(c, s.front);
    case TakeFlush(n) => CallsUpdate(flushes, n, Waiting(flushes[n].snap));
    case DrainDone => CallsAck(flushes, Some(s.front.rot.flush), None, None);
    case Drop =>
      CallsAck(flushes, FlushOf(s.front.rot.reason), Some(Shutdown), None);
      ScaledPays(SealWeight(c) + 6, |s.front.acc|, 5);
      ScaledNone(SealWeight(c) + 6);
    case _ =>
  }

  lemma SealRank(c: Config, s: State)
    requires s.front.rot.Reconciling? && s.jobs.sending == [] && |s.hist.emitted| !in s.hist.released
    ensures Rank(c, DoSeal(s)) == Rank(c, s) + SealWeight(c) + |s.front.acc|
  {
    hide CommitRank, ResolverRank, GatesRank, Scaled, Weights, LiveSum, Measure.Handled, FramedCost, FramingOf;
    var counts, b := MessageCounts(s.hist.emitted), SealedBatch(s);
    assert MessageCounts(DoSeal(s).hist.emitted) == counts + [|b.messages|];
    LiveSumGrows(counts, |b.messages|, s.hist.released);
    ScaledNone(SealWeight(c));
    ScaledOne(SealWeight(c), 0);
    SameBack(c, s.jobs, DoSeal(s).jobs);
  }

  lemma SameBack(c: Config, j: Jobs, j': Jobs)
    requires j'.chan == j.chan && j'.ready == j.ready && j'.com == j.com && j'.sawClose == j.sawClose
    ensures CommitRank(c, j') == CommitRank(c, j)
  {}

  lemma SealDrains(c: Config, s: State, w: World)
    requires RotatorCan(c, s, Seal) && |s.hist.emitted| !in s.hist.released
    requires s.front.rot.Reconciling? ==> s.front.acc != []
    ensures Outstanding(c, RotatorStep(c, s, Seal), w) < Outstanding(c, s, w)
  {
    hide Rank, SealWeight, Scaled, Calls, Representable, FramedCost, FramingOf, Matches;
    SealRank(c, s);
    ScaledPays(SealWeight(c) + 6, |s.front.acc|, SealWeight(c) + 5);
    ScaledNone(SealWeight(c) + 6);
  }

  /** What the stages leave of the front. */
  lemma StagesLeaveFront(c: Config, s: State, w: World, a: Action)
    requires Enabled(c, s, a) && Internal(a)
    ensures var s' := NextState(c, s, w, a);
            && FrontRank(c, s'.front) <= FrontRank(c, s.front)
            && Calls(s'.acct.flushes) == Calls(s.acct.flushes)
  {
    hide Scaled, SealWeight, Calls, AckFlush, WorkerCan, WorkerStep, CommitCan, CommitStep;
    if a.ByWorker? || a.ByCommitter? {
      StagesFrame(c, s, w, a);
    } else if a == ByResolver(Acknowledge) {
      var j := s.jobs.res.job;
      CallsAck(s.acct.flushes, j.batch.flush, JobError(j), Some(j.batch.ordinal));
    }
  }

  /** Callers that bring no message and no Flush add no work. */
  lemma CallersAddNothing(c: Config, s: State, a: CallerAction)
    requires CallerCan(c, s, a) && !Feeds(ByCaller(a))
    ensures var s' := CallerStep(c, s, a);
            && FrontRank(c, s'.front) == FrontRank(c, s.front)
            && Calls(s'.acct.flushes) <= Calls(s.acct.flushes)
  {
    hide Scaled, SealWeight, Calls, MessageCost, CostOf;
    var flushes := s.acct.flushes;
    match a
    case FlushDrained(n) => CallsUpdate(flushes, n, Returned(flushes[n].snap, flushes[n].err, flushes[n].batch));
    case FlushGiveUp(n) => CallsUpdate(flushes, n, GaveUp);
    case _ =>
  }

  lemma RotatorReady(c: Config, s: State)
    requires Local(c, s)
    ensures s.front.rot.Acquiring? || s.front.rot.Reconciling? ==> s.front.acc != []
    ensures |s.hist.emitted| !in s.hist.released
    ensures !s.jobs.res.Idle? ==> s.jobs.res.job.batch.ordinal < |s.hist.emitted|
  {
    hide Conserved, FlowInv.Phases, FlowInv.Cursor, GatesInv.Typed, InOrder, Housed, Resolved, Balanced, Flushing;
    ReleasedBelow(s.jobs, s.hist);
    if !s.jobs.res.Idle? {
      ReleasingIsLive(s.jobs, s.hist);
    }
  }

  /** Every own step lowers the outstanding work, and no caller raises it without feeding the producer. */
  lemma OwnStepDrains(c: Config, s: State, w: World, a: Action)
    requires ValidConfig(c) && Local(c, s) && Shared(c, s, w) && Enabled(c, s, a) && !Feeds(a)
    ensures Outstanding(c, NextState(c, s, w, a), NextWorld(c, s, w, a)) + (if Own(a) then 1 else 0)
         <= Outstanding(c, s, w)
  {
    hide ValidConfig, Local, Shared, FrontRank, Calls, Potential, CallerCan, CallerStep, RotatorCan, RotatorStep,
         WorkerCan, WorkerStep, CommitCan, CommitStep, ResolverCan, ResolverStep, NextWorld;
    if Internal(a) {
      StepDrops(c, s, w, a);
      StagesLeaveFront(c, s, w, a);
    } else if a == ByRotator(Seal) {
      RotatorReady(c, s);
      SealDrains(c, s, w);
      QuietSeal(c, s, w);
    } else {
      FrontAddsNothing(c, s, w, a);
      RotatorReady(c, s);
      match a
      case ByCaller(x) => CallersAddNothing(c, s, x);
      case ByRotator(x) => RotatorDrains(c, s, x);
      case _ =>
    }
  }

  lemma QuietSeal(c: Config, s: State, w: World)
    requires RotatorCan(c, s, Seal)
    ensures NextWorld(c, s, w, ByRotator(Seal)) == w
  {
    hide RotatorCan;
  }

  // ---------- a Flush taken is owed an answer ----------

  predicate Owes(s: State, n: nat, o: nat) {
    o < |s.hist.emitted| && s.hist.emitted[o].flush == Some(n) && !BatchDone(s, o)
  }

  /** A waiting Flush is in the rotator's hands, or its batch is on its way. */
  ghost predicate Owed(s: State, n: nat) {
    n < |s.acct.flushes| && s.acct.flushes[n].Waiting? ==>
      RotFlush(s.front.rot) == Some(n) || exists o :: Owes(s, n, o)
  }

  lemma CallerOwes(c: Config, s: State, a: CallerAction, n: nat)
    requires CallerCan(c, s, a) && Owed(s, n)
    ensures Owed(CallerStep(c, s, a), n)
  {
    hide MessageCost, CostOf;
    if o :| Owes(s, n, o) {
      assert Owes(CallerStep(c, s, a), n, o);
    }
  }

  lemma RotatorOwes(c: Config, s: State, a: RotatorAction, n: nat)
    requires RotatorCan(c, s, a) && Owed(s, n) && |s.hist.emitted| !in s.hist.released
    requires s.jobs.res.Releasing? ==> s.jobs.res.job.batch.ordinal < |s.hist.emitted|
    ensures Owed(RotatorStep(c, s, a), n)
  {
    hide CostOf, FramedCost, FramingOf, Representable, AllResolved;
    var s' := RotatorStep(c, s, a);
    if o :| Owes(s, n, o) {
      assert Owes(s', n, o);
    } else if a == Seal && FlushOf(s.front.rot.reason) == Some(n) {
      assert Owes(s', n, |s.hist.emitted|);
    }
  }

  lemma ResolverOwes(s: State, a: ResolverAction, n: nat)
    requires Conserved(s.jobs, s.hist) && ResolverCan(s, a) && Owed(s, n)
    ensures Owed(ResolverStep(s, a), n)
  {
    hide Conserved;
    ReleasingIsLive(s.jobs, s.hist);
    if o :| Owes(s, n, o) {
      var s' := ResolverStep(s, a);
      if n < |s'.acct.flushes| && s'.acct.flushes[n].Waiting? {
        assert Owes(s', n, o);
      }
    }
  }

  lemma StagesOwe(c: Config, s: State, w: World, a: Action, n: nat)
    requires Enabled(c, s, a) && (a.ByWorker? || a.ByCommitter?) && Owed(s, n)
    ensures Owed(NextState(c, s, w, a), n)
  {
    hide Owed, WorkerCan, WorkerStep, CommitCan, CommitStep;
    StagesFrame(c, s, w, a);
    OwedFrame(s, NextState(c, s, w, a), n);
  }

  lemma OwedFrame(s: State, s': State, n: nat)
    requires Owed(s, n) && Framed(s, s')
    ensures Owed(s', n)
  {
    if o :| Owes(s, n, o) {
      assert Owes(s', n, o);
    }
  }

  lemma StepOwes(c: Config, s: State, w: World, a: Action, n: nat)
    requires Local(c, s) && Enabled(c, s, a) && Owed(s, n)
    ensures Owed(NextState(c, s, w, a), n)
  {
    hide Owed, RotatorCan, RotatorStep, CallerCan, CallerStep, ResolverCan, ResolverStep, WorkerCan, WorkerStep,
         CommitCan, CommitStep, Conserved, FlowInv.Phases, FlowInv.Cursor, GatesInv.Gated, GatesInv.Typed, InOrder,
         Housed, Resolved, Balanced, Flushing;
    match a
    case ByCaller(x) => CallerOwes(c, s, x, n);
    case ByRotator(x) =>
      RotatorReady(c, s);
      RotatorOwes(c, s, x, n);
    case ByResolver(x) => ResolverOwes(s, x, n);
    case _ => StagesOwe(c, s, w, a, n);
  }

  lemma {:induction false} RunOwes(cs: Configs, path: Path, base: Log, s: System, es: seq<Event>, r: nat, n: nat)
    requires Cluster(cs, path) && Good(cs, path, base, s) && Possible(cs, s, es) && r in cs && r in s.states
    requires Owed(s.states[r], n)
    ensures r in Final(cs, s, es).states && Owed(Final(cs, s, es).states[r], n)
    decreases |es|
  {
    hide Cluster, Good, Enabled, NextState, NextWorld, Owed, Local;
    if es == [] {
    } else {
      var e := es[0];
      StepIsGood(cs, path, base, s, e);
      LocalOf(cs, path, base, s, r);
      if e.run == r {
        StepOwes(cs[r], s.states[r], s.world, e.action, n);
      }
      RunOwes(cs, path, base, Happened(cs, s, e), es[1..], r, n);
    }
  }

  // ---------- at rest ----------

  ghost predicate AtRest(c: Config, s: State) {
    forall a :: Own(a) ==> !Enabled(c, s, a)
  }

  lemma RestIsEmpty(c: Config, s: State)
    requires ValidConfig(c) && Local(c, s)
    ensures AtRest(c, s) ==> Live(s.hist) == {}
  {
    hide ValidConfig, Local, Live, Internal, Enabled;
    if Live(s.hist) != {} {
      var a := NeverStuck(c, s);
      assert Own(a);
    }
  }

  lemma RestResolves(c: Config, s: State, i: nat)
    requires ValidConfig(c) && Local(c, s) && i < |s.hist.accepted|
    ensures AtRest(c, s) && !TooBig(c, s) ==> i in s.acct.watchers
  {
    hide ValidConfig, Local, Live, Internal, Enabled, TooBig;
    if i !in s.acct.watchers {
      var a := NoMessageIsStuck(c, s, i);
      assert Own(a) || TooBig(c, s);
    }
  }

  lemma NothingLeft(c: Config, s: State)
    requires Local(c, s) && forall i :: 0 <= i < |s.hist.accepted| ==> i in s.acct.watchers
    ensures s.front.acc == [] && s.front.queue == []
  {
    hide Conserved, FlowInv.Phases, FlowInv.Cursor, GatesInv.Gated, GatesInv.Typed, Housed, Balanced, Flushing,
         Nonempty, MessagesInv.Closed;
    assert |s.hist.home| !in s.acct.watchers;
  }

  /** Nothing in flight and nothing collected: the rotator waits for work or has stopped. */
  lemma RotatorRests(c: Config, s: State)
    requires ValidConfig(c) && Local(c, s) && Live(s.hist) == {} && s.front.acc == [] && s.front.queue == []
    ensures AtRest(c, s) ==> s.front.rot.Selecting? || s.front.rot.Stopped?
    ensures AtRest(c, s) && s.front.rot.Selecting? ==>
              !s.front.closing && forall n :: 0 <= n < |s.acct.flushes| ==> !s.acct.flushes[n].Calling?
    ensures s.jobs.enc == [] && s.jobs.upl == [] && s.jobs.res.Idle? && s.jobs.ready == map[] && s.jobs.chan == []
  {
    hide ValidConfig, Conserved, FlowInv.Phases, FlowInv.Cursor, GatesInv.Typed, InOrder, Housed, Resolved, Balanced,
         Flushing, Live, Nonempty;
    HeldCount(s.jobs, s.hist);
    forall a: RotatorAction
      ensures AtRest(c, s) ==> !RotatorCan(c, s, a)
    {
      RotatorActs(c, s, a);
    }
    assert s.front.rot.Draining? ==> RotatorCan(c, s, DrainDone);
    assert s.front.rot.Selecting? && s.front.closing ==> RotatorCan(c, s, SeeClose);
    forall n | 0 <= n < |s.acct.flushes| && s.front.rot.Selecting? && s.acct.flushes[n].Calling?
      ensures RotatorCan(c, s, TakeFlush(n))
    {}
  }

  lemma RotatorActs(c: Config, s: State, a: RotatorAction)
    ensures AtRest(c, s) ==> !RotatorCan(c, s, a)
  {
    hide RotatorCan;
    assert Enabled(c, s, ByRotator(a)) == RotatorCan(c, s, a);
  }

  lemma WorkerActs(c: Config, s: State, a: WorkerAction)
    ensures AtRest(c, s) ==> !WorkerCan(c, s, a)
  {
    hide WorkerCan;
    assert Enabled(c, s, ByWorker(a)) == WorkerCan(c, s, a);
  }

  lemma CommitActs(c: Config, s: State, a: CommitAction)
    ensures AtRest(c, s) ==> !CommitCan(s, a)
  {
    hide CommitCan;
    assert Enabled(c, s, ByCommitter(a)) == CommitCan(s, a);
  }

  /** Every Flush the rotator took is answered, and it leaves none untaken before it stops. */
  lemma FlushesRest(s: State, n: nat)
    requires Owed(s, n) && Live(s.hist) == {} && RotFlush(s.front.rot) == None && n < |s.acct.flushes|
    ensures !s.acct.flushes[n].Waiting?
  {
    forall o: nat
      ensures !Owes(s, n, o)
    {
      assert o < |s.hist.emitted| ==> o in Live(s.hist) || o in s.hist.released;
    }
  }

  /** All goroutines have returned. */
  predicate AllExited(s: State) {
    && s.front.rot.Stopped? && s.jobs.com.Done? && s.jobs.res.Idle?
    && s.gates == Gates(0, true, 0, true)
  }

  lemma PoolsRest(c: Config, s: State)
    requires s.front.rot.Stopped? && s.jobs.enc == [] && s.jobs.upl == []
    ensures AtRest(c, s) ==> s.gates == Gates(0, true, 0, true)
  {
    hide AtRest;
    WorkerActs(c, s, EncoderExit);
    WorkerActs(c, s, CloseEncoded);
    WorkerActs(c, s, UploaderExit);
    WorkerActs(c, s, CloseCompletion);
  }

  lemma CommitterRests(c: Config, s: State)
    requires s.jobs.res.Idle? && s.jobs.chan == [] && s.gates.completionClosed
    ensures AtRest(c, s) ==> s.jobs.com.Done?
  {
    hide AtRest, CommitCan;
    if s.jobs.com.Receiving? {
      assert CommitCan(s, RecvClosed) by {
        CanSeeClose(s);
      }
      CommitActs(c, s, RecvClosed);
    } else if !s.jobs.com.Done? {
      var a := CommitterMoves(s);
      CommitActs(c, s, a.committer);
    }
  }

  lemma CanSeeClose(s: State)
    requires s.jobs.com.Receiving? && s.jobs.chan == [] && s.gates.completionClosed
    ensures CommitCan(s, RecvClosed)
  {}

  /** What a producer at rest has done. */
  ghost predicate Settled(s: State) {
    && Live(s.hist) == {} && s.front.acc == [] && s.front.queue == []
    && (forall i :: 0 <= i < |s.hist.accepted| ==> i in s.acct.watchers)
    && (forall n :: 0 <= n < |s.acct.flushes| ==> !s.acct.flushes[n].Waiting?)
    && (forall n :: 0 <= n < |s.acct.flushes| && s.acct.flushes[n].Calling? ==> s.front.rot.Stopped?)
    && (s.front.closing ==> AllExited(s))
  }

  lemma RestSettles(c: Config, s: State)
    requires ValidConfig(c) && Local(c, s) && AtRest(c, s) && !TooBig(c, s) && forall n :: Owed(s, n)
    ensures Settled(s)
  {
    hide ValidConfig, Local, Live, AtRest, TooBig, Owed;
    RestIsEmpty(c, s);
    forall i | 0 <= i < |s.hist.accepted|
      ensures i in s.acct.watchers
    {
      RestResolves(c, s, i);
    }
    NothingLeft(c, s);
    RotatorRests(c, s);
    forall n | 0 <= n < |s.acct.flushes|
      ensures !s.acct.flushes[n].Waiting?
    {
      FlushesRest(s, n);
    }
    if s.front.rot.Stopped? {
      PoolsRest(c, s);
      if s.front.closing {
        CommitterRests(c, s);
      }
    }
  }

  // ---------- runs ----------

  /** Own steps of producer `r`. */
  function Steps(es: seq<Event>, r: nat): nat {
    if es == [] then 0 else (if es[0].run == r && Own(es[0].action) then 1 else 0) + Steps(es[1..], r)
  }

  predicate Unfed(es: seq<Event>, r: nat) {
    forall k :: 0 <= k < |es| && es[k].run == r ==> !Feeds(es[k].action)
  }

  lemma EventDrains(cs: Configs, path: Path, base: Log, s: System, e: Event, r: nat)
    requires Cluster(cs, path) && Good(cs, path, base, s) && CanHappen(cs, s, e) && r in cs
    requires e.run == r ==> !Feeds(e.action)
    ensures r in s.states && r in Happened(cs, s, e).states
    ensures var s' := Happened(cs, s, e);
            (if e.run == r && Own(e.action) then 1 else 0) + Outstanding(cs[r], s'.states[r], s'.world)
            <= Outstanding(cs[r], s.states[r], s.world) + 2 * (Foreign(s'.world.blocks, r) - Foreign(s.world.blocks, r))
  {
    hide Local, Shared, Chained, Versioned, Touches, ValidConfig, Apart, NextState, NextWorld, Enabled, FrontRank,
         Calls, Potential, Own, Feeds, Foreign;
    var c, p, w := cs[e.run], s.states[e.run], s.world;
    var w' := NextWorld(c, p, w, e.action);
    StepTouches(c, p, w, e.action);
    ForeignGrows(c, w, w', r);
    if e.run != r {
      RivalAdds(c, cs[r], s.states[r], w, w');
    } else {
      OwnStepDrains(c, p, w, e.action);
    }
  }

  lemma {:induction false} RunDrains(cs: Configs, path: Path, base: Log, s: System, es: seq<Event>, r: nat)
    requires Cluster(cs, path) && Good(cs, path, base, s) && Possible(cs, s, es) && r in cs && Unfed(es, r)
    ensures r in s.states && r in Final(cs, s, es).states
    ensures var later := Final(cs, s, es);
            Steps(es, r) + Outstanding(cs[r], later.states[r], later.world)
            <= Outstanding(cs[r], s.states[r], s.world)
               + 2 * (Foreign(later.world.blocks, r) - Foreign(s.world.blocks, r))
    decreases |es|
  {
    hide Cluster, Local, Shared, Chained, Versioned, CanHappen, Happened, Outstanding, Foreign, Own, Feeds;
    if es == [] {
    } else {
      StepIsGood(cs, path, base, s, es[0]);
      EventDrains(cs, path, base, s, es[0], r);
      RunDrains(cs, path, base, Happened(cs, s, es[0]), es[1..], r);
    }
  }

  lemma ClusterConfig(cs: Configs, path: Path, r: nat)
    requires Cluster(cs, path) && r in cs
    ensures ValidConfig(cs[r])
  {
    hide ValidConfig, Apart;
  }

  lemma StartOwes(cs: Configs, path: Path, base: Log, start: System, r: nat, n: nat)
    requires Start(cs, path, base, start) && r in cs
    ensures r in start.states && Owed(start.states[r], n)
  {}

  lemma RunOwesAll(cs: Configs, path: Path, base: Log, start: System, es: seq<Event>, more: seq<Event>, r: nat)
    requires Cluster(cs, path) && Start(cs, path, base, start) && Possible(cs, start, es)
            && Possible(cs, Final(cs, start, es), more)
    requires r in cs
    ensures r in Final(cs, Final(cs, start, es), more).states
    ensures forall n :: Owed(Final(cs, Final(cs, start, es), more).states[r], n)
  {
    hide Cluster, Start, Possible, Final, Good, Owed, Local;
    StartIsGood(cs, path, base, start);
    ReachableIsGood(cs, path, base, start, es);
    RunIsGood(cs, path, base, Final(cs, start, es), more);
    LocalOf(cs, path, base, Final(cs, Final(cs, start, es), more), r);
    forall n
      ensures Owed(Final(cs, Final(cs, start, es), more).states[r], n)
    {
      StartOwes(cs, path, base, start, r, n);
      RunOwes(cs, path, base, start, es, r, n);
      RunOwes(cs, path, base, Final(cs, start, es), more, r, n);
    }
  }

  /** From any reachable state, while callers bring producer `r` no further message and no Flush: its rotator and
      stages together take at most `Outstanding` steps, plus two for every manifest write by a rival, however the
      events interleave. When they can take no further step, every accepted message has its outcome, no Flush taken
      is without an answer, and a closing producer's goroutines have all returned; the exception is a batch outside
      the formats. */
  lemma ComesToRest(cs: Configs, path: Path, base: Log, start: System, es: seq<Event>, more: seq<Event>, r: nat)
    requires Cluster(cs, path) && Start(cs, path, base, start) && Possible(cs, start, es)
            && Possible(cs, Final(cs, start, es), more)
    requires r in cs && Unfed(more, r)
    ensures r in Final(cs, start, es).states && r in Final(cs, Final(cs, start, es), more).states
    ensures var now, later := Final(cs, start, es), Final(cs, Final(cs, start, es), more);
            && Steps(more, r) <= Outstanding(cs[r], now.states[r], now.world)
                                 + 2 * (Foreign(later.world.blocks, r) - Foreign(now.world.blocks, r))
            && (AtRest(cs[r], later.states[r]) ==> Settled(later.states[r]) || TooBig(cs[r], later.states[r]))
  {
    hide Cluster, Start, Possible, Final, Good, Local, Potential, Foreign, Steps, Unfed, AtRest, TooBig, Settled,
         ValidConfig;
    var now := Final(cs, start, es);
    ReachableIsGood(cs, path, base, start, es);
    RunDrains(cs, path, base, now, more, r);
    var later := Final(cs, now, more);
    RunIsGood(cs, path, base, now, more);
    LocalOf(cs, path, base, later, r);
    PotentialIsNat(cs[r], later.states[r], later.world);
    RunOwesAll(cs, path, base, start, es, more, r);
    if AtRest(cs[r], later.states[r]) && !TooBig(cs[r], later.states[r]) {
      ClusterConfig(cs, path, r);
      RestSettles(cs[r], later.states[r]);
    }
  }
}
