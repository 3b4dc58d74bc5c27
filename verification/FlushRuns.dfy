/** A Flush request on its way: its batch is sealed for it and covers what was accepted before the call, it
    is acknowledged at most once, and without a batch its answer says whether messages were dropped. */
module FlushRuns {
  import opened Wrappers
  import opened ManifestLog
  import opened ObjStore
  import opened Accumulator
  import opened Pipeline
  import opened JobsInv
  import opened MessagesInv
  import opened LedgerInv
  import opened FlushInv
  import opened ProducerInv
  import opened System
  import FlowInv
  import GatesInv
  import SharedInv
  import Committer

  // ---------- batches ascend ----------

  /** The number behind a batch's last message. */
  function End(b: Batch): nat {
    First(b) + |b.messages|
  }

  predicate Ascending(h: History) {
    forall o, p :: 0 <= o < p < |h.emitted| ==> End(h.emitted[o]) <= First(h.emitted[p])
  }

  lemma SealAscends(s: State)
    requires InOrder(s.front, s.hist) && Housed(s.hist) && Ascending(s.hist) && s.front.rot.Reconciling?
            && s.front.acc != []
    ensures Ascending(DoSeal(s).hist)
    ensures End(SealedBatch(s)) == |DoSeal(s).hist.home|
  {
    hide FramedCost, FramingOf;
    var h, b := s.hist, SealedBatch(s);
    assert First(b) == |h.home| by {
      assert s.front.acc[0] == h.accepted[|h.home|];
    }
    forall o | 0 <= o < |h.emitted|
      ensures End(h.emitted[o]) <= First(b)
    {
      assert Stretch(h.emitted[o], h);
    }
  }

  /** A message in front of a batch's end lies in that batch or an earlier one. */
  lemma EarlierOrSame(h: History, i: nat, o: nat, b: nat)
    requires Housed(h) && Ascending(h) && i < |h.home| && h.home[i] == Some(o) && b < |h.emitted|
            && i < End(h.emitted[b])
    ensures o <= b
  {
    hide Stretch;
    assert MessagesInv.Holds(h.emitted[o], i);
  }

  // ---------- a Flush and its batch ----------

  /** Acknowledged for a batch: the batch was sealed for this Flush and reaches past its snapshot. */
  predicate TiedFlush(fl: Flush, n: nat, emitted: seq<Batch>) {
    (fl.Acked? || fl.Returned?) && fl.batch.Some? ==>
      fl.batch.value < |emitted| && emitted[fl.batch.value].flush == Some(n) && fl.snap <= End(emitted[fl.batch.value])
  }

  /** A batch sealed for a Flush still waiting reaches past its snapshot. */
  predicate TiedBatch(b: Batch, flushes: seq<Flush>) {
    b.flush.Some? && b.flush.value < |flushes| && flushes[b.flush.value].Waiting? ==>
        flushes[b.flush.value].snap <= End(b)
  }

  predicate Tied(flushes: seq<Flush>, emitted: seq<Batch>) {
    && (forall n :: 0 <= n < |flushes| ==> TiedFlush(flushes[n], n, emitted))
    && (forall o :: 0 <= o < |emitted| ==> TiedBatch(emitted[o], flushes))
  }

  lemma UpdateTies(flushes: seq<Flush>, n: nat, fl: Flush, emitted: seq<Batch>)
    requires Tied(flushes, emitted) && n < |flushes| && TiedFlush(fl, n, emitted)
    requires fl.Waiting? ==> forall o :: 0 <= o < |emitted| ==> emitted[o].flush != Some(n)
    ensures Tied(flushes[n := fl], emitted)
  {
    hide End;
    forall o | 0 <= o < |emitted|
      ensures TiedBatch(emitted[o], flushes[n := fl])
    {
      assert TiedBatch(emitted[o], flushes);
    }
  }

  lemma AckTies(flushes: seq<Flush>, flush: Option<nat>, err: Option<Error>, batch: Option<nat>, emitted: seq<Batch>)
    requires Tied(flushes, emitted)
    requires batch.Some? ==> batch.value < |emitted| && emitted[batch.value].flush == flush
    ensures Tied(AckFlush(flushes, flush, err, batch), emitted)
  {
    hide End, Tied;
    if flush.Some? && flush.value < |flushes| && flushes[flush.value].Waiting? {
      if batch.Some? {
        TiedAt(flushes, emitted, batch.value);
      }
      UpdateTies(flushes, flush.value, Acked(flushes[flush.value].snap, err, batch), emitted);
    }
  }

  lemma TiedAt(flushes: seq<Flush>, emitted: seq<Batch>, o: nat)
    requires Tied(flushes, emitted) && o < |emitted|
    ensures TiedBatch(emitted[o], flushes)
  {}

  lemma CallerTies(c: Config, s: State, a: CallerAction)
    requires CallerCan(c, s, a) && Tied(s.acct.flushes, s.hist.emitted)
    requires Flushing(s.front, s.acct.flushes, s.hist, s.acct.watchers)
    ensures Tied(CallerStep(c, s, a).acct.flushes, CallerStep(c, s, a).hist.emitted)
  {
    hide MessageCost, CostOf, End, Flushing;
    var flushes, emitted := s.acct.flushes, s.hist.emitted;
    match a
    case CallFlush =>
      forall o | 0 <= o < |emitted|
        ensures TiedBatch(emitted[o], flushes + [Calling(|s.hist.accepted|)])
      {
        assert TiedBatch(emitted[o], flushes);
      }
    case FlushDrained(n) =>
      assert TiedFlush(flushes[n], n, emitted);
      UpdateTies(flushes, n, Returned(flushes[n].snap, flushes[n].err, flushes[n].batch), emitted);
    case FlushGiveUp(n) => UpdateTies(flushes, n, GaveUp, emitted);
    case _ =>
  }

  lemma SealTies(s: State)
    requires InOrder(s.front, s.hist) && Housed(s.hist) && Ascending(s.hist) && s.front.rot.Reconciling?
            && s.front.acc != []
    requires Tied(s.acct.flushes, s.hist.emitted) && Flushing(s.front, s.acct.flushes, s.hist, s.acct.watchers)
    ensures Tied(DoSeal(s).acct.flushes, DoSeal(s).hist.emitted)
  {
    hide InOrder, Housed, Ascending, End, FramedCost, FramingOf, Flushing;
    SealAscends(s);
    var flushes, emitted, b := s.acct.flushes, s.hist.emitted, SealedBatch(s);
    forall n | 0 <= n < |flushes|
      ensures TiedFlush(flushes[n], n, emitted + [b])
    {
      assert TiedFlush(flushes[n], n, emitted);
    }
    if b.flush.Some? && b.flush.value < |flushes| {
      FlushAt(s.front, flushes, s.hist, s.acct.watchers, b.flush.value);
    }
  }

  lemma TakeTies(s: State, n: nat)
    requires Tied(s.acct.flushes, s.hist.emitted) && Flushing(s.front, s.acct.flushes, s.hist, s.acct.watchers)
    requires n < |s.acct.flushes| && s.acct.flushes[n].Calling?
    ensures Tied(DoTakeFlush(s, n).acct.flushes, s.hist.emitted)
  {
    hide End, FlushOk;
    forall o | 0 <= o < |s.hist.emitted|
      ensures s.hist.emitted[o].flush != Some(n)
    {
      assert s.hist.emitted[o].flush.Some? ==> FlushInv.Handled(s.hist.emitted[o].flush.value, s.front, s.acct.flushes);
    }
    UpdateTies(s.acct.flushes, n, Waiting(s.acct.flushes[n].snap), s.hist.emitted);
  }

  ghost predicate FlushSound(c: Config, s: State) {
    Ascending(s.hist) && Tied(s.acct.flushes, s.hist.emitted)
  }

  lemma RotatorKeepsTies(c: Config, s: State, a: RotatorAction)
    requires Local(c, s) && RotatorCan(c, s, a) && FlushSound(c, s)
    ensures FlushSound(c, RotatorStep(c, s, a))
  {
    hide Conserved, FlowInv.Phases, FlowInv.Cursor, GatesInv.Typed, InOrder, Housed, Resolved, Balanced, Flushing,
         Ascending, Tied, AckFlush, CostOf, FramedCost, FramingOf, Representable, AllResolved;
    match a
    case Seal =>
      SealAscends(s);
      SealTies(s);
    case TakeFlush(n) => TakeTies(s, n);
    case DrainDone => AckTies(s.acct.flushes, Some(s.front.rot.flush), None, None, s.hist.emitted);
    case Drop =>
      AckTies(s.acct.flushes, FlushOf(s.front.rot.reason), Some(Shutdown), None, s.hist.emitted);
      SameBatchesAscend(s.hist, DoDrop(s).hist);
    case _ =>
  }

  lemma SameBatchesAscend(h: History, h': History)
    requires Ascending(h) && h'.emitted == h.emitted
    ensures Ascending(h')
  {}

  lemma ResolverKeepsTies(c: Config, s: State, a: ResolverAction)
    requires Conserved(s.jobs, s.hist) && ResolverCan(s, a) && FlushSound(c, s)
    ensures FlushSound(c, ResolverStep(s, a))
  {
    hide Conserved, Ascending, Tied, AckFlush;
    SameBatchesAscend(s.hist, ResolverStep(s, a).hist);
    if a == Acknowledge {
      ReleasingIsLive(s.jobs, s.hist);
      var b := s.jobs.res.job.batch;
      AckTies(s.acct.flushes, b.flush, JobError(s.jobs.res.job), Some(b.ordinal), s.hist.emitted);
    }
  }

  lemma CallerKeepsTies(c: Config, s: State, a: CallerAction)
    requires Local(c, s) && CallerCan(c, s, a) && FlushSound(c, s)
    ensures FlushSound(c, CallerStep(c, s, a))
  {
    hide Conserved, FlowInv.Phases, FlowInv.Cursor, GatesInv.Gated, GatesInv.Typed, InOrder, Housed, Resolved, Balanced,
         Flushing, Ascending, Tied, MessageCost, CostOf;
    CallerTies(c, s, a);
    SameBatchesAscend(s.hist, CallerStep(c, s, a).hist);
  }

  /** What workers and committer leave alone. */
  predicate Framed(s: State, s': State) {
    && s'.front == s.front && s'.acct == s.acct && s'.hist == s.hist
    && (s'.jobs.res == s.jobs.res || (s.jobs.res.Idle? && s'.jobs.res.Resolving?))
  }

  lemma WorkerFrame(c: Config, s: State, a: WorkerAction)
    requires WorkerCan(c, s, a)
    ensures Framed(s, WorkerStep(c, s, a))
  {
    hide EncodeWork, Without;
  }

  lemma CommitFrame(c: Config, s: State, w: World, a: CommitAction)
    requires CommitCan(s, a)
    ensures Framed(s, CommitStep(c, s, w, a))
  {
    hide Outcomes, Stored, Unstored, Stamped, Rewritten, Matches, ItemsOf, Committer.TakeCount, Committer.Taken,
         Committer.Left;
  }

  lemma StagesFrame(c: Config, s: State, w: World, a: Action)
    requires Enabled(c, s, a) && (a.ByWorker? || a.ByCommitter?)
    ensures Framed(s, NextState(c, s, w, a))
  {
    hide WorkerCan, WorkerStep, CommitCan, CommitStep, Framed;
    match a
    case ByWorker(x) => WorkerFrame(c, s, x);
    case ByCommitter(x) => CommitFrame(c, s, w, x);
  }

  lemma StagesKeepTies(c: Config, s: State, w: World, a: Action)
    requires Enabled(c, s, a) && (a.ByWorker? || a.ByCommitter?) && FlushSound(c, s)
    ensures FlushSound(c, NextState(c, s, w, a))
  {
    hide Ascending, Tied, WorkerCan, WorkerStep, CommitCan, CommitStep;
    StagesFrame(c, s, w, a);
    SameBatchesAscend(s.hist, NextState(c, s, w, a).hist);
  }

  lemma StepKeepsTies(c: Config, s: State, w: World, a: Action)
    requires Local(c, s) && Enabled(c, s, a) && FlushSound(c, s)
    ensures FlushSound(c, NextState(c, s, w, a))
  {
    hide FlushSound, RotatorCan, RotatorStep, CallerCan, CallerStep, ResolverCan, ResolverStep, WorkerCan, WorkerStep,
         CommitCan, CommitStep, Conserved, FlowInv.Phases, FlowInv.Cursor, GatesInv.Gated, GatesInv.Typed, InOrder,
         Housed, Resolved, Balanced, Flushing;
    match a
    case ByCaller(x) => CallerKeepsTies(c, s, x);
    case ByRotator(x) => RotatorKeepsTies(c, s, x);
    case ByResolver(x) => ResolverKeepsTies(c, s, x);
    case _ => StagesKeepTies(c, s, w, a);
  }

  // ---------- at most one acknowledgement ----------

  /** The step sends on the result channel of Flush `n`. */
  predicate Acks(s: State, a: Action, n: nat) {
    match a
    case ByRotator(DrainDone) => s.front.rot == Draining(n) && s.front.acc == []
    case ByRotator(Drop) => s.front.rot.Acquiring? && s.front.rot.reason == ByFlush(n)
    case ByResolver(Acknowledge) => s.jobs.res.Resolving? && s.jobs.res.job.batch.flush == Some(n)
    case _ => false
  }

  /** The batch's Flush has been answered. */
  predicate BatchDone(s: State, o: nat) {
    o in s.hist.released || (s.jobs.res.Releasing? && s.jobs.res.job.batch.ordinal == o)
  }

  /** While anything can still acknowledge Flush `n` nothing has, and only one thing can. */
  predicate AckSound(s: State, n: nat, acks: nat) {
    && acks <= 1
    && (n >= |s.acct.flushes| || s.acct.flushes[n].Calling? || RotFlush(s.front.rot) == Some(n) ==>
          acks == 0 && forall o :: 0 <= o < |s.hist.emitted| ==> s.hist.emitted[o].flush != Some(n))
    && (forall o :: 0 <= o < |s.hist.emitted| && s.hist.emitted[o].flush == Some(n) && acks > 0 ==> BatchDone(s, o))
    && (forall o, p :: 0 <= o < p < |s.hist.emitted| && s.hist.emitted[o].flush == Some(n) ==>
        s.hist.emitted[p].flush != Some(n))
  }

  lemma CallerAcks(c: Config, s: State, a: CallerAction, n: nat, acks: nat)
    requires CallerCan(c, s, a) && AckSound(s, n, acks)
    ensures AckSound(CallerStep(c, s, a), n, acks)
  {
    hide MessageCost, CostOf;
  }

  lemma RotatorAcks(c: Config, s: State, a: RotatorAction, n: nat, acks: nat)
    requires RotatorCan(c, s, a) && AckSound(s, n, acks)
    requires RotFlush(s.front.rot).Some? ==>
              RotFlush(s.front.rot).value < |s.acct.flushes| && !s.acct.flushes[RotFlush(s.front.rot).value].Calling?
    ensures AckSound(RotatorStep(c, s, a), n, acks + if Acks(s, ByRotator(a), n) then 1 else 0)
  {
    hide CostOf, FramedCost, FramingOf, Representable, AllResolved;
  }

  lemma ResolverAcks(c: Config, s: State, a: ResolverAction, n: nat, acks: nat)
    requires Conserved(s.jobs, s.hist) && ResolverCan(s, a) && AckSound(s, n, acks)
    requires Flushing(s.front, s.acct.flushes, s.hist, s.acct.watchers)
    ensures AckSound(ResolverStep(s, a), n, acks + if Acks(s, ByResolver(a), n) then 1 else 0)
  {
    hide Conserved, FlushOk;
    ReleasingIsLive(s.jobs, s.hist);
    if a == Acknowledge && s.jobs.res.job.batch.flush == Some(n) {
      assert FlushInv.Handled(s.hist.emitted[s.jobs.res.job.batch.ordinal].flush.value, s.front, s.acct.flushes);
    }
  }

  lemma StagesAck(c: Config, s: State, w: World, a: Action, n: nat, acks: nat)
    requires Enabled(c, s, a) && (a.ByWorker? || a.ByCommitter?) && AckSound(s, n, acks)
    ensures AckSound(NextState(c, s, w, a), n, acks)
  {
    hide AckSound, WorkerCan, WorkerStep, CommitCan, CommitStep;
    StagesFrame(c, s, w, a);
    AckFrame(s, NextState(c, s, w, a), n, acks);
  }

  lemma AckFrame(s: State, s': State, n: nat, acks: nat)
    requires AckSound(s, n, acks)
    requires Framed(s, s')
    ensures AckSound(s', n, acks)
  {
    hide RotFlush;
  }

  lemma StepAcks(c: Config, s: State, w: World, a: Action, n: nat, acks: nat)
    requires Local(c, s) && Enabled(c, s, a) && AckSound(s, n, acks)
    ensures AckSound(NextState(c, s, w, a), n, acks + if Acks(s, a, n) then 1 else 0)
  {
    hide AckSound, RotatorCan, RotatorStep, CallerCan, CallerStep, ResolverCan, ResolverStep, WorkerCan, WorkerStep,
         CommitStep, Conserved, FlowInv.Phases, FlowInv.Cursor, GatesInv.Gated, GatesInv.Typed, InOrder, Housed,
         Resolved, Balanced, FlushOk;
    match a
    case ByCaller(x) => CallerAcks(c, s, x, n, acks);
    case ByRotator(x) => RotatorAcks(c, s, x, n, acks);
    case ByResolver(x) => ResolverAcks(c, s, x, n, acks);
    case _ => StagesAck(c, s, w, a, n, acks);
  }

  // ---------- runs ----------

  /** How often events of run `r` in `es` acknowledge its Flush `n`. */
  function AckTimes(cs: Configs, s: System, es: seq<Event>, r: nat, n: nat): nat
    requires Possible(cs, s, es)
    decreases |es|
  {
    if es == [] then 0
    else (if es[0].run == r && Acks(s.states[r], es[0].action, n) then 1 else 0) + AckTimes(cs, Happened(cs, s, es[0]),
            es[1..], r, n)
  }

  lemma {:induction false} RunKeepsFlushes(cs: Configs, path: Path, base: Log, s: System, es: seq<Event>, r: nat,
                                           n: nat, acks: nat)
    requires Cluster(cs, path) && Good(cs, path, base, s) && Possible(cs, s, es) && r in cs && r in s.states
    requires FlushSound(cs[r], s.states[r]) && AckSound(s.states[r], n, acks)
    ensures r in Final(cs, s, es).states && FlushSound(cs[r], Final(cs, s, es).states[r])
    ensures acks + AckTimes(cs, s, es, r, n) <= 1
    decreases |es|
  {
    hide Cluster, Good, Enabled, NextState, NextWorld, FlushSound, Acks, Local;
    if es == [] {
    } else {
      var e := es[0];
      StepIsGood(cs, path, base, s, e);
      LocalOf(cs, path, base, s, r);
      var acks' := acks + if e.run == r && Acks(s.states[r], e.action, n) then 1 else 0;
      if e.run == r {
        StepKeepsTies(cs[r], s.states[r], s.world, e.action);
        StepAcks(cs[r], s.states[r], s.world, e.action, n, acks);
      }
      RunKeepsFlushes(cs, path, base, Happened(cs, s, e), es[1..], r, n, acks');
    }
  }

  /** In every run each Flush is acknowledged at most once, so a result channel of capacity one never
      blocks the rotator or the resolver. */
  lemma AckedAtMostOnce(cs: Configs, path: Path, base: Log, start: System, es: seq<Event>, r: nat, n: nat)
    requires Cluster(cs, path) && Start(cs, path, base, start) && Possible(cs, start, es) && r in cs
    ensures AckTimes(cs, start, es, r, n) <= 1
    ensures r in Final(cs, start, es).states && FlushSound(cs[r], Final(cs, start, es).states[r])
  {
    hide Possible, Final, Good, AckTimes, SharedInv.Apart, ValidConfig;
    StartIsGood(cs, path, base, start);
    RunKeepsFlushes(cs, path, base, start, es, r, n, 0);
  }

  // ---------- the answer of a Flush without a batch ----------

  /** The rotator gives up the batch it was collecting for Flush `n`. */
  predicate DropsFlush(s: State, a: Action, n: nat) {
    a == ByRotator(Drop) && s.front.rot.Acquiring? && s.front.rot.reason == ByFlush(n)
  }

  /** What a Flush may have been told, given whether its batch was dropped. */
  predicate AnswerFits(fl: Flush, dropped: bool) {
    match fl
    case Acked(_, err, b) => if dropped then b == None && err == Some(Shutdown) else b == None ==> err == None
    case Returned(_, err, b) => if dropped then b == None && err == Some(Shutdown) else b == None ==> err == None
    case GaveUp => true
    case _ => !dropped
  }

  predicate ToldFlush(s: State, n: nat, dropped: bool) {
    if n < |s.acct.flushes| then AnswerFits(s.acct.flushes[n], dropped) else !dropped
  }

  /** The rotator collects for a Flush that waits or has given up. */
  predicate Awaited(s: State) {
    RotFlush(s.front.rot).Some? ==>
      && RotFlush(s.front.rot).value < |s.acct.flushes|
      && (s.acct.flushes[RotFlush(s.front.rot).value].Waiting? || s.acct.flushes[RotFlush(s.front.rot).value].GaveUp?)
  }

  lemma RotatorTells(c: Config, s: State, a: RotatorAction, n: nat, dropped: bool)
    requires RotatorCan(c, s, a) && Awaited(s) && ToldFlush(s, n, dropped)
    ensures ToldFlush(RotatorStep(c, s, a), n, dropped || DropsFlush(s, ByRotator(a), n))
  {
    hide CostOf, FramedCost, FramingOf, Representable, AllResolved;
  }

  lemma CallerTells(c: Config, s: State, a: CallerAction, n: nat, dropped: bool)
    requires CallerCan(c, s, a) && ToldFlush(s, n, dropped)
    ensures ToldFlush(CallerStep(c, s, a), n, dropped)
  {
    hide MessageCost, CostOf;
  }

  lemma ResolverTells(s: State, a: ResolverAction, n: nat, dropped: bool)
    requires ResolverCan(s, a) && ToldFlush(s, n, dropped)
    ensures ToldFlush(ResolverStep(s, a), n, dropped)
  {}

  lemma StepTells(c: Config, s: State, w: World, a: Action, n: nat, dropped: bool)
    requires Local(c, s) && Enabled(c, s, a) && ToldFlush(s, n, dropped)
    ensures ToldFlush(NextState(c, s, w, a), n, dropped || DropsFlush(s, a, n))
  {
    hide AnswerFits, RotatorCan, RotatorStep, CallerCan, CallerStep, ResolverCan, ResolverStep, WorkerCan, WorkerStep,
         CommitCan, CommitStep, Conserved, FlowInv.Phases, FlowInv.Cursor, GatesInv.Gated, GatesInv.Typed, InOrder,
         Housed, Resolved, Balanced, FlushOk;
    match a
    case ByCaller(x) => CallerTells(c, s, x, n, dropped);
    case ByRotator(x) => RotatorTells(c, s, x, n, dropped);
    case ByResolver(x) => ResolverTells(s, x, n, dropped);
    case _ => StagesFrame(c, s, w, a);
  }

  /** Some event of run `r` drops the batch of its Flush `n`. */
  predicate FlushDropped(cs: Configs, s: System, es: seq<Event>, r: nat, n: nat)
    requires Possible(cs, s, es)
    decreases |es|
  {
    es != []
    && ((es[0].run == r && DropsFlush(s.states[r], es[0].action, n))
        || FlushDropped(cs, Happened(cs, s, es[0]), es[1..], r, n))
  }

  lemma {:induction false} RunTells(cs: Configs, path: Path, base: Log, s: System, es: seq<Event>, r: nat, n: nat,
                                    dropped: bool)
    requires Cluster(cs, path) && Good(cs, path, base, s) && Possible(cs, s, es) && r in cs && r in s.states
    requires ToldFlush(s.states[r], n, dropped)
    ensures r in Final(cs, s, es).states
    ensures ToldFlush(Final(cs, s, es).states[r], n, dropped || FlushDropped(cs, s, es, r, n))
    decreases |es|
  {
    hide Cluster, Good, Enabled, NextState, NextWorld, ToldFlush, DropsFlush, Local;
    if es == [] {
    } else {
      var e := es[0];
      StepIsGood(cs, path, base, s, e);
      LocalOf(cs, path, base, s, r);
      if e.run == r {
        StepTells(cs[r], s.states[r], s.world, e.action, n, dropped);
      }
      var dropped' := dropped || (e.run == r && DropsFlush(s.states[r], e.action, n));
      RunTells(cs, path, base, Happened(cs, s, e), es[1..], r, n, dropped');
    }
  }

  /** In every run: a Flush whose batch was dropped answers with the shutdown, and any other Flush answered without a
      batch answers nil. */
  lemma AnswerWithoutBatch(cs: Configs, path: Path, base: Log, start: System, es: seq<Event>, r: nat, n: nat)
    requires Cluster(cs, path) && Start(cs, path, base, start) && Possible(cs, start, es) && r in cs
    ensures r in Final(cs, start, es).states
    ensures var flushes := Final(cs, start, es).states[r].acct.flushes;
            n < |flushes| ==> AnswerFits(flushes[n], FlushDropped(cs, start, es, r, n))
  {
    hide Possible, Final, Good, FlushDropped, SharedInv.Apart, ValidConfig;
    StartIsGood(cs, path, base, start);
    RunTells(cs, path, base, start, es, r, n, false);
  }

  // ---------- the snapshot is the call ----------

  /** Flush `n` is the one that called when `snap` messages had been accepted, or its caller has given up. */
  predicate CalledAt(s: State, n: nat, snap: nat) {
    n < |s.acct.flushes| && (s.acct.flushes[n].GaveUp? || s.acct.flushes[n].snap == snap)
  }

  lemma CallerKeepsCall(c: Config, s: State, a: CallerAction, n: nat, snap: nat)
    requires CallerCan(c, s, a) && CalledAt(s, n, snap)
    ensures CalledAt(CallerStep(c, s, a), n, snap)
  {
    hide MessageCost, CostOf;
  }

  lemma RotatorKeepsCall(c: Config, s: State, a: RotatorAction, n: nat, snap: nat)
    requires RotatorCan(c, s, a) && CalledAt(s, n, snap)
    ensures CalledAt(RotatorStep(c, s, a), n, snap)
  {
    hide CostOf, FramedCost, FramingOf, Representable, AllResolved;
  }

  lemma StepKeepsCall(c: Config, s: State, w: World, a: Action, n: nat, snap: nat)
    requires Enabled(c, s, a) && CalledAt(s, n, snap)
    ensures CalledAt(NextState(c, s, w, a), n, snap)
  {
    hide CallerCan, CallerStep, RotatorCan, RotatorStep, WorkerCan, WorkerStep, CommitCan, CommitStep;
    match a
    case ByCaller(x) => CallerKeepsCall(c, s, x, n, snap);
    case ByRotator(x) => RotatorKeepsCall(c, s, x, n, snap);
    case ByResolver(_) =>
    case _ => StagesFrame(c, s, w, a);
  }

  lemma {:induction false} RunKeepsCall(cs: Configs, s: System, es: seq<Event>, r: nat, n: nat, snap: nat)
    requires Possible(cs, s, es) && r in s.states && CalledAt(s.states[r], n, snap)
    ensures r in Final(cs, s, es).states && CalledAt(Final(cs, s, es).states[r], n, snap)
    decreases |es|
  {
    hide Enabled, NextState, NextWorld, CalledAt;
    if es == [] {
    } else {
      if es[0].run == r {
        StepKeepsCall(cs[r], s.states[r], s.world, es[0].action, n, snap);
      }
      RunKeepsCall(cs, Happened(cs, s, es[0]), es[1..], r, n, snap);
    }
  }
}
