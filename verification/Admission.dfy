/** When the producer makes someone wait and when it seals, told from what is in flight: reservations, slots, the
    append queue, the pools, the size trigger and the rotator that gives up. */
module Admission {
  import opened Wrappers
  import opened ManifestLog
  import opened ObjStore
  import opened Accumulator
  import opened Pipeline
  import opened JobsInv
  import opened MessagesInv
  import opened LedgerInv
  import opened FlushInv
  import opened ProducerInv
  import opened SharedInv
  import opened System
  import opened EveryRun
  import opened Promises
  import opened Progress
  import opened FlushRuns
  import FlowInv
  import GatesInv

  // ---------- bytes and slots ----------

  /** Bytes in flight: handed over, queued, accumulated, and the framed costs of unreleased batches. */
  function BytesInFlight(s: State): int {
    CostOf(s.front.reserved) + CostOf(s.front.queue) + CostOf(s.front.acc)
    + LiveSum(Costs(s.hist.emitted), s.hist.released)
  }

  /** In every run an Append waits for bytes exactly when something is in flight and its message would not fit beside
      it; so a message of any size gets in once nothing is in flight. */
  lemma AppendWaitsExactly(cs: Configs, path: Path, base: Log, start: System, es: seq<Event>, r: nat, i: nat)
    requires Cluster(cs, path) && Start(cs, path, base, start) && Possible(cs, start, es) && r in cs
            && r in Final(cs, start, es).states
    requires i < |Final(cs, start, es).states[r].front.entering|
    ensures var p := Final(cs, start, es).states[r];
            var used, cost := BytesInFlight(p), MessageCost(p.front.entering[i]);
            !Enabled(cs[r], p, ByCaller(Reserve(i))) <==> used != 0 && used + cost > cs[r].maxBytes
  {
    hide Cluster, Start, Possible, Final, Local, Shared, MessageCost, CostOf, LiveSum, ValidConfig;
    LocalInEveryRun(cs, path, base, start, es, r);
    BudgetIsExact(cs[r], Final(cs, start, es).states[r]);
  }

  /** In every run the rotator waits for a slot exactly while `maxBatches` batches are in flight, and a Flush waits
      for the drain exactly while one is, or is about to be. */
  lemma SlotWaitsExactly(cs: Configs, path: Path, base: Log, start: System, es: seq<Event>, r: nat, n: nat)
    requires Cluster(cs, path) && Start(cs, path, base, start) && Possible(cs, start, es) && r in cs
            && r in Final(cs, start, es).states
    ensures var c, p := cs[r], Final(cs, start, es).states[r];
            && (p.front.rot.Acquiring? ==> (!Enabled(c, p, ByRotator(Acquire)) <==> |Live(p.hist)| == c.maxBatches))
            && (p.front.rot.Acquiring? && !p.front.rot.parked ==>
                  (Enabled(c, p, ByRotator(Park)) <==> |Live(p.hist)| == c.maxBatches))
            && (n < |p.acct.flushes| && p.acct.flushes[n].Acked? ==>
                  (!Enabled(c, p, ByCaller(FlushDrained(n))) <==> Live(p.hist) != {} || p.front.rot.Reconciling?))
  {
    hide Cluster, Start, Possible, Final, Local, Shared, LiveSum, Live, ValidConfig;
    LocalInEveryRun(cs, path, base, start, es, r);
    BudgetIsExact(cs[r], Final(cs, start, es).states[r]);
  }

  // ---------- the queue and the pools ----------

  predicate QueueFits(c: Config, s: State) {
    |s.front.queue| <= c.queueCap
  }

  lemma CallerQueues(c: Config, s: State, a: CallerAction)
    requires CallerCan(c, s, a) && QueueFits(c, s)
    ensures QueueFits(c, CallerStep(c, s, a))
  {
    hide MessageCost, CostOf;
  }

  lemma RotatorQueues(c: Config, s: State, a: RotatorAction)
    requires RotatorCan(c, s, a) && QueueFits(c, s)
    ensures QueueFits(c, RotatorStep(c, s, a))
  {
    hide CostOf, FramedCost, FramingOf, Representable, AllResolved, AckFlush;
  }

  /** An Append with its bytes waits exactly while the queue is full and no rotator is there to take the message. */
  lemma QueueWaitsExactly(c: Config, s: State, i: nat)
    requires Local(c, s) && QueueFits(c, s) && i < |s.front.reserved|
    ensures var f := s.front;
            !Enabled(c, s, ByCaller(Accept(i))) && !Enabled(c, s, ByCaller(HandOver(i)))
            <==> |f.queue| == c.queueCap && (f.queue != [] || !(f.rot.Selecting? || f.rot.Draining?))
  {
    hide Local;
  }

  /** A sealed batch waits exactly while all encoders are busy, an encoded one while all uploaders are, and a finished
      one never. */
  lemma PoolsWaitExactly(c: Config, s: State, i: nat)
    requires ValidConfig(c) && Local(c, s)
    ensures s.front.rot.Sending? ==> (!Enabled(c, s, ByRotator(Send)) <==> |s.jobs.enc| == c.encoders)
    ensures i < |s.jobs.enc| && s.jobs.enc[i].work.Encoded? ==>
              (!Enabled(c, s, ByWorker(ToUploader(i))) <==> |s.jobs.upl| == c.uploaders)
    ensures i < |s.jobs.enc| && s.jobs.enc[i].work.Finished? ==> Enabled(c, s, ByWorker(ReportEncode(i)))
    ensures i < |s.jobs.upl| && s.jobs.upl[i].work.Finished? ==> Enabled(c, s, ByWorker(ReportUpload(i)))
  {
    hide ValidConfig, Conserved, FlowInv.Phases, FlowInv.Cursor, GatesInv.Typed, InOrder, Housed, Resolved, Balanced,
         Flushing;
    CompletionsFit(c, s);
  }

  /** A selecting rotator may take any message, Flush, timer or close that is there, whatever else is. */
  lemma SelectsExactly(c: Config, s: State, n: nat)
    requires s.front.rot.Selecting?
    ensures Enabled(c, s, ByRotator(Receive)) <==> s.front.queue != []
    ensures Enabled(c, s, ByRotator(TakeFlush(n))) <==> n < |s.acct.flushes| && s.acct.flushes[n].Calling?
    ensures Enabled(c, s, ByRotator(Tick)) <==> s.front.acc != []
    ensures Enabled(c, s, ByRotator(SeeClose)) <==> s.front.closing && s.front.queue == []
  {}

  // ---------- the size trigger ----------

  /** A selecting rotator is below the size, and one that seals by size has just reached it. */
  predicate Sized(c: Config, f: Front) {
    && (f.rot.Selecting? && f.acc != [] ==> CostOf(f.acc) < c.flushSize)
    && ((f.rot.Acquiring? || f.rot.Reconciling?) && f.rot.reason.BySize? ==>
          && f.acc != [] && CostOf(f.acc) >= c.flushSize
          && (|f.acc| > 1 ==> CostOf(f.acc[..|f.acc| - 1]) < c.flushSize))
  }

  lemma AbsorbedSized(c: Config, f: Front, m: Message)
    requires Sized(c, f) && (f.rot.Selecting? || f.rot.Draining?)
    ensures Sized(c, Absorbed(c, f, m))
  {
    hide CostOf;
    assert (f.acc + [m])[..|f.acc|] == f.acc;
  }

  lemma CallerSizes(c: Config, s: State, a: CallerAction)
    requires CallerCan(c, s, a) && Sized(c, s.front)
    ensures Sized(c, CallerStep(c, s, a).front)
  {
    hide MessageCost, CostOf, Absorbed;
    if a.HandOver? {
      var f := s.front.(reserved := Without(s.front.reserved, a.i));
      AbsorbedSized(c, f, WithNumber(s.hist, s.front.reserved[a.i]));
    }
  }

  lemma RotatorSizes(c: Config, s: State, a: RotatorAction)
    requires RotatorCan(c, s, a) && Sized(c, s.front)
    requires s.front.rot.Sending? ==> s.front.acc == []
    ensures Sized(c, RotatorStep(c, s, a).front)
  {
    hide CostOf, FramedCost, FramingOf, Representable, AllResolved, AckFlush, Absorbed;
    if a.Receive? {
      AbsorbedSized(c, s.front.(queue := s.front.queue[1..]), s.front.queue[0]);
    }
  }

  // ---------- over runs ----------

  ghost predicate Admitting(c: Config, s: State) {
    Sized(c, s.front) && QueueFits(c, s)
  }

  lemma StepAdmits(c: Config, s: State, w: World, a: Action)
    requires Local(c, s) && Enabled(c, s, a) && Admitting(c, s)
    ensures Admitting(c, NextState(c, s, w, a))
  {
    hide Sized, CallerCan, CallerStep, RotatorCan, RotatorStep, WorkerCan, WorkerStep, CommitCan, CommitStep, Conserved,
         FlowInv.Phases, FlowInv.Cursor, GatesInv.Typed, InOrder, Housed, Resolved, Balanced, Flushing, AckFlush;
    match a
    case ByCaller(x) =>
      CallerSizes(c, s, x);
      CallerQueues(c, s, x);
    case ByRotator(x) =>
      RotatorSizes(c, s, x);
      RotatorQueues(c, s, x);
    case ByResolver(_) =>
    case _ => StagesFrame(c, s, w, a);
  }

  lemma {:induction false} RunAdmits(cs: Configs, path: Path, base: Log, s: System, es: seq<Event>, r: nat)
    requires Cluster(cs, path) && Good(cs, path, base, s) && Possible(cs, s, es) && r in cs && r in s.states
    requires Admitting(cs[r], s.states[r])
    ensures r in Final(cs, s, es).states && Admitting(cs[r], Final(cs, s, es).states[r])
    decreases |es|
  {
    hide Cluster, Good, Enabled, NextState, NextWorld, Admitting, Local;
    if es == [] {
    } else {
      var e := es[0];
      StepIsGood(cs, path, base, s, e);
      LocalOf(cs, path, base, s, r);
      if e.run == r {
        StepAdmits(cs[r], s.states[r], s.world, e.action);
      }
      RunAdmits(cs, path, base, Happened(cs, s, e), es[1..], r);
    }
  }

  /** In every run: while the rotator selects, what it has collected is below `flushSize`; when it seals by size, that
      has been reached, and not before the last message; and the queue never holds more than its capacity. */
  lemma SizeInEveryRun(cs: Configs, path: Path, base: Log, start: System, es: seq<Event>, r: nat)
    requires Cluster(cs, path) && Start(cs, path, base, start) && Possible(cs, start, es) && r in cs
    ensures r in Final(cs, start, es).states
    ensures var c, f := cs[r], Final(cs, start, es).states[r].front;
            && (f.rot.Selecting? && f.acc != [] ==> CostOf(f.acc) < c.flushSize)
            && ((f.rot.Acquiring? || f.rot.Reconciling?) && f.rot.reason.BySize? ==>
                  && f.acc != [] && CostOf(f.acc) >= c.flushSize
                  && (|f.acc| > 1 ==> CostOf(f.acc[..|f.acc| - 1]) < c.flushSize))
            && |f.queue| <= c.queueCap
  {
    hide Possible, Final, Good, CostOf, SharedInv.Apart, ValidConfig;
    StartIsGood(cs, path, base, start);
    RunAdmits(cs, path, base, start, es, r);
  }

  // ---------- a rotator that gives up found no slot ----------

  /** Whether the rotator, since it began to ask for a slot, has found all of them taken. */
  function FullAfter(c: Config, s: State, a: Action, full: bool): bool {
    if a == ByRotator(Park) then |Live(s.hist)| == c.maxBatches else full && !a.ByRotator?
  }

  predicate ParkedFull(s: State, full: bool) {
    s.front.rot.Acquiring? && s.front.rot.parked ==> full
  }

  lemma CallerParks(c: Config, s: State, a: CallerAction, full: bool)
    requires CallerCan(c, s, a) && ParkedFull(s, full)
    ensures ParkedFull(CallerStep(c, s, a), full)
  {
    hide MessageCost, CostOf;
  }

  lemma RotatorParks(c: Config, s: State, a: RotatorAction, full: bool)
    requires Local(c, s) && RotatorCan(c, s, a) && ParkedFull(s, full)
    ensures ParkedFull(RotatorStep(c, s, a), FullAfter(c, s, ByRotator(a), full))
  {
    hide Local, Live, CostOf, FramedCost, FramingOf, Representable, AllResolved, AckFlush;
    BudgetIsExact(c, s);
  }

  lemma StepParks(c: Config, s: State, w: World, a: Action, full: bool)
    requires Local(c, s) && Enabled(c, s, a) && ParkedFull(s, full)
    ensures ParkedFull(NextState(c, s, w, a), FullAfter(c, s, a, full))
  {
    hide Local, Live, CallerCan, CallerStep, RotatorCan, RotatorStep, WorkerCan, WorkerStep, CommitCan, CommitStep,
         AckFlush;
    match a
    case ByCaller(x) => CallerParks(c, s, x, full);
    case ByRotator(x) => RotatorParks(c, s, x, full);
    case ByResolver(_) =>
    case _ => StagesFrame(c, s, w, a);
  }

  function FullSince(cs: Configs, s: System, es: seq<Event>, r: nat, full: bool): bool
    requires Possible(cs, s, es)
    decreases |es|
  {
    if es == [] then full
    else FullSince(cs, Happened(cs, s, es[0]), es[1..], r,
                   if es[0].run == r then FullAfter(cs[r], s.states[r], es[0].action, full) else full)
  }

  lemma {:induction false} RunParks(cs: Configs, path: Path, base: Log, s: System, es: seq<Event>, r: nat, full: bool)
    requires Cluster(cs, path) && Good(cs, path, base, s) && Possible(cs, s, es) && r in cs && r in s.states
    requires ParkedFull(s.states[r], full)
    ensures r in Final(cs, s, es).states && ParkedFull(Final(cs, s, es).states[r], FullSince(cs, s, es, r, full))
    decreases |es|
  {
    hide Cluster, Good, Enabled, NextState, NextWorld, ParkedFull, FullAfter, Local;
    if es == [] {
    } else {
      var e := es[0];
      StepIsGood(cs, path, base, s, e);
      LocalOf(cs, path, base, s, r);
      if e.run == r {
        StepParks(cs[r], s.states[r], s.world, e.action, full);
      }
      RunParks(cs, path, base, Happened(cs, s, e), es[1..], r,
               if e.run == r then FullAfter(cs[r], s.states[r], e.action, full) else full);
    }
  }

  // ---------- closing ----------

  const CLOSE := ByCaller(CloseAppend)

  lemma OnlyCloseCloses(c: Config, s: State, w: World, a: Action)
    requires Enabled(c, s, a)
    ensures NextState(c, s, w, a).front.closing <==> s.front.closing || a == CLOSE
  {
    hide WorkerCan, WorkerStep, CommitCan, CommitStep, MessageCost, CostOf, Representable, FramedCost, FramingOf,
         AckFlush, AllResolved;
    if a.ByCommitter? || a.ByWorker? {
      StagesFrame(c, s, w, a);
    }
  }

  lemma {:induction false} ClosingIsEvent(cs: Configs, s: System, es: seq<Event>, r: nat)
    requires Possible(cs, s, es) && r in s.states
    ensures r in Final(cs, s, es).states
    ensures Final(cs, s, es).states[r].front.closing <==> s.states[r].front.closing || HasEvent(es, r, CLOSE)
    decreases |es|
  {
    hide Enabled, NextState, NextWorld, HasEvent;
    if es == [] {
      NoEvent(r, CLOSE);
    } else {
      var e := es[0];
      ClosingIsEvent(cs, Happened(cs, s, e), es[1..], r);
      FirstOrLater(es, r, CLOSE);
      if e.run == r {
        OnlyCloseCloses(cs[r], s.states[r], s.world, e.action);
      }
    }
  }

  /** In every run: a message is let in exactly if it has entries, the producer has not halted and Close has not closed
      the append channel; and the rotator drops what it collected only after finding every slot taken. */
  lemma DoorsInEveryRun(cs: Configs, path: Path, base: Log, start: System, es: seq<Event>, r: nat, m: Message)
    requires Cluster(cs, path) && Start(cs, path, base, start) && Possible(cs, start, es) && r in cs
    ensures r in Final(cs, start, es).states
    ensures var p := Final(cs, start, es).states[r];
            && (Enabled(cs[r], p, ByCaller(Enter(m))) <==>
                  m.entries != [] && !p.jobs.halted && !HasEvent(es, r, CLOSE))
            && (Enabled(cs[r], p, ByRotator(Drop)) ==> FullSince(cs, start, es, r, false))
  {
    hide Possible, Final, Good, FullSince, HasEvent, SharedInv.Apart, ValidConfig;
    StartIsGood(cs, path, base, start);
    ClosingIsEvent(cs, start, es, r);
    RunParks(cs, path, base, start, es, r, false);
  }
}
