/** What a producer owes its callers, in every reachable state: each accepted message in exactly one
    place, each watcher resolved once, an exact budget, and everything settled once the stages have exited. */
module Promises {
  import opened Wrappers
  import opened Accumulator
  import opened Pipeline
  import opened JobsInv
  import opened FlowInv
  import opened GatesInv
  import opened MessagesInv
  import opened LedgerInv
  import opened FlushInv
  import opened ProducerInv

  // ---------- where an ordinal can be ----------

  lemma LiveIsHeld(j: Jobs, h: History)
    requires Conserved(j, h)
    ensures forall o :: o in Live(h) <==> o in Total(j)
  {
    hide Unaltered, Total, Live;
    forall o
      ensures o in Live(h) <==> o in Total(j)
    {
      assert Total(j)[o] == multiset(Live(h))[o];
    }
  }

  /** Until a halt, a live ordinal that is in no channel and no stage upstream of the committer, with the
      resolver and the committer's hand empty, is in `ready`; so the cursor's own ordinal cannot be missing. */
  lemma CursorIsUpstream(j: Jobs, h: History)
    requires Conserved(j, h) && Cursor(j, h) && !j.halted && (j.com.Receiving? || j.com.Done?)
    requires Upstream(j) == multiset{}
    ensures j.next == |h.emitted| && j.ready == map[]
  {
    hide Unaltered, Bag, Hand, InResolver, Upstream;
    LiveIsHeld(j, h);
    assert j.next !in Total(j);
    assert j.next in Below(|h.emitted|) ==> j.next in Live(h);
    forall o | o in j.ready
      ensures j.next <= o < |h.emitted|
    {
      ReadyAtOrAfterCursor(j, h, o);
    }
    assert j.ready.Keys == {};
  }

  lemma StagesEmpty(c: Config, s: State)
    requires Gated(c, s) && c.encoders >= 1 && c.uploaders >= 1 && s.gates.completionClosed && s.jobs.chan == []
    ensures s.jobs.sending == [] && s.jobs.enc == [] && s.jobs.upl == [] && s.front.rot.Stopped?
    ensures s.front.acc == [] && s.front.queue == [] && s.front.reserved == [] && s.front.entering == []
    ensures Upstream(s.jobs) == multiset{}
  {}

  /** The committer exits with nothing left in `ready`: ordinals have no holes. */
  lemma NoHoles(c: Config, s: State)
    requires ValidConfig(c) && Local(c, s) && s.jobs.com.Done?
    ensures s.jobs.ready == map[] && Upstream(s.jobs) == multiset{} && Hand(s.jobs.com) == []
    ensures !s.jobs.halted ==> s.jobs.next == |s.hist.emitted|
    ensures s.front.acc == [] && s.front.queue == [] && s.front.reserved == [] && s.front.rot.Stopped?
  {
    hide Conserved, Cursor, Typed, InOrder, Housed, Resolved, Balanced, Flushing, ValidConfig, Upstream;
    assert c.encoders >= 1 && c.uploaders >= 1 by {
      Counts(c);
    }
    StagesEmpty(c, s);
    if !s.jobs.halted {
      CursorIsUpstream(s.jobs, s.hist);
    }
  }

  lemma Counts(c: Config)
    requires ValidConfig(c)
    ensures c.encoders >= 1 && c.uploaders >= 1 && c.maxBatches >= 1
  {}

  lemma NothingLive(j: Jobs, h: History)
    requires Conserved(j, h) && j.ready == map[] && Upstream(j) == multiset{} && Hand(j.com) == [] && j.res.Idle?
    ensures Live(h) == {}
  {
    hide Unaltered, Upstream;
    LiveIsHeld(j, h);
    assert forall o :: o !in Total(j);
  }

  /** Once the committer and the resolver have exited, every accepted message has its outcome, every
      batch was released, and the budget is back to zero. */
  lemma DrainedSettlesAll(c: Config, s: State)
    requires ValidConfig(c) && Local(c, s) && s.jobs.com.Done? && s.jobs.res.Idle?
    ensures forall i: nat :: i < |s.hist.accepted| <==> i in s.acct.watchers
    ensures |s.hist.home| == |s.hist.accepted| && Live(s.hist) == {}
    ensures s.acct.bytesUsed == 0 && s.acct.batchesUsed == 0
  {
    hide ValidConfig, Conserved, Phases, Cursor, Gated, Typed, Housed, Resolved, Balanced, Flushing;
    NoHoles(c, s);
    NothingLive(s.jobs, s.hist);
    ReleasedBelow(s.jobs, s.hist);
    DrainedIsZero(c, s);
    NoSlotsMeansResolved(c, s);
    WatchersAreHoused(s.hist, s.acct.watchers, s.jobs.res);
  }

  // ---------- exactly once ----------

  /** The watchers an action settles. */
  function Settles(s: State, a: Action): seq<nat> {
    match a
    case ByRotator(Drop) => WatchersOf(s.front.acc)
    case ByResolver(Resolve) =>
      if ResolverCan(s, Resolve) then [s.jobs.res.job.batch.messages[s.jobs.res.done].watcher] else []
    case _ => []
  }

  lemma {:induction false} WatchersOfAt(ms: seq<Message>)
    ensures |WatchersOf(ms)| == |ms| && forall i :: 0 <= i < |ms| ==> WatchersOf(ms)[i] == ms[i].watcher
  {
    if ms == [] {
    } else {
      WatchersOfAt(ms[..|ms| - 1]);
    }
  }

  predicate Distinct(xs: seq<nat>) {
    forall i, k :: 0 <= i < k < |xs| ==> xs[i] != xs[k]
  }

  /** A watcher is only ever settled by a step that finds it unsettled, and once in that step; so the
      first-outcome-wins guard of `resolve` never has to act. */
  lemma SettledOnce(c: Config, s: State, a: Action)
    requires Local(c, s) && Enabled(c, s, a)
    ensures Distinct(Settles(s, a))
    ensures forall x :: 0 <= x < |Settles(s, a)| ==>
              Settles(s, a)[x] !in s.acct.watchers && Settles(s, a)[x] < |s.hist.accepted|
  {
    hide Phases, Cursor, Gated, Typed, Housed, Resolved, Balanced, Flushing, WatchersOf, CallerCan, WorkerCan,
         CommitCan, Total, Unaltered;
    if a == ByRotator(Drop) {
      WatchersOfAt(s.front.acc);
      AccIsRange(s);
      WatchersAreHoused(s.hist, s.acct.watchers, s.jobs.res);
    } else if a == ByResolver(Resolve) {
      ResolveFindsOpen(s);
    }
  }

  lemma ResolveFindsOpen(s: State)
    requires Conserved(s.jobs, s.hist) && InOrder(s.front, s.hist) && Housed(s.hist)
            && Resolved(s.hist, s.acct.watchers, s.jobs.res)
    requires ResolverCan(s, Resolve)
    ensures var i := s.jobs.res.job.batch.messages[s.jobs.res.done].watcher;
            i !in s.acct.watchers && i < |s.hist.accepted|
  {
    hide Resolved, Total, Unaltered;
    ReleasingIsLive(s.jobs, s.hist);
    NotReleased(s.jobs, s.hist);
    ResolveIsFirst(s.hist, s.acct.watchers, s.jobs.res.job, s.jobs.res.done);
  }

  // ---------- one place each ----------

  /** Accepted message `i` is in the queue, or in the accumulator, or in exactly one batch, or was dropped on
      shutdown; queue, accumulator and batches hold the messages in the order they were accepted. */
  lemma OnePlaceEach(c: Config, s: State, i: nat)
    requires Local(c, s) && i < |s.hist.accepted|
    ensures var h, f := s.hist, s.front; var inAcc, inQueue := |h.home|, |h.home| + |f.acc|;
            if i < inAcc then
              if h.home[i].Some? then
                var b := h.home[i].value;
                b < |h.emitted| && h.accepted[i] in h.emitted[b].messages
                && (forall o :: 0 <= o < |h.emitted| && h.accepted[i] in h.emitted[o].messages ==> o == b)
              else i in s.acct.watchers && s.acct.watchers[i] == Some(Shutdown)
            else if i < inQueue then f.acc[i - inAcc] == h.accepted[i]
            else f.queue[i - inQueue] == h.accepted[i]
  {
    hide Conserved, Phases, Cursor, Gated, Typed, Balanced, Flushing, FramedCost, Nonempty;
    var h := s.hist;
    if i < |h.home| && h.home[i].Some? {
      InItsBatch(h, i);
    }
  }

  lemma InItsBatch(h: History, i: nat)
    requires Housed(h) && i < |h.home| && h.home[i].Some?
    requires forall x :: 0 <= x < |h.accepted| ==> h.accepted[x].watcher == x
    ensures var b := h.home[i].value;
            b < |h.emitted| && h.accepted[i] in h.emitted[b].messages
            && (forall o :: 0 <= o < |h.emitted| && h.accepted[i] in h.emitted[o].messages ==> o == b)
  {
    hide FramedCost;
    var b := h.home[i].value;
    assert Holds(h.emitted[b], i) && Stretch(h.emitted[b], h);
    assert h.emitted[b].messages[i - First(h.emitted[b])] == h.accepted[i];
    forall o | 0 <= o < |h.emitted| && h.accepted[i] in h.emitted[o].messages
      ensures o == b
    {
      assert Stretch(h.emitted[o], h);
      var x :| 0 <= x < |h.emitted[o].messages| && h.emitted[o].messages[x] == h.accepted[i];
      assert h.emitted[o].messages[x] == h.accepted[First(h.emitted[o]) + x];
      assert Holds(h.emitted[o], i);
    }
  }

  /** Ordinals are 0, 1, 2, …; each batch in flight is in exactly one stage, unaltered. */
  lemma OneStageEach(c: Config, s: State, o: nat)
    requires Local(c, s)
    ensures o < |s.hist.emitted| ==> s.hist.emitted[o].ordinal == o
    ensures Total(s.jobs)[o] == if o < |s.hist.emitted| && o !in s.hist.released then 1 else 0
    ensures Unaltered(s.jobs, s.hist.emitted)
  {
    hide Phases, Cursor, Gated, Typed, InOrder, Housed, Resolved, Balanced, Flushing, Unaltered, Total;
    assert multiset(Live(s.hist))[o] == if o in Live(s.hist) then 1 else 0;
  }

  // ---------- budget ----------

  /** What is reserved is exactly what is in flight; what is in flight is bounded. */
  lemma BudgetIsExact(c: Config, s: State)
    requires Local(c, s)
    ensures s.acct.bytesUsed == CostOf(s.front.reserved) + CostOf(s.front.queue) + CostOf(s.front.acc)
                                + LiveSum(Costs(s.hist.emitted), s.hist.released)
    ensures s.acct.batchesUsed == |Live(s.hist)| + (if s.front.rot.Reconciling? then 1 else 0) <= c.maxBatches
    ensures s.acct.bytesUsed <= Max(c.maxBytes, s.hist.biggest) + LiveSum(Framings(s.hist.emitted), s.hist.released)
  {
    hide Conserved, Phases, Cursor, Gated, Typed, InOrder, Housed, Resolved, Flushing, LiveSum, CostOf;
    ReleasedBelow(s.jobs, s.hist);
    BytesAreBounded(c, s);
    LiveCount(s.hist);
  }

  lemma LiveCount(h: History)
    requires h.released <= Below(|h.emitted|)
    ensures |Live(h)| == |h.emitted| - |h.released|
  {
    assert Below(|h.emitted|) == Live(h) + h.released;
  }

  /** What an action gives back: bytes and batch slots. */
  function GivesBack(s: State, a: Action): (nat, nat) {
    match a
    case ByCaller(Withdraw(i)) => if i < |s.front.reserved| then (MessageCost(s.front.reserved[i]), 0) else (0, 0)
    case ByRotator(Drop) => (CostOf(s.front.acc), 0)
    case ByResolver(Release) => if s.jobs.res.Releasing? then (s.jobs.res.job.batch.byteCost, 1) else (0, 0)
    case _ => (0, 0)
  }

  /** Nothing is given back that was not taken: the clamps at zero never act. */
  lemma ClampsNeverFire(c: Config, s: State, a: Action)
    requires Local(c, s) && Enabled(c, s, a)
    ensures GivesBack(s, a).0 <= s.acct.bytesUsed && GivesBack(s, a).1 <= s.acct.batchesUsed
  {
    hide Conserved, Phases, Cursor, Gated, Typed, InOrder, Housed, Resolved, Flushing, LiveSum, CostOf, MessageCost,
         RotatorCan, WorkerCan, CommitCan;
    ReleasedBelow(s.jobs, s.hist);
    Committer.CardinalityBelow(s.hist.released, Below(|s.hist.emitted|));
    if a.ByCaller? && a.caller.Withdraw? {
      PartOfCost(s.front.reserved, a.caller.i);
    } else if a == ByResolver(Release) {
      ReleaseBalances(c, s);
    }
  }

  lemma PartOfCost(ms: seq<Message>, i: nat)
    requires i < |ms|
    ensures MessageCost(ms[i]) <= CostOf(ms)
  {
    hide CostOf, MessageCost;
    CostOfConcat(ms[..i], ms[i..]);
    assert ms[..i] + ms[i..] == ms;
    CostOfTail(ms[i..]);
  }

  // ---------- flush ----------

  /** A Flush that got past both waits: every message accepted before the call is resolved, and if it
      returned nil, the messages of its own batch are resolved with nil. */
  lemma FlushMeans(c: Config, s: State, n: nat)
    requires Local(c, s) && n < |s.acct.flushes| && s.acct.flushes[n].Returned?
    ensures var fl := s.acct.flushes[n];
            && (forall i: nat :: i < fl.snap ==> i in s.acct.watchers)
            && (fl.batch.Some? ==>
                  forall i :: 0 <= i < |s.hist.home| && s.hist.home[i] == fl.batch ==>
                    i in s.acct.watchers && s.acct.watchers[i] == fl.err)
  {
    hide Conserved, Phases, Cursor, Gated, Typed, InOrder, Housed, Resolved, Balanced;
    FlushAt(s.front, s.acct.flushes, s.hist, s.acct.watchers, n);
  }

  /** A watcher keeps its first outcome, and its outcome is nobody else's. */
  lemma FirstOutcomeWins(watchers: Watchers, w: nat, first: Option<Error>, second: Option<Error>)
    requires w !in watchers
    ensures var once := WatcherResolved(watchers, w, first);
            && w in once && once[w] == first && WatcherResolved(once, w, second) == once
            && forall v :: v != w ==> (v in once <==> v in watchers) && (v in watchers ==> once[v] == watchers[v])
  {}
}
