/** Shutting down: the close cascade never meets a late sender, and a halt is final. */
module Closing {
  import opened Wrappers
  import opened ManifestLog
  import opened ObjStore
  import opened Accumulator
  import opened Pipeline
  import opened JobsInv
  import opened FlowInv
  import opened GatesInv
  import opened MessagesInv
  import opened LedgerInv
  import opened FlushInv
  import opened ProducerInv
  import opened SharedInv
  import opened System
  import opened EveryRun
  import opened Fates
  import Committer

  // ---------- channels ----------

  datatype Channel = AppendCh | PendingCh | EncodedCh | CompletionCh | ResolverCh

  predicate IsClosed(s: State, ch: Channel) {
    match ch
    case AppendCh => s.front.closing
    case PendingCh => s.front.rot.Stopped?
    case EncodedCh => s.gates.encodedClosed
    case CompletionCh => s.gates.completionClosed
    case ResolverCh => s.jobs.com.Done?
  }

  function SendsOn(a: Action): Option<Channel> {
    match a
    case ByCaller(Accept(_)) => Some(AppendCh)
    case ByCaller(HandOver(_)) => Some(AppendCh)
    case ByRotator(Send) => Some(PendingCh)
    case ByWorker(ToUploader(_)) => Some(EncodedCh)
    case ByWorker(ReportEncode(_)) => Some(CompletionCh)
    case ByWorker(ReportUpload(_)) => Some(CompletionCh)
    case ByCommitter(Deliver) => Some(ResolverCh)
    case ByCommitter(Abandon(_)) => Some(ResolverCh)
    case _ => None
  }

  lemma NoSendOnClosed(c: Config, s: State, a: Action)
    requires ValidConfig(c) && Gated(c, s) && Enabled(c, s, a) && SendsOn(a).Some?
    ensures !IsClosed(s, SendsOn(a).value)
  {
    hide EncodeResult, MessageCost, Representable;
  }

  lemma CommitKeepsDone(c: Config, s: State, w: World, a: CommitAction)
    requires CommitCan(s, a)
    ensures !s.jobs.com.Done? && CommitStep(c, s, w, a).front == s.front && CommitStep(c, s, w, a).gates == s.gates
  {
    hide Outcomes, Stored, Unstored, Rewritten, Matches, ItemsOf, Committer.TakeCount, Committer.Taken, Committer.Left;
  }

  lemma StaysClosed(c: Config, s: State, w: World, a: Action, ch: Channel)
    requires Enabled(c, s, a) && IsClosed(s, ch)
    ensures IsClosed(NextState(c, s, w, a), ch)
  {
    hide CommitStep, CommitCan, WorkerStep, WorkerCan, MessageCost, Representable, CostOf, AckFlush, AllResolved,
         FramedCost, FramingOf;
    if a.ByCommitter? {
      CommitKeepsDone(c, s, w, a.committer);
    } else if a.ByWorker? {
      WorkerStaysClosed(c, s, a.worker, ch);
    }
  }

  lemma WorkerStaysClosed(c: Config, s: State, a: WorkerAction, ch: Channel)
    requires WorkerCan(c, s, a) && IsClosed(s, ch)
    ensures IsClosed(WorkerStep(c, s, a), ch)
  {
    hide EncodeWork, Without;
  }

  lemma {:induction false} SilentOnceClosed(cs: Configs, path: Path, base: Log, s: System, more: seq<Event>, r: nat,
                                            ch: Channel, k: nat)
    requires Cluster(cs, path) && Good(cs, path, base, s) && Possible(cs, s, more) && r in s.states
            && IsClosed(s.states[r], ch)
    requires k < |more| && more[k].run == r
    ensures SendsOn(more[k].action) != Some(ch)
    decreases |more|
  {
    hide Cluster, Good, Enabled, NextState, NextWorld, IsClosed, SendsOn;
    if k == 0 {
      GatedOfGood(cs, path, base, s, r);
      if SendsOn(more[0].action).Some? {
        NoSendOnClosed(cs[r], s.states[r], more[0].action);
      }
    } else {
      var e := more[0];
      StepIsGood(cs, path, base, s, e);
      if e.run == r {
        StaysClosed(cs[r], s.states[r], s.world, e.action, ch);
      }
      SilentOnceClosed(cs, path, base, Happened(cs, s, e), more[1..], r, ch, k - 1);
    }
  }

  // ---------- the committer's last receive ----------

  predicate Receives(a: Action) {
    a == ByCommitter(Recv) || a == ByCommitter(RecvClosed) || a == ByCommitter(Gather)
  }

  /** The committer has seen its channel closed. */
  predicate Through(s: State) {
    s.jobs.sawClose || s.jobs.com.Done?
  }

  lemma CommitStaysThrough(c: Config, s: State, w: World, a: CommitAction)
    requires Gated(c, s) && CommitCan(s, a)
    ensures Through(s) ==> !Receives(ByCommitter(a)) && Through(CommitStep(c, s, w, a))
    ensures (a == GatherEnd || a == RecvClosed) && s.gates.completionClosed ==> Through(CommitStep(c, s, w, a))
  {
    hide Outcomes, Stored, Unstored, Stamped, Rewritten, Matches, ItemsOf, Committer.TakeCount, Committer.Taken,
         Committer.Left;
  }

  lemma OthersStayThrough(c: Config, s: State, w: World, a: Action)
    requires Enabled(c, s, a) && !a.ByCommitter?
    ensures NextState(c, s, w, a).jobs.sawClose == s.jobs.sawClose && NextState(c, s, w, a).jobs.com == s.jobs.com
  {
    hide WorkerCan, WorkerStep, MessageCost, CostOf, Representable, FramedCost, FramingOf, AckFlush, AllResolved;
    if a.ByWorker? {
      WorkerStaysThrough(c, s, a.worker);
    }
  }

  lemma WorkerStaysThrough(c: Config, s: State, a: WorkerAction)
    requires WorkerCan(c, s, a)
    ensures WorkerStep(c, s, a).jobs.sawClose == s.jobs.sawClose && WorkerStep(c, s, a).jobs.com == s.jobs.com
  {
    hide EncodeWork, Without;
  }

  lemma StaysThrough(c: Config, s: State, w: World, a: Action)
    requires Gated(c, s) && Enabled(c, s, a) && Through(s)
    ensures !Receives(a) && Through(NextState(c, s, w, a))
  {
    hide Gated, CallerCan, CallerStep, RotatorCan, RotatorStep, WorkerCan, WorkerStep, CommitCan, CommitStep,
         ResolverCan, ResolverStep;
    if a.ByCommitter? {
      CommitStaysThrough(c, s, w, a.committer);
    } else {
      OthersStayThrough(c, s, w, a);
    }
  }

  lemma {:induction false} SilentOnceThrough(cs: Configs, path: Path, base: Log, s: System, more: seq<Event>, r: nat,
                                             k: nat)
    requires Cluster(cs, path) && Good(cs, path, base, s) && Possible(cs, s, more) && r in s.states
            && Through(s.states[r])
    requires k < |more| && more[k].run == r
    ensures !Receives(more[k].action)
    decreases |more|
  {
    hide Cluster, Good, Enabled, NextState, NextWorld, Through, Receives;
    var e := more[0];
    if e.run == r {
      GatedOfGood(cs, path, base, s, r);
      StaysThrough(cs[r], s.states[r], s.world, e.action);
    }
    if k > 0 {
      StepIsGood(cs, path, base, s, e);
      SilentOnceThrough(cs, path, base, Happened(cs, s, e), more[1..], r, k - 1);
    }
  }

  /** Once a gather, or a receive between two, has ended on a closed channel, the committer of that producer never
      receives again, whatever follows: it drains what it has and exits. */
  lemma LastReceive(cs: Configs, path: Path, base: Log, start: System, es: seq<Event>, a: CommitAction,
                    more: seq<Event>, r: nat, k: nat)
    requires Cluster(cs, path) && Start(cs, path, base, start) && Possible(cs, start, es)
            && CanHappen(cs, Final(cs, start, es), Event(r, ByCommitter(a)))
    requires (a == GatherEnd || a == RecvClosed) && Final(cs, start, es).states[r].gates.completionClosed
    requires Possible(cs, Happened(cs, Final(cs, start, es), Event(r, ByCommitter(a))), more)
    requires k < |more| && more[k].run == r
    ensures !Receives(more[k].action)
  {
    hide Cluster, Start, Possible, Final, Good, CommitCan, CommitStep, Receives, Through;
    var now, e := Final(cs, start, es), Event(r, ByCommitter(a));
    ReachableIsGood(cs, path, base, start, es);
    GatedOfGood(cs, path, base, now, r);
    CommitStaysThrough(cs[r], now.states[r], now.world, a);
    StepIsGood(cs, path, base, now, e);
    SilentOnceThrough(cs, path, base, Happened(cs, now, e), more, r, k);
  }

  lemma GatedOfGood(cs: Configs, path: Path, base: Log, s: System, r: nat)
    requires Cluster(cs, path) && Good(cs, path, base, s) && r in s.states
    ensures r in cs && ValidConfig(cs[r]) && Gated(cs[r], s.states[r]) && Phases(s.states[r].jobs)
            && Local(cs[r], s.states[r])
  {
    hide ValidConfig, Gated, Phases, Conserved, Cursor, Typed, InOrder, Housed, Resolved, Balanced, Flushing, Shared,
         Chained, Apart;
  }

  /** For any number of encoders and uploaders, in every run: once a channel is closed, no goroutine of that
      producer sends on it again. */
  lemma NoSendAfterClose(cs: Configs, path: Path, base: Log, start: System, es: seq<Event>, more: seq<Event>, r: nat,
                         ch: Channel, k: nat)
    requires Cluster(cs, path) && Start(cs, path, base, start) && Possible(cs, start, es)
            && Possible(cs, Final(cs, start, es), more)
    requires r in Final(cs, start, es).states && IsClosed(Final(cs, start, es).states[r], ch)
    requires k < |more| && more[k].run == r
    ensures SendsOn(more[k].action) != Some(ch)
  {
    hide Cluster, Start, Possible, Final, Good, IsClosed, SendsOn;
    ReachableIsGood(cs, path, base, start, es);
    SilentOnceClosed(cs, path, base, Final(cs, start, es), more, r, ch, k);
  }

  // ---------- halt ----------

  /** Only a manifest write whose last attempt failed halts the producer: not a failed encode or upload,
      and not a conflict. */
  lemma WhatHalts(c: Config, s: State, w: World, a: Action)
    requires Enabled(c, s, a) && !s.jobs.halted && NextState(c, s, w, a).jobs.halted
    ensures a.ByCommitter? && (a.committer.CasRead? || a.committer.CasWrite?)
    ensures a.committer.CasWrite? ==> a.committer.answer != Truthful && s.jobs.com.attempt + 1 >= c.manifestAttempts
    ensures a.committer.CasRead? ==>
              (a.committer.fault || Rewritten(DataAt(w.objects, c.manifestPath),
                                              ItemsOf(c, Stored(s.jobs.com.taken))).Err?)
              && s.jobs.com.attempt + 1 >= c.manifestAttempts
  {
    hide Outcomes, Stored, Unstored, Rewritten, Matches, ItemsOf, Committer.TakeCount, Committer.Taken, Committer.Left,
         EncodeWork, MessageCost, Representable, CostOf, AckFlush, AllResolved, FramedCost, FramingOf;
  }

  predicate TouchesManifest(a: Action) {
    a.ByCommitter? && (a.committer.CasRead? || a.committer.CasWrite?)
  }

  /** What the outcome of a batch may be, for ordinals the committer had not taken when it halted. */
  ghost predicate Refusing(taken: set<nat>, s: State) {
    && s.jobs.halted
    && (forall x :: 0 <= x < |Hand(s.jobs.com)| && Hand(s.jobs.com)[x].batch.ordinal !in taken ==>
          Hand(s.jobs.com)[x].work == Finished(Some(ProducerHalted)))
    && (forall x :: 0 <= x < |InResolver(s.jobs.res)| && InResolver(s.jobs.res)[x].batch.ordinal !in taken ==>
          InResolver(s.jobs.res)[x].work == Finished(Some(ProducerHalted)))
    && (forall i :: i in s.acct.watchers && i < |s.hist.home| && s.hist.home[i].Some? ==>
          s.hist.home[i].value in taken || s.acct.watchers[i] == Some(ProducerHalted))
  }

  /** Ordinals the committer has taken out of `ready`. */
  function TakenOut(s: State): set<nat> {
    s.hist.released + set o | o in Downstream(s.jobs)
  }

  lemma HaltRefuses(c: Config, s: State)
    requires Local(c, s) && s.jobs.halted
    ensures Refusing(TakenOut(s), s)
  {
    hide Conserved, Phases, Cursor, Gated, Typed, InOrder, Balanced, Flushing, Stretch, Hand;
    var j := s.jobs;
    forall x | 0 <= x < |Hand(j.com)|
      ensures Hand(j.com)[x].batch.ordinal in Downstream(j)
    {
      assert Ordinals(Hand(j.com))[x] == Hand(j.com)[x].batch.ordinal;
    }
    forall x | 0 <= x < |InResolver(j.res)|
      ensures InResolver(j.res)[x].batch.ordinal in Downstream(j)
    {
      assert Ordinals(InResolver(j.res))[x] == InResolver(j.res)[x].batch.ordinal;
    }
    forall i | i in s.acct.watchers && i < |s.hist.home| && s.hist.home[i].Some?
      ensures s.hist.home[i].value in TakenOut(s)
    {
      assert Closed(s.hist, j.res, i);
      if s.hist.home[i].value !in s.hist.released {
        ResolverHolds(c, s, i);
      }
    }
  }

  lemma ResolverHolds(c: Config, s: State, i: nat)
    requires Local(c, s) && i < |s.hist.home| && s.hist.home[i].Some? && s.hist.home[i].value < |s.hist.emitted|
    requires Reached(s.jobs.res, s.hist.emitted[s.hist.home[i].value], i)
    ensures !s.jobs.res.Idle? && s.jobs.res.job.batch.ordinal == s.hist.home[i].value
  {
    hide Phases, Cursor, Gated, Typed, InOrder, Housed, Balanced, Flushing, Total, Unaltered, Resolved;
  }

  /** The front of the pipeline settles nothing but dropped messages. */
  lemma FrontRefuses(c: Config, s: State, s': State, taken: set<nat>)
    requires Local(c, s) && Refusing(taken, s)
    requires s'.jobs == s.jobs.(sending := s'.jobs.sending, enc := s'.jobs.enc)
    requires |s.hist.home| <= |s'.hist.home| && s'.hist.home[..|s.hist.home|] == s.hist.home
    requires forall i :: i in s'.acct.watchers && i < |s'.hist.home| && s'.hist.home[i].Some? ==>
               i in s.acct.watchers && s'.acct.watchers[i] == s.acct.watchers[i]
    ensures Refusing(taken, s')
  {
    hide Conserved, Phases, Cursor, Gated, Typed, InOrder, Balanced, Flushing, Housed, Hand, InResolver, Resolved;
    WatchersAreHoused(s.hist, s.acct.watchers, s.jobs.res);
    forall i | i in s.acct.watchers
      ensures s'.hist.home[i] == s.hist.home[i]
    {
      assert s'.hist.home[..|s.hist.home|][i] == s'.hist.home[i];
    }
  }

  lemma RotatorRefuses(c: Config, s: State, a: RotatorAction, taken: set<nat>)
    requires Local(c, s) && RotatorCan(c, s, a) && Refusing(taken, s)
    ensures Refusing(taken, RotatorStep(c, s, a))
  {
    hide Local, Refusing, AckFlush, CostOf, FramedCost, FramingOf, Representable, AllResolved;
    if a == Drop {
      forall i: nat
        ensures var s' := DoDrop(s);
                i in s'.acct.watchers && i < |s'.hist.home| && s'.hist.home[i].Some? ==>
                  i in s.acct.watchers && s'.acct.watchers[i] == s.acct.watchers[i]
      {
        DropTells(c, s, i);
      }
    }
    FrontRefuses(c, s, RotatorStep(c, s, a), taken);
  }

  lemma CommitRefuses(c: Config, s: State, w: World, a: CommitAction, taken: set<nat>)
    requires Phases(s.jobs) && CommitCan(s, a) && Refusing(taken, s)
    ensures Refusing(taken, CommitStep(c, s, w, a))
  {
    hide Outcomes, Stored, Unstored, DoGroup, DoCasRead, DoCasWrite, DoCasRetry, DoCasAbort;
    var com, s' := s.jobs.com, CommitStep(c, s, w, a);
    assert s'.acct == s.acct && s'.hist == s.hist;
    if a.Deliver? {
      assert Hand(com) == com.out && com.out[0] == Hand(com)[0];
      assert forall x :: 0 <= x < |com.out| - 1 ==> com.out[1..][x] == Hand(com)[x + 1];
    }
  }

  lemma ResolverRefuses(c: Config, s: State, a: ResolverAction, taken: set<nat>)
    requires Local(c, s) && ResolverCan(s, a) && Refusing(taken, s)
    ensures Refusing(taken, ResolverStep(s, a))
  {
    hide Phases, Cursor, Gated, Typed, Housed, Resolved, Balanced, Flushing, AckFlush, Hand, Total, Unaltered, InOrder;
    if a == Resolve {
      ResolvedHome(s);
      assert InResolver(s.jobs.res)[0] == s.jobs.res.job;
    }
    assert !s.jobs.res.Idle? ==> InResolver(s.jobs.res)[0] == s.jobs.res.job;
  }

  lemma ResolvedHome(s: State)
    requires Conserved(s.jobs, s.hist) && InOrder(s.front, s.hist) && Housed(s.hist)
            && Resolved(s.hist, s.acct.watchers, s.jobs.res)
    requires ResolverCan(s, Resolve)
    ensures var r := s.jobs.res; var i := r.job.batch.messages[r.done].watcher;
            i < |s.hist.home| && s.hist.home[i] == Some(r.job.batch.ordinal)
  {
    hide Resolved, Total, Unaltered;
    ReleasingIsLive(s.jobs, s.hist);
    NotReleased(s.jobs, s.hist);
    ResolveIsFirst(s.hist, s.acct.watchers, s.jobs.res.job, s.jobs.res.done);
  }

  lemma CallerRefuses(c: Config, s: State, a: CallerAction, taken: set<nat>)
    requires CallerCan(c, s, a) && Refusing(taken, s)
    ensures Refusing(taken, CallerStep(c, s, a))
  {
    hide MessageCost, CostOf, Hand, InResolver;
  }

  lemma WorkerRefuses(c: Config, s: State, a: WorkerAction, taken: set<nat>)
    requires WorkerCan(c, s, a) && Refusing(taken, s)
    ensures Refusing(taken, WorkerStep(c, s, a))
  {
    hide EncodeWork, Hand, InResolver;
  }

  lemma StepRefuses(c: Config, s: State, w: World, a: Action, taken: set<nat>)
    requires Local(c, s) && Enabled(c, s, a) && Refusing(taken, s)
    ensures Refusing(taken, NextState(c, s, w, a))
  {
    hide Conserved, Phases, Cursor, Gated, Typed, InOrder, Balanced, Flushing, Housed, Resolved, Refusing, CallerStep,
         RotatorStep, WorkerStep, CommitStep, ResolverStep, CallerCan, RotatorCan, WorkerCan, CommitCan, ResolverCan;
    match a
    case ByCaller(x) => CallerRefuses(c, s, x, taken);
    case ByRotator(x) => RotatorRefuses(c, s, x, taken);
    case ByWorker(x) => WorkerRefuses(c, s, x, taken);
    case ByCommitter(x) => CommitRefuses(c, s, w, x, taken);
    case ByResolver(x) => ResolverRefuses(c, s, x, taken);
  }

  lemma {:induction false} RunRefuses(cs: Configs, path: Path, base: Log, s: System, more: seq<Event>, r: nat,
                                      taken: set<nat>)
    requires Cluster(cs, path) && Good(cs, path, base, s) && Possible(cs, s, more) && r in s.states
            && Refusing(taken, s.states[r])
    ensures r in Final(cs, s, more).states && Refusing(taken, Final(cs, s, more).states[r])
    ensures forall k :: 0 <= k < |more| && more[k].run == r ==> !TouchesManifest(more[k].action)
    decreases |more|
  {
    hide Cluster, Good, Enabled, NextState, NextWorld, Refusing, TouchesManifest, Local, Gated, Phases, ValidConfig;
    if more == [] {
    } else {
      var e := more[0];
      StepIsGood(cs, path, base, s, e);
      if e.run == r {
        GatedOfGood(cs, path, base, s, r);
        StepRefuses(cs[r], s.states[r], s.world, e.action, taken);
        HaltedIsOutOfCas(cs[r], s.states[r], e.action, taken);
      }
      RunRefuses(cs, path, base, Happened(cs, s, e), more[1..], r, taken);
    }
  }

  lemma HaltedIsOutOfCas(c: Config, s: State, a: Action, taken: set<nat>)
    requires Refusing(taken, s) && Phases(s.jobs) && Enabled(c, s, a)
    ensures !TouchesManifest(a)
  {
    hide CallerCan, RotatorCan, WorkerCan, ResolverCan, Stored;
  }

  /** A halt is absorbing. In every continuation of every run in which producer `r` has halted it stays
      halted and never reads or writes the manifest again, and every message whose batch the committer
      had not taken by then can only be resolved with the halt error, or with the shutdown error if it
      was never sealed into a batch. */
  lemma HaltIsFinal(cs: Configs, path: Path, base: Log, start: System, es: seq<Event>, more: seq<Event>, r: nat, i: nat)
    requires Cluster(cs, path) && Start(cs, path, base, start) && Possible(cs, start, es)
            && Possible(cs, Final(cs, start, es), more)
    requires r in cs && r in Final(cs, start, es).states && Final(cs, start, es).states[r].jobs.halted
    ensures forall k :: 0 <= k < |more| && more[k].run == r ==> !TouchesManifest(more[k].action)
    ensures var p, later := Final(cs, start, es).states[r], Final(cs, Final(cs, start, es), more);
            && r in later.states && later.states[r].jobs.halted
            && var q := later.states[r];
               i in q.acct.watchers ==>
                 && i < |q.hist.home|
                 && match q.hist.home[i]
                    case None => q.acct.watchers[i] == Some(Shutdown)
                    case Some(o) => o in TakenOut(p) || q.acct.watchers[i] == Some(ProducerHalted)
  {
    hide Cluster, Start, Possible, Final, Good, TakenOut, TouchesManifest, Conserved, Phases, Cursor, Gated, Typed,
         InOrder, Balanced, Flushing, Housed, Stretch, Shared;
    var now := Final(cs, start, es);
    ReachableIsGood(cs, path, base, start, es);
    LocalInEveryRun(cs, path, base, start, es, r);
    HaltRefuses(cs[r], now.states[r]);
    RunRefuses(cs, path, base, now, more, r, TakenOut(now.states[r]));
    RunIsGood(cs, path, base, now, more);
    GatedOfGood(cs, path, base, Final(cs, now, more), r);
  }
}
