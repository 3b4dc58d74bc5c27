/** Durable outcomes are handed out in ordinal order: when a message is told nil, no message told nil before it is in
    a later batch. */
module Order {
  import opened Wrappers
  import opened ManifestLog
  import opened ObjStore
  import opened Accumulator
  import opened Pipeline
  import opened JobsInv
  import opened FlowInv
  import opened GatesInv
  import opened MessagesInv
  import opened LedgerInv
  import opened FlushInv
  import opened ProducerInv
  import opened SharedInv
  import opened System
  import opened EveryRun
  import opened Turns
  import Committer
  import Fates

  // ---------- the invariant ----------

  /** All nil outcomes so far are of batches below `bound`. */
  predicate NilBelow(h: History, watchers: Watchers, bound: nat) {
    forall i :: i in watchers && watchers[i] == None && i < |h.home| && h.home[i].Some? ==> h.home[i].value < bound
  }

  predicate IsNil(j: Job) {
    j.work == Finished(None)
  }

  /** So is the batch being resolved, if it is told nil. */
  predicate ResolvingBelow(res: Resolver, bound: nat) {
    !res.Idle? && IsNil(res.job) ==> res.job.batch.ordinal < bound
  }

  predicate AllBelow(s: State, bound: nat) {
    NilBelow(s.hist, s.acct.watchers, bound) && ResolvingBelow(s.jobs.res, bound)
  }

  /** Of the batches waiting to be resolved, those told nil come in order and behind all before them. */
  predicate OutInOrder(s: State, out: seq<Job>) {
    && (forall x :: 0 <= x < |out| && IsNil(out[x]) ==>
          out[x].batch.ordinal < s.jobs.next && AllBelow(s, out[x].batch.ordinal))
    && (forall x, y :: 0 <= x < y < |out| && IsNil(out[x]) && IsNil(out[y]) ==>
          out[x].batch.ordinal < out[y].batch.ordinal)
  }

  predicate Ordered(s: State) {
    && AllBelow(s, s.jobs.next)
    && (s.jobs.res.Resolving? && IsNil(s.jobs.res.job) ==>
          NilBelow(s.hist, s.acct.watchers, s.jobs.res.job.batch.ordinal + 1))
    && (InCas(s.jobs.com) ==> |s.jobs.com.taken| <= s.jobs.next && AllBelow(s, s.jobs.next - |s.jobs.com.taken|))
    && (s.jobs.com.Delivering? ==> OutInOrder(s, s.jobs.com.out))
  }

  // ---------- steps ----------

  /** Nil outcomes, resolver and committer as before. */
  lemma OrderFrame(s: State, s': State)
    requires Ordered(s) && s'.jobs.res == s.jobs.res && s'.jobs.com == s.jobs.com && s'.jobs.next == s.jobs.next
    requires forall i :: i in s'.acct.watchers && s'.acct.watchers[i] == None && i < |s'.hist.home|
                         && s'.hist.home[i].Some? ==>
               i in s.acct.watchers && s.acct.watchers[i] == None && i < |s.hist.home|
               && s.hist.home[i] == s'.hist.home[i]
    ensures Ordered(s')
  {
    hide OutInOrder, InCas;
    if s.jobs.com.Delivering? {
      OutFrame(s, s', s.jobs.com.out);
    }
  }

  lemma OutFrame(s: State, s': State, out: seq<Job>)
    requires OutInOrder(s, out) && s'.jobs.res == s.jobs.res && s'.jobs.next == s.jobs.next
    requires forall i :: i in s'.acct.watchers && s'.acct.watchers[i] == None && i < |s'.hist.home|
                         && s'.hist.home[i].Some? ==>
               i in s.acct.watchers && s.acct.watchers[i] == None && i < |s.hist.home|
               && s.hist.home[i] == s'.hist.home[i]
    ensures OutInOrder(s', out)
  {}

  lemma NoNilInOrder(s: State, out: seq<Job>)
    requires forall x :: 0 <= x < |out| ==> !IsNil(out[x])
    ensures OutInOrder(s, out)
  {}

  lemma UnstoredIsNotNil(taken: seq<Job>)
    requires Rising(taken)
    ensures forall x :: 0 <= x < |Unstored(taken)| ==> !IsNil(Unstored(taken)[x])
  {
    hide Stored, Unstored;
    SplitRises(taken);
  }

  lemma InBounds(taken: seq<Job>, j: Job, lo: nat, hi: nat)
    requires j in taken && forall i :: 0 <= i < |taken| ==> lo <= taken[i].batch.ordinal < hi
    ensures lo <= j.batch.ordinal < hi
  {}

  /** The outcomes of a committed group: nil in ordinal order, at the group's own ordinals. */
  lemma CommittedInOrder(s: State, taken: seq<Job>, first: nat)
    requires Rising(taken) && AllBelow(s, first)
    requires forall i :: 0 <= i < |taken| ==> first <= taken[i].batch.ordinal < s.jobs.next
    ensures OutInOrder(s, Outcomes(taken, None))
  {
    hide Stored, Unstored, AllBelow;
    SplitRises(taken);
    var stored, failed := Stored(taken), Unstored(taken);
    var out := Outcomes(taken, None);
    forall x | 0 <= x < |out|
      ensures IsNil(out[x]) ==>
                x < |stored| && out[x].batch == stored[x].batch && first <= out[x].batch.ordinal < s.jobs.next
    {
      if x < |stored| {
        assert stored[x] in taken;
        InBounds(taken, stored[x], first, s.jobs.next);
      } else {
        assert out[x] == failed[x - |stored|];
      }
    }
    forall x | 0 <= x < |out| && IsNil(out[x])
      ensures AllBelow(s, out[x].batch.ordinal)
    {
      BelowGrows(s, first, out[x].batch.ordinal);
    }
  }

  lemma BelowGrows(s: State, a: nat, b: nat)
    requires AllBelow(s, a) && a <= b
    ensures AllBelow(s, b)
  {}

  lemma FailedInOrder(s: State, taken: seq<Job>, err: Error)
    requires Rising(taken)
    ensures OutInOrder(s, Outcomes(taken, Some(err)))
  {
    hide Stored, Unstored;
    UnstoredIsNotNil(taken);
    NoNilInOrder(s, Outcomes(taken, Some(err)));
  }

  lemma TakenRises(j: Jobs)
    requires Phases(j) && InCas(j.com)
    ensures Rising(j.com.taken) && |j.com.taken| <= j.next
    ensures forall i :: 0 <= i < |j.com.taken| ==> j.next - |j.com.taken| <= j.com.taken[i].batch.ordinal < j.next
  {
    hide Stored;
  }

  lemma CasKeepsOrder(c: Config, s: State, w: World, a: CommitAction)
    requires Ordered(s) && Phases(s.jobs) && CommitCan(s, a)
    requires a.CasRead? || a.CasWrite? || a.CasRetry? || a.CasAbort?
    ensures Ordered(CommitStep(c, s, w, a))
  {
    hide Rewritten, ItemsOf, Matches, Outcomes, Stored, NilBelow, ResolvingBelow, Phases, OutInOrder, Rising;
    var s' := CommitStep(c, s, w, a);
    var taken := s.jobs.com.taken;
    TakenRises(s.jobs);
    CommittedInOrder(s', taken, s.jobs.next - |taken|);
    FailedInOrder(s', taken, ProducerHalted);
    FailedInOrder(s', taken, Shutdown);
  }

  lemma GroupKeepsOrder(c: Config, s: State, w: World)
    requires Ordered(s) && Typed(c, s.jobs) && CommitCan(s, Group)
    requires forall o :: o in s.jobs.ready ==> s.jobs.ready[o].batch.ordinal == o
    ensures Ordered(CommitStep(c, s, w, Group))
  {
    hide NilBelow, ResolvingBelow, Typed, OutInOrder, Stored, Unstored, Committer.TakeCount, Committer.Left,
         Rising;
    var s' := CommitStep(c, s, w, Group);
    var k := Committer.TakeCount(s.jobs.ready, s.jobs.next, c.groupSize);
    if k > 0 {
      var taken := Committer.Taken(s.jobs.ready, s.jobs.next, k);
      BelowGrows(s', s.jobs.next, s.jobs.next + k);
      ReadyRises(s.jobs.ready, s.jobs.next, k);
      UnstoredIsNotNil(taken);
      NoNilInOrder(s', Unstored(taken));
    }
  }

  lemma ReadyRises(ready: map<nat, Job>, next: nat, k: nat)
    requires forall o :: o in ready ==> ready[o].batch.ordinal == o
    requires forall o :: next <= o < next + k ==> o in ready
    ensures Rising(Committer.Taken(ready, next, k))
  {}

  lemma DeliverKeepsOrder(s: State)
    requires Ordered(s) && s.jobs.com.Delivering? && s.jobs.com.out != [] && s.jobs.res.Idle?
    ensures Ordered(DoDeliver(s))
  {
    hide NilBelow;
    var s', out := DoDeliver(s), s.jobs.com.out;
    if IsNil(out[0]) {
      NilGrows(s.hist, s.acct.watchers, out[0].batch.ordinal, out[0].batch.ordinal + 1);
    }
    forall x | 0 <= x < |out[1..]| && IsNil(out[1..][x])
      ensures out[1..][x].batch.ordinal < s'.jobs.next && AllBelow(s', out[1..][x].batch.ordinal)
    {
      assert out[1..][x] == out[x + 1];
    }
    forall x, y | 0 <= x < y < |out[1..]| && IsNil(out[1..][x]) && IsNil(out[1..][y])
      ensures out[1..][x].batch.ordinal < out[1..][y].batch.ordinal
    {
      assert out[1..][x] == out[x + 1] && out[1..][y] == out[y + 1];
    }
  }

  lemma NilGrows(h: History, watchers: Watchers, a: nat, b: nat)
    requires NilBelow(h, watchers, a) && a <= b
    ensures NilBelow(h, watchers, b)
  {}

  /** The committer moves on without an outcome in hand, or with failed ones only. */
  lemma CommitFrame(s: State, s': State)
    requires Ordered(s) && s'.hist == s.hist && s'.acct == s.acct && s'.jobs.next == s.jobs.next
    requires s'.jobs.res == s.jobs.res || (s'.jobs.res.Resolving? && !IsNil(s'.jobs.res.job))
    requires !InCas(s'.jobs.com)
    requires s'.jobs.com.Delivering? ==> forall x :: 0 <= x < |s'.jobs.com.out| ==> !IsNil(s'.jobs.com.out[x])
    ensures Ordered(s')
  {
    hide NilBelow;
    if s'.jobs.com.Delivering? {
      NoNilInOrder(s', s'.jobs.com.out);
    }
  }

  /** Receiving, gathering and moving on. */
  lemma MoveOnKeepsOrder(c: Config, s: State, w: World, a: CommitAction)
    requires Ordered(s) && CommitCan(s, a)
    requires a.Recv? || a.RecvClosed? || a.Gather? || a.GatherEnd? || a.Delivered? || a.Abandon? || a.Abandoned?
    ensures Ordered(CommitStep(c, s, w, a))
  {
    hide Ordered;
    CommitFrame(s, CommitStep(c, s, w, a));
  }

  lemma ReadyOrdinals(j: Jobs, h: History)
    requires Conserved(j, h)
    ensures forall o :: o in j.ready ==> j.ready[o].batch.ordinal == o
  {
    hide Total, Live, Below, Hand, InResolver;
  }

  lemma CommitterKeepsOrder(c: Config, s: State, w: World, a: CommitAction)
    requires Conserved(s.jobs, s.hist) && Phases(s.jobs) && Typed(c, s.jobs) && Ordered(s) && CommitCan(s, a)
    ensures Ordered(CommitStep(c, s, w, a))
  {
    hide Conserved, Phases, Typed, Ordered, CommitStep;
    if a.CasRead? || a.CasWrite? || a.CasRetry? || a.CasAbort? {
      CasKeepsOrder(c, s, w, a);
    } else if a.Group? {
      ReadyOrdinals(s.jobs, s.hist);
      GroupKeepsOrder(c, s, w);
    } else if a.Deliver? {
      DeliverKeepsOrder(s);
      DeliverIsStep(c, s, w);
    } else {
      MoveOnKeepsOrder(c, s, w, a);
    }
  }

  lemma DeliverIsStep(c: Config, s: State, w: World)
    requires CommitCan(s, Deliver)
    ensures CommitStep(c, s, w, Deliver) == DoDeliver(s)
  {}

  /** The watcher about to be resolved is of the batch in hand. */
  predicate InHand(s: State)
    requires ResolverCan(s, Resolve)
  {
    var i := s.jobs.res.job.batch.messages[s.jobs.res.done].watcher;
    s.jobs.res.job.work.Finished? && i < |s.hist.home| && s.hist.home[i] == Some(s.jobs.res.job.batch.ordinal)
  }

  lemma ResolveKeepsOrder(s: State)
    requires Ordered(s) && ResolverCan(s, Resolve) && InHand(s)
    ensures Ordered(DoResolve(s))
  {
    hide InCas;
  }

  lemma ResolverKeepsOrder(c: Config, s: State, a: ResolverAction)
    requires Local(c, s) && Ordered(s) && ResolverCan(s, a)
    ensures Ordered(ResolverStep(s, a))
  {
    hide Local, Ordered, AckFlush;
    if a == Resolve {
      HandIsHoused(c, s);
      ResolveKeepsOrder(s);
    } else {
      LetGoKeepsOrder(s, a);
    }
  }

  lemma LetGoKeepsOrder(s: State, a: ResolverAction)
    requires Ordered(s) && ResolverCan(s, a) && a != Resolve
    ensures Ordered(ResolverStep(s, a))
  {
    hide InCas, AckFlush;
  }

  lemma HandIsHoused(c: Config, s: State)
    requires Local(c, s) && ResolverCan(s, Resolve)
    ensures InHand(s)
  {
    hide Phases, Cursor, Gated, Balanced, Flushing, Total, Stretch, Hand;
    assert InResolver(s.jobs.res)[0] == s.jobs.res.job;
    OrdinalsMatch(s.jobs, s.hist);
    ReleasingIsLive(s.jobs, s.hist);
    ResolveIsFirst(s.hist, s.acct.watchers, s.jobs.res.job, s.jobs.res.done);
  }

  lemma RotatorKeepsOrder(c: Config, s: State, a: RotatorAction)
    requires Local(c, s) && Ordered(s) && RotatorCan(c, s, a)
    ensures Ordered(RotatorStep(c, s, a))
  {
    hide Local, Ordered, CostOf, FramedCost, FramingOf, Representable, AllResolved, AckFlush;
    var s' := RotatorStep(c, s, a);
    WatchersHoused(c, s);
    if a.Drop? {
      forall i
        ensures i in s'.acct.watchers && i < |s'.hist.home| && s'.hist.home[i].Some? ==>
                  i in s.acct.watchers && s'.acct.watchers[i] == s.acct.watchers[i]
      {
        if i >= 0 {
          Fates.DropTells(c, s, i);
        }
      }
    }
    OrderFrame(s, s');
  }

  lemma WatchersHoused(c: Config, s: State)
    requires Local(c, s)
    ensures forall i :: i in s.acct.watchers ==> i < |s.hist.home|
  {
    hide Conserved, Phases, Cursor, Gated, Typed, InOrder, Balanced, Flushing, Housed;
  }

  lemma CallerKeepsOrder(c: Config, s: State, a: CallerAction)
    requires Ordered(s) && CallerCan(c, s, a)
    ensures Ordered(CallerStep(c, s, a))
  {
    hide Ordered, MessageCost, CostOf;
    OrderFrame(s, CallerStep(c, s, a));
  }

  lemma WorkerKeepsOrder(c: Config, s: State, a: WorkerAction)
    requires Ordered(s) && WorkerCan(c, s, a)
    ensures Ordered(WorkerStep(c, s, a))
  {
    hide Ordered, EncodeWork, Without;
    OrderFrame(s, WorkerStep(c, s, a));
  }

  lemma StepKeepsOrder(c: Config, s: State, w: World, a: Action)
    requires Local(c, s) && Ordered(s) && Enabled(c, s, a)
    ensures Ordered(NextState(c, s, w, a))
  {
    hide Ordered, Conserved, Phases, Cursor, Gated, Typed, InOrder, Housed, Resolved, Balanced, Flushing, CallerCan,
         CallerStep, RotatorCan, RotatorStep, WorkerCan, WorkerStep, CommitCan, CommitStep, ResolverCan, ResolverStep;
    match a
    case ByCaller(x) => CallerKeepsOrder(c, s, x);
    case ByRotator(x) => RotatorKeepsOrder(c, s, x);
    case ByWorker(x) => WorkerKeepsOrder(c, s, x);
    case ByCommitter(x) => CommitterKeepsOrder(c, s, w, x);
    case ByResolver(x) => ResolverKeepsOrder(c, s, x);
  }

  // ---------- runs ----------

  lemma {:induction false} RunKeepsOrder(cs: Configs, path: Path, base: Log, s: System, es: seq<Event>, r: nat)
    requires Cluster(cs, path) && Good(cs, path, base, s) && Possible(cs, s, es) && r in cs && r in s.states
            && Ordered(s.states[r])
    ensures r in Final(cs, s, es).states && Ordered(Final(cs, s, es).states[r])
    decreases |es|
  {
    hide Cluster, Good, Enabled, NextState, NextWorld, Ordered, Local;
    if es == [] {
    } else {
      var e := es[0];
      StepIsGood(cs, path, base, s, e);
      LocalOf(cs, path, base, s, r);
      if e.run == r {
        StepKeepsOrder(cs[r], s.states[r], s.world, e.action);
      }
      RunKeepsOrder(cs, path, base, Happened(cs, s, e), es[1..], r);
    }
  }

  lemma StartsOrdered(cs: Configs, path: Path, base: Log, start: System, r: nat)
    requires Start(cs, path, base, start) && r in cs
    ensures r in start.states && Ordered(start.states[r])
  {}

  /** In every run: when the resolver is about to tell a message nil, every message told nil before is in the same
      batch or an earlier one. */
  lemma NilInOrder(cs: Configs, path: Path, base: Log, start: System, es: seq<Event>, r: nat, i: nat)
    requires Cluster(cs, path) && Start(cs, path, base, start) && Possible(cs, start, es) && r in cs
            && r in Final(cs, start, es).states
    requires var p := Final(cs, start, es).states[r];
             && Enabled(cs[r], p, ByResolver(Resolve)) && JobError(p.jobs.res.job) == None
             && i in p.acct.watchers && p.acct.watchers[i] == None
    ensures var p := Final(cs, start, es).states[r];
            && i < |p.hist.home| && p.hist.home[i].Some? && p.hist.home[i].value <= p.jobs.res.job.batch.ordinal
  {
    hide Cluster, Start, Possible, Final, Good, Local, Shared, OutInOrder, InCas, AllBelow;
    StartIsGood(cs, path, base, start);
    StartsOrdered(cs, path, base, start, r);
    RunKeepsOrder(cs, path, base, start, es, r);
    LocalInEveryRun(cs, path, base, start, es, r);
    var p := Final(cs, start, es).states[r];
    HandIsHoused(cs[r], p);
    NilHasHome(cs[r], p, i);
  }

  lemma NilHasHome(c: Config, s: State, i: nat)
    requires Local(c, s) && i in s.acct.watchers && s.acct.watchers[i] == None
    ensures i < |s.hist.home| && s.hist.home[i].Some?
  {
    hide Conserved, Phases, Cursor, Gated, Typed, InOrder, Balanced, Flushing, Housed, Closed;
  }
}
