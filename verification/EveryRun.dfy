/** The promises to callers, over whole runs of the system. */
module EveryRun {
  import opened Wrappers
  import opened ManifestLog
  import opened ObjStore
  import opened Accumulator
  import opened Pipeline
  import opened JobsInv
  import opened ProducerInv
  import opened SharedInv
  import opened System
  import opened Promises
  import LedgerInv
  import Committer
  import BlocksInv

  /** In every run every producer is in a state of its invariant. */
  lemma LocalInEveryRun(cs: Configs, path: Path, base: Log, start: System, es: seq<Event>, r: nat)
    requires Cluster(cs, path) && Start(cs, path, base, start) && Possible(cs, start, es) && r in cs
    ensures r in Final(cs, start, es).states && ValidConfig(cs[r])
    ensures Local(cs[r], Final(cs, start, es).states[r])
            && Shared(cs[r], Final(cs, start, es).states[r], Final(cs, start, es).world)
  {
    hide Start, Possible, Final, Local, Shared, Chained, Apart, ValidConfig;
    ReachableIsGood(cs, path, base, start, es);
  }

  // ---------- exactly once ----------

  /** How often events of run `r` settle watcher `i`. */
  function Times(cs: Configs, s: System, es: seq<Event>, r: nat, i: nat): nat
    requires Possible(cs, s, es)
    decreases |es|
  {
    if es == [] then 0
    else
      (if es[0].run == r && i in Settles(s.states[r], es[0].action) then 1 else 0)
      + Times(cs, Happened(cs, s, es[0]), es[1..], r, i)
  }

  lemma {:induction false} AllResolvedDomain(watchers: Watchers, ms: seq<Message>, err: Option<Error>, i: nat)
    ensures i in AllResolved(watchers, ms, err) <==> i in watchers || i in WatchersOf(ms)
  {
    if ms == [] {
    } else {
      AllResolvedDomain(watchers, ms[..|ms| - 1], err, i);
    }
  }

  lemma CommitKeepsWatchers(c: Config, s: State, w: World, a: CommitAction)
    requires CommitCan(s, a)
    ensures CommitStep(c, s, w, a).acct == s.acct
  {
    hide Outcomes, Stored, Unstored, Rewritten, Matches, ItemsOf, Committer.TakeCount, Committer.Taken, Committer.Left;
  }

  /** The resolved watchers change by exactly those the action settles. */
  lemma StepSettles(c: Config, s: State, w: World, a: Action, i: nat)
    requires Enabled(c, s, a)
    ensures i in NextState(c, s, w, a).acct.watchers <==> i in s.acct.watchers || i in Settles(s, a)
  {
    hide CommitStep, CommitCan, AllResolved, WatchersOf, AckFlush, CostOf, MessageCost, FramedCost, FramingOf,
         Representable, EncodeWork;
    AllResolvedDomain(s.acct.watchers, s.front.acc, Some(Shutdown), i);
    if a.ByCommitter? {
      CommitKeepsWatchers(c, s, w, a.committer);
    }
  }

  lemma {:induction false} TimesCount(cs: Configs, path: Path, base: Log, s: System, es: seq<Event>, r: nat, i: nat)
    requires Cluster(cs, path) && Good(cs, path, base, s) && Possible(cs, s, es) && r in cs
    ensures r in s.states && r in Final(cs, s, es).states
    ensures (if i in s.states[r].acct.watchers then 1 else 0) + Times(cs, s, es, r, i)
         == (if i in Final(cs, s, es).states[r].acct.watchers then 1 else 0)
    decreases |es|
  {
    hide Cluster, Local, Shared, Chained, Enabled, NextState, NextWorld, Settles, BlocksInv.Versioned;
    if es == [] {
    } else {
      var e := es[0];
      StepIsGood(cs, path, base, s, e);
      TimesCount(cs, path, base, Happened(cs, s, e), es[1..], r, i);
      StepSettles(cs[e.run], s.states[e.run], s.world, e.action, i);
      SettledOnce(cs[e.run], s.states[e.run], e.action);
    }
  }

  /** In every run a watcher is settled at most once, and exactly once for every accepted message by the
      time the producer's committer and resolver have nothing left to do. */
  lemma ExactlyOnce(cs: Configs, path: Path, base: Log, start: System, es: seq<Event>, r: nat, i: nat)
    requires Cluster(cs, path) && Start(cs, path, base, start) && Possible(cs, start, es) && r in cs
    ensures r in Final(cs, start, es).states
    ensures var p := Final(cs, start, es).states[r];
            && Times(cs, start, es, r, i) == (if i in p.acct.watchers then 1 else 0)
            && (p.jobs.com.Done? && p.jobs.res.Idle? ==> (i < |p.hist.accepted| <==> Times(cs, start, es, r, i) == 1))
  {
    hide Possible, Final, Local, Shared, Good, Times, Apart;
    StartIsGood(cs, path, base, start);
    TimesCount(cs, path, base, start, es, r, i);
    LocalInEveryRun(cs, path, base, start, es, r);
    var p := Final(cs, start, es).states[r];
    if p.jobs.com.Done? && p.jobs.res.Idle? {
      DrainedSettlesAll(cs[r], p);
    }
  }

  // ---------- budget ----------

  /** In every run the budget is an exact account of what is in flight, within its bound, and no step gives
      back more than was taken; with the committer and the resolver done it is back at zero. */
  lemma BudgetInEveryRun(cs: Configs, path: Path, base: Log, start: System, es: seq<Event>, r: nat)
    requires Cluster(cs, path) && Start(cs, path, base, start) && Possible(cs, start, es) && r in cs
    ensures r in Final(cs, start, es).states
    ensures var p := Final(cs, start, es).states[r];
            && p.acct.bytesUsed == LedgerInv.Loose(p.front) + LedgerInv.LiveSum(LedgerInv.Costs(p.hist.emitted),
                    p.hist.released)
            && p.acct.batchesUsed == |Live(p.hist)| + (if p.front.rot.Reconciling? then 1 else 0) <= cs[r].maxBatches
            && p.acct.bytesUsed <= LedgerInv.Max(cs[r].maxBytes,
                p.hist.biggest) + LedgerInv.LiveSum(LedgerInv.Framings(p.hist.emitted), p.hist.released)
            && (p.jobs.com.Done? && p.jobs.res.Idle? ==> p.acct.bytesUsed == 0 && p.acct.batchesUsed == 0)
    ensures var p := Final(cs, start, es).states[r];
            forall a :: Enabled(cs[r], p, a) ==>
                  GivesBack(p, a).0 <= p.acct.bytesUsed && GivesBack(p, a).1 <= p.acct.batchesUsed
  {
    hide Cluster, Start, Possible, Final, Local, Shared, ValidConfig, Enabled, GivesBack, LedgerInv.LiveSum,
         LedgerInv.Costs, LedgerInv.Framings, CostOf, Live;
    LocalInEveryRun(cs, path, base, start, es, r);
    var p := Final(cs, start, es).states[r];
    BudgetIsExact(cs[r], p);
    if p.jobs.com.Done? && p.jobs.res.Idle? {
      DrainedSettlesAll(cs[r], p);
    }
    forall a | Enabled(cs[r], p, a)
      ensures GivesBack(p, a).0 <= p.acct.bytesUsed && GivesBack(p, a).1 <= p.acct.batchesUsed
    {
      ClampsNeverFire(cs[r], p, a);
    }
  }
}
