/** What a Flush that gets past both of its waits may rely on. */
module FlushInv {
  import opened Wrappers
  import opened Pipeline
  import opened JobsInv
  import opened MessagesInv
  import opened LedgerInv
  import Committer

  /** The flush request the rotator is working on, until its batch is sealed. */
  function RotFlush(rot: Rotator): Option<nat> {
    match rot
    case Draining(f) => Some(f)
    case Acquiring(r, _) => FlushOf(r)
    case Reconciling(r) => FlushOf(r)
    case _ => None
  }

  /** Messages that have left the append queue. */
  function Collected(rot: Rotator, flush: nat, f: Front, h: History): nat {
    if RotFlush(rot) == Some(flush) then
      if rot.Draining? then |h.accepted| else |h.home| + |f.acc|
    else |h.home|
  }

  /** Every message of the batch was told what the Flush is told. */
  ghost predicate ToldAlike(err: Option<Error>, batch: Option<nat>, h: History, watchers: Watchers) {
    batch.Some? ==> forall i :: 0 <= i < |h.home| && h.home[i] == batch ==> i in watchers && watchers[i] == err
  }

  ghost predicate FlushOk(fl: Flush, n: nat, f: Front, h: History, watchers: Watchers) {
    match fl
    case Calling(snap) => snap <= |h.accepted|
    case Waiting(snap) => snap <= |h.accepted| && snap <= Collected(f.rot, n, f, h)
    case Acked(snap, err, b) =>
      snap <= |h.home| && ToldAlike(err, b, h, watchers) && (b.Some? ==> b.value < |h.emitted|)
    case Returned(snap, err, b) =>
      && snap <= |h.home| && ToldAlike(err, b, h, watchers) && (b.Some? ==> b.value < |h.emitted|)
      && (forall i: nat :: i < snap ==> i in watchers)
    case GaveUp => true
  }

  ghost predicate Flushing(f: Front, flushes: seq<Flush>, h: History, watchers: Watchers) {
    && (forall n :: 0 <= n < |flushes| ==> FlushOk(flushes[n], n, f, h, watchers))
    && (RotFlush(f.rot).Some? ==>
          RotFlush(f.rot).value < |flushes| && (flushes[RotFlush(f.rot).value].Waiting?
              || flushes[RotFlush(f.rot).value].GaveUp?))
    && (forall o :: 0 <= o < |h.emitted| && h.emitted[o].flush.Some? ==> Handled(h.emitted[o].flush.value, f, flushes))
  }

  predicate Handled(n: nat, f: Front, flushes: seq<Flush>) {
    n < |flushes| && !flushes[n].Calling? && RotFlush(f.rot) != Some(n)
  }

  /** The rest of the pipeline may move on: homes, batches and watchers only grow. */
  lemma FlushFrame(f: Front, flushes: seq<Flush>, h: History, watchers: Watchers, f': Front, h': History,
                   watchers': Watchers)
    requires Flushing(f, flushes, h, watchers)
    requires RotFlush(f'.rot) == RotFlush(f.rot) && (RotFlush(f.rot).Some? ==> f'.rot.Draining? == f.rot.Draining?)
    requires |h'.home| == |h.home| && |f'.acc| >= |f.acc| && |h'.accepted| >= |h.accepted|
    requires h'.home == h.home && h'.emitted == h.emitted
    requires forall i :: i in watchers ==> i in watchers' && watchers'[i] == watchers[i]
    ensures Flushing(f', flushes, h', watchers')
  {
    forall n | 0 <= n < |flushes|
      ensures FlushOk(flushes[n], n, f', h', watchers')
    {
      assert FlushOk(flushes[n], n, f, h, watchers);
    }
    forall o | 0 <= o < |h'.emitted| && h'.emitted[o].flush.Some?
      ensures Handled(h'.emitted[o].flush.value, f', flushes)
    {
      assert Handled(h.emitted[o].flush.value, f, flushes);
    }
  }

  lemma CallKeepsFlushing(s: State)
    requires Flushing(s.front, s.acct.flushes, s.hist, s.acct.watchers)
    ensures Flushing(s.front, s.acct.flushes + [Calling(|s.hist.accepted|)], s.hist, s.acct.watchers)
  {
    var flushes' := s.acct.flushes + [Calling(|s.hist.accepted|)];
    forall o | 0 <= o < |s.hist.emitted| && s.hist.emitted[o].flush.Some?
      ensures Handled(s.hist.emitted[o].flush.value, s.front, flushes')
    {
      assert Handled(s.hist.emitted[o].flush.value, s.front, s.acct.flushes);
    }
  }

  /** One flush changes state while the rotator and the history stand still. */
  lemma UpdateKeepsFlushing(f: Front, flushes: seq<Flush>, n: nat, fl: Flush, h: History, watchers: Watchers)
    requires Flushing(f, flushes, h, watchers) && n < |flushes| && FlushOk(fl, n, f, h, watchers)
    requires !fl.Calling? && (RotFlush(f.rot) == Some(n) ==> fl.Waiting? || fl.GaveUp?)
    ensures Flushing(f, flushes[n := fl], h, watchers)
  {
    forall o | 0 <= o < |h.emitted| && h.emitted[o].flush.Some?
      ensures Handled(h.emitted[o].flush.value, f, flushes[n := fl])
    {
      assert Handled(h.emitted[o].flush.value, f, flushes);
    }
  }

  /** Phase two of Flush: with no batch slot in use, every message sealed or dropped so far is resolved. */
  lemma NoSlotsMeansResolved(c: Config, s: State)
    requires Balanced(c, s.front, s.acct, s.hist) && s.hist.released <= Below(|s.hist.emitted|)
    requires Housed(s.hist) && Resolved(s.hist, s.acct.watchers, s.jobs.res)
    requires s.acct.batchesUsed == 0
    ensures forall i: nat :: i < |s.hist.home| ==> i in s.acct.watchers
  {
    hide LiveSum, Loose;
    var h := s.hist;
    Committer.CardinalityBelow(h.released, Below(|h.emitted|));
    AllBelow(h.released, |h.emitted|);
    forall i: nat | i < |h.home|
      ensures i in s.acct.watchers
    {
      assert Closed(h, s.jobs.res, i);
    }
  }

  lemma AllBelow(a: set<nat>, n: nat)
    requires a <= Below(n) && |a| == n
    ensures a == Below(n)
  {
    if a != Below(n) {
      var x :| x in Below(n) && x !in a;
      Committer.CardinalityBelow(a, Below(n) - {x});
    }
  }

  lemma DrainedKeepsFlushing(c: Config, s: State, n: nat)
    requires Flushing(s.front, s.acct.flushes, s.hist, s.acct.watchers)
    requires Balanced(c, s.front, s.acct, s.hist) && s.hist.released <= Below(|s.hist.emitted|)
    requires Housed(s.hist) && Resolved(s.hist, s.acct.watchers, s.jobs.res)
    requires CallerCan(c, s, FlushDrained(n))
    ensures var s' := CallerStep(c, s, FlushDrained(n)); Flushing(s'.front, s'.acct.flushes, s'.hist, s'.acct.watchers)
  {
    hide Balanced, Housed, Resolved, Flushing;
    NoSlotsMeansResolved(c, s);
    FlushAt(s.front, s.acct.flushes, s.hist, s.acct.watchers, n);
    var fl := s.acct.flushes[n];
    UpdateKeepsFlushing(s.front, s.acct.flushes, n, Returned(fl.snap, fl.err, fl.batch), s.hist, s.acct.watchers);
  }

  lemma FlushAt(f: Front, flushes: seq<Flush>, h: History, watchers: Watchers, n: nat)
    requires Flushing(f, flushes, h, watchers) && n < |flushes|
    ensures FlushOk(flushes[n], n, f, h, watchers)
    ensures flushes[n].Acked? ==> RotFlush(f.rot) != Some(n)
  {}

  // ---------- the rotator's side ----------

  lemma TakeKeepsFlushing(s: State, n: nat)
    requires Flushing(s.front, s.acct.flushes, s.hist, s.acct.watchers)
    requires s.front.rot.Selecting? && n < |s.acct.flushes| && s.acct.flushes[n].Calling?
    ensures var s' := DoTakeFlush(s, n); Flushing(s'.front, s'.acct.flushes, s'.hist, s'.acct.watchers)
  {
    var s' := DoTakeFlush(s, n);
    forall k | 0 <= k < |s.acct.flushes|
      ensures FlushOk(s'.acct.flushes[k], k, s'.front, s'.hist, s'.acct.watchers)
    {
      assert FlushOk(s.acct.flushes[k], k, s.front, s.hist, s.acct.watchers);
    }
    forall o | 0 <= o < |s.hist.emitted| && s.hist.emitted[o].flush.Some?
      ensures Handled(s.hist.emitted[o].flush.value, s'.front, s'.acct.flushes)
    {
      assert Handled(s.hist.emitted[o].flush.value, s.front, s.acct.flushes);
    }
  }

  /** The rotator lets go of a flush: its batch is sealed, or it was acknowledged without one. */
  lemma LetGoKeepsFlushing(f: Front, flushes: seq<Flush>, h: History, watchers: Watchers, f': Front, h': History,
                           watchers': Watchers)
    requires Flushing(f, flushes, h, watchers)
    requires RotFlush(f'.rot) == None
    requires |h.home| <= |h'.home| && h'.home[..|h.home|] == h.home && |h'.accepted| >= |h.accepted|
    requires RotFlush(f.rot).Some? ==> |h'.home| >= (if f.rot.Draining? then |h.accepted| else |h.home| + |f.acc|)
    requires |h.emitted| <= |h'.emitted| && h'.emitted[..|h.emitted|] == h.emitted
    requires forall o :: |h.emitted| <= o < |h'.emitted| ==> h'.emitted[o].flush == RotFlush(f.rot)
    requires forall i :: |h.home| <= i < |h'.home| && h'.home[i].Some? ==> h'.home[i].value >= |h.emitted|
    requires forall i :: i in watchers ==> i in watchers' && watchers'[i] == watchers[i]
    ensures Flushing(f', flushes, h', watchers')
  {
    forall n | 0 <= n < |flushes|
      ensures FlushOk(flushes[n], n, f', h', watchers')
    {
      assert FlushOk(flushes[n], n, f, h, watchers);
      if flushes[n].Acked? || flushes[n].Returned? {
        AlikeStays(flushes[n].err, flushes[n].batch, h, watchers, h', watchers');
      }
    }
    forall o | 0 <= o < |h'.emitted| && h'.emitted[o].flush.Some?
      ensures Handled(h'.emitted[o].flush.value, f', flushes)
    {
      if o < |h.emitted| {
        assert h'.emitted[o] == h.emitted[o];
        assert Handled(h.emitted[o].flush.value, f, flushes);
      }
    }
  }

  lemma AlikeStays(err: Option<Error>, b: Option<nat>, h: History, watchers: Watchers, h': History,
                    watchers': Watchers)
    requires ToldAlike(err, b, h, watchers) && (b.Some? ==> b.value < |h.emitted|)
    requires |h.home| <= |h'.home| && h'.home[..|h.home|] == h.home
    requires forall i :: |h.home| <= i < |h'.home| && h'.home[i].Some? ==> h'.home[i].value >= |h.emitted|
    requires forall i :: i in watchers ==> i in watchers' && watchers'[i] == watchers[i]
    ensures ToldAlike(err, b, h', watchers')
  {
    forall i | b.Some? && 0 <= i < |h'.home| && h'.home[i] == b
      ensures i in watchers' && watchers'[i] == err
    {
      if i < |h.home| {
        assert h'.home[..|h.home|][i] == h'.home[i];
      }
    }
  }

  /** Acknowledging a flush the rotator is not working on. */
  lemma AckKeepsFlushing(f: Front, flushes: seq<Flush>, h: History, watchers: Watchers, flush: Option<nat>,
                         err: Option<Error>, batch: Option<nat>)
    requires Flushing(f, flushes, h, watchers)
    requires flush.Some? ==> RotFlush(f.rot) != flush
    requires ToldAlike(err, batch, h, watchers) && (batch.Some? ==> batch.value < |h.emitted|)
    ensures Flushing(f, AckFlush(flushes, flush, err, batch), h, watchers)
  {
    hide Flushing, ToldAlike;
    if flush.Some? && flush.value < |flushes| && flushes[flush.value].Waiting? {
      FlushAt(f, flushes, h, watchers, flush.value);
      UpdateKeepsFlushing(f, flushes, flush.value, Acked(flushes[flush.value].snap, err, batch), h, watchers);
    }
  }

  /** The resolver acknowledges with the outcome it gave the batch's watchers. */
  lemma AcknowledgeKeepsFlushing(s: State)
    requires Flushing(s.front, s.acct.flushes, s.hist, s.acct.watchers)
    requires Conserved(s.jobs, s.hist) && Housed(s.hist) && Resolved(s.hist, s.acct.watchers, s.jobs.res)
    requires ResolverCan(s, Acknowledge)
    ensures var s' := DoAcknowledge(s); Flushing(s'.front, s'.acct.flushes, s'.hist, s'.acct.watchers)
  {
    hide Flushing, Conserved, Stretch, AckFlush;
    var j, h := s.jobs.res.job, s.hist;
    ReleasingIsLive(s.jobs, h);
    OrdinalsMatch(s.jobs, h);
    forall i | 0 <= i < |h.home| && h.home[i] == Some(j.batch.ordinal)
      ensures i in s.acct.watchers && s.acct.watchers[i] == JobError(j)
    {
      assert Holds(h.emitted[h.home[i].value], i);
      assert Reached(s.jobs.res, h.emitted[h.home[i].value], i);
    }
    FlushOfEmitted(s.front, s.acct.flushes, h, s.acct.watchers, j.batch.ordinal);
    AckKeepsFlushing(s.front, s.acct.flushes, h, s.acct.watchers, j.batch.flush, JobError(j), Some(j.batch.ordinal));
  }

  lemma OrdinalsMatch(j: Jobs, h: History)
    requires Conserved(j, h)
    ensures forall o :: 0 <= o < |h.emitted| ==> h.emitted[o].ordinal == o
  {}

  lemma FlushOfEmitted(f: Front, flushes: seq<Flush>, h: History, watchers: Watchers, o: nat)
    requires Flushing(f, flushes, h, watchers) && o < |h.emitted|
    ensures h.emitted[o].flush.Some? ==> RotFlush(f.rot) != h.emitted[o].flush
  {
    if h.emitted[o].flush.Some? {
      assert Handled(h.emitted[o].flush.value, f, flushes);
    }
  }
}
