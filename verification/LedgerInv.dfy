/** The byte and batch budget as an exact account of what is in flight, and its upper bound. */
module LedgerInv {
  import opened Wrappers
  import opened Accumulator
  import opened Pipeline
  import opened JobsInv
  import opened MessagesInv
  import Committer

  /** The sum of `xs[o]` over the ordinals not released. */
  function LiveSum(xs: seq<nat>, released: set<nat>): nat {
    if xs == [] then 0
    else LiveSum(xs[..|xs| - 1], released) + if |xs| - 1 in released then 0 else xs[|xs| - 1]
  }

  function Costs(emitted: seq<Batch>): seq<nat> {
    seq(|emitted|, o requires 0 <= o < |emitted| => emitted[o].byteCost)
  }

  /** Message bytes per batch: the batch's cost without framing. */
  function Payloads(emitted: seq<Batch>): seq<nat> {
    seq(|emitted|, o requires 0 <= o < |emitted| => CostOf(emitted[o].messages))
  }

  function Framings(emitted: seq<Batch>): seq<nat> {
    seq(|emitted|, o requires 0 <= o < |emitted| => FramingOf(emitted[o].messages))
  }

  /** Message bytes reserved and not yet part of a batch. */
  function Loose(f: Front): nat {
    CostOf(f.reserved) + CostOf(f.queue) + CostOf(f.acc)
  }

  function Max(a: nat, b: nat): nat {
    if a < b then b else a
  }

  predicate Balanced(c: Config, f: Front, a: Account, h: History) {
    && a.bytesUsed == Loose(f) + LiveSum(Costs(h.emitted), h.released)
    && a.batchesUsed == |h.emitted| - |h.released| + (if f.rot.Reconciling? then 1 else 0)
    && a.batchesUsed <= c.maxBatches
    && Loose(f) + LiveSum(Payloads(h.emitted), h.released) <= Max(c.maxBytes, h.biggest)
  }

  // ---------- sums ----------

  lemma {:induction false} LiveSumRelease(xs: seq<nat>, released: set<nat>, o: nat)
    requires o < |xs| && o !in released
    ensures LiveSum(xs, released) == LiveSum(xs, released + {o}) + xs[o]
  {
    if o < |xs| - 1 {
      LiveSumRelease(xs[..|xs| - 1], released, o);
    } else {
      LiveSumBeyond(xs[..|xs| - 1], released, o);
    }
  }

  lemma {:induction false} LiveSumBeyond(xs: seq<nat>, released: set<nat>, o: nat)
    requires |xs| <= o
    ensures LiveSum(xs, released) == LiveSum(xs, released + {o})
  {
    if xs == [] {
    } else {
      LiveSumBeyond(xs[..|xs| - 1], released, o);
    }
  }

  lemma LiveSumGrows(xs: seq<nat>, x: nat, released: set<nat>)
    requires |xs| !in released
    ensures LiveSum(xs + [x], released) == LiveSum(xs, released) + x
  {
    assert (xs + [x])[..|xs|] == xs;
  }

  lemma {:induction false} LiveSumAdds(xs: seq<nat>, ys: seq<nat>, zs: seq<nat>, released: set<nat>)
    requires |xs| == |ys| == |zs| && forall i :: 0 <= i < |xs| ==> zs[i] == xs[i] + ys[i]
    ensures LiveSum(zs, released) == LiveSum(xs, released) + LiveSum(ys, released)
  {
    if xs == [] {
    } else {
      LiveSumAdds(xs[..|xs| - 1], ys[..|xs| - 1], zs[..|xs| - 1], released);
    }
  }

  lemma CostsSplit(h: History)
    requires Housed(h)
    ensures LiveSum(Costs(h.emitted), h.released)
         == LiveSum(Payloads(h.emitted), h.released) + LiveSum(Framings(h.emitted), h.released)
  {
    hide FramingOf, CostOf;
    forall o | 0 <= o < |h.emitted|
      ensures Costs(h.emitted)[o] == Payloads(h.emitted)[o] + Framings(h.emitted)[o]
    {
      assert Stretch(h.emitted[o], h);
    }
    LiveSumAdds(Payloads(h.emitted), Framings(h.emitted), Costs(h.emitted), h.released);
  }

  lemma CostOfOne(ms: seq<Message>, m: Message)
    ensures CostOf(ms + [m]) == CostOf(ms) + MessageCost(m)
  {
    assert (ms + [m])[..|ms|] == ms;
  }

  lemma CostOfTail(ms: seq<Message>)
    requires ms != []
    ensures CostOf(ms) == MessageCost(ms[0]) + CostOf(ms[1..])
  {
    hide CostOf, MessageCost;
    CostOfSplit(ms, 0);
    assert ms[..0] + ms[1..] == ms[1..];
  }

  lemma CostOfNothing()
    ensures CostOf([]) == 0
  {}

  // ---------- every step balances ----------

  /** The reservation rule keeps the bound, oversize messages included. */
  lemma ReserveBalances(c: Config, s: State, i: nat)
    requires Balanced(c, s.front, s.acct, s.hist) && Housed(s.hist)
    requires CallerCan(c, s, Reserve(i))
    ensures var s' := DoReserve(s, i); Balanced(c, s'.front, s'.acct, s'.hist)
  {
    hide CostOf, MessageCost, LiveSum, Costs, Payloads, Framings, Housed;
    CostOfOne(s.front.reserved, s.front.entering[i]);
    CostsSplit(s.hist);
  }

  /** No release ever gives back more than is held: the clamps in the budget do nothing. */
  lemma WithdrawBalances(c: Config, s: State, i: nat)
    requires Balanced(c, s.front, s.acct, s.hist) && i < |s.front.reserved|
    ensures var s' := DoWithdraw(s, i); Balanced(c, s'.front, s'.acct, s'.hist)
    ensures MessageCost(s.front.reserved[i]) <= s.acct.bytesUsed
  {
    hide CostOf, MessageCost, LiveSum, Costs, Payloads, Framings;
    CostOfSplit(s.front.reserved, i);
  }

  lemma AcceptBalances(c: Config, s: State, i: nat)
    requires Balanced(c, s.front, s.acct, s.hist) && i < |s.front.reserved|
    ensures var s' := DoAccept(s, i); Balanced(c, s'.front, s'.acct, s'.hist)
  {
    hide CostOf, LiveSum, Costs, Payloads, Framings;
    CostOfSplit(s.front.reserved, i);
    CostOfOne(s.front.queue, WithNumber(s.hist, s.front.reserved[i]));
  }

  lemma HandOverBalances(c: Config, s: State, i: nat)
    requires Balanced(c, s.front, s.acct, s.hist) && i < |s.front.reserved| && !s.front.rot.Reconciling?
    ensures var s' := DoHandOver(c, s, i); Balanced(c, s'.front, s'.acct, s'.hist)
  {
    hide CostOf, LiveSum, Costs, Payloads, Framings;
    CostOfSplit(s.front.reserved, i);
    CostOfOne(s.front.acc, WithNumber(s.hist, s.front.reserved[i]));
  }

  lemma ReceiveBalances(c: Config, s: State)
    requires Balanced(c, s.front, s.acct, s.hist) && s.front.queue != [] && !s.front.rot.Reconciling?
    ensures var s' := DoReceive(c, s); Balanced(c, s'.front, s'.acct, s'.hist)
  {
    hide CostOf, LiveSum, Costs, Payloads, Framings;
    CostOfTail(s.front.queue);
    CostOfOne(s.front.acc, s.front.queue[0]);
  }

  lemma DropBalances(c: Config, s: State)
    requires Balanced(c, s.front, s.acct, s.hist) && s.front.rot.Acquiring?
    ensures var s' := DoDrop(s); Balanced(c, s'.front, s'.acct, s'.hist)
    ensures CostOf(s.front.acc) <= s.acct.bytesUsed
  {
    hide CostOf, LiveSum, Costs, Payloads, Framings, AllResolved, AckFlush;
    CostOfNothing();
  }

  lemma SealBalances(c: Config, s: State)
    requires Balanced(c, s.front, s.acct, s.hist) && s.front.rot.Reconciling?
            && s.hist.released <= Below(|s.hist.emitted|)
    ensures var s' := DoSeal(s); Balanced(c, s'.front, s'.acct, s'.hist)
  {
    hide CostOf, LiveSum, FramingOf;
    var b, e := SealedBatch(s), s.hist.emitted;
    CostOfNothing();
    assert Costs(e + [b]) == Costs(e) + [b.byteCost];
    assert Payloads(e + [b]) == Payloads(e) + [CostOf(b.messages)];
    LiveSumGrows(Costs(e), b.byteCost, s.hist.released);
    LiveSumGrows(Payloads(e), CostOf(b.messages), s.hist.released);
  }

  lemma ReleaseBalances(c: Config, s: State)
    requires Balanced(c, s.front, s.acct, s.hist) && s.jobs.res.Releasing?
    requires Conserved(s.jobs, s.hist)
    ensures var s' := DoRelease(s); Balanced(c, s'.front, s'.acct, s'.hist)
    ensures s.jobs.res.job.batch.byteCost <= s.acct.bytesUsed && 1 <= s.acct.batchesUsed
  {
    hide CostOf, LiveSum, FramingOf, Loose, Conserved;
    var b, h := s.jobs.res.job.batch, s.hist;
    ReleasingIsLive(s.jobs, h);
    LiveSumRelease(Costs(h.emitted), h.released, b.ordinal);
    LiveSumRelease(Payloads(h.emitted), h.released, b.ordinal);
    Committer.CardinalityBelow(h.released + {b.ordinal}, Below(|h.emitted|));
  }

  lemma ReleasingIsLive(j: Jobs, h: History)
    requires Conserved(j, h) && !j.res.Idle?
    ensures j.res.job.batch.ordinal in Live(h) && Genuine(h.emitted, j.res.job.batch)
    ensures h.released <= Below(|h.emitted|) && j.res.job.batch.ordinal in Below(|h.emitted|)
  {
    hide Bag, Hand, Below;
    BagOne(j.res.job);
    var o := j.res.job.batch.ordinal;
    assert o in Total(j);
    assert Genuine(h.emitted, InResolver(j.res)[0].batch);
  }

  // ---------- the bound ----------

  /** In-flight bytes never exceed the byte limit, or the largest single message if that is larger, by
      more than the framing of the batches in flight; and there are at most `maxBatches` of those. */
  lemma BytesAreBounded(c: Config, s: State)
    requires Balanced(c, s.front, s.acct, s.hist) && Housed(s.hist) && s.hist.released <= Below(|s.hist.emitted|)
    ensures s.acct.bytesUsed <= Max(c.maxBytes, s.hist.biggest) + LiveSum(Framings(s.hist.emitted), s.hist.released)
    ensures |Live(s.hist)| <= c.maxBatches
  {
    hide LiveSum, Housed, Loose;
    CostsSplit(s.hist);
    assert |Live(s.hist)| == |s.hist.emitted| - |s.hist.released|;
  }

  lemma {:induction false} LiveSumAllReleased(xs: seq<nat>, released: set<nat>)
    requires Below(|xs|) <= released
    ensures LiveSum(xs, released) == 0
  {
    if xs == [] {
    } else {
      LiveSumAllReleased(xs[..|xs| - 1], released);
    }
  }

  /** Once nothing is left in any stage, everything has been given back. */
  lemma DrainedIsZero(c: Config, s: State)
    requires Balanced(c, s.front, s.acct, s.hist) && Live(s.hist) == {} && s.hist.released <= Below(|s.hist.emitted|)
    requires s.front.reserved == [] && s.front.queue == [] && s.front.acc == [] && !s.front.rot.Reconciling?
    ensures s.acct.bytesUsed == 0 && s.acct.batchesUsed == 0
  {
    hide LiveSum;
    assert s.hist.released == Below(|s.hist.emitted|);
    LiveSumAllReleased(Costs(s.hist.emitted), s.hist.released);
  }
}
