/** What a Flush that got past both of its waits has shown, and what it has not. */
module Flushes {
  import opened Wrappers
  import opened ManifestLog
  import opened ObjStore
  import opened Accumulator
  import opened Pipeline
  import opened JobsInv
  import opened MessagesInv
  import opened FlushInv
  import opened ProducerInv
  import opened SharedInv
  import opened System
  import opened Durability
  import opened Promises
  import opened EveryRun
  import opened Fates
  import opened Verdicts
  import opened FlushRuns
  import FlowInv
  import GatesInv
  import LedgerInv

  // ---------- nil, message by message ----------

  /** Batch `o` failed for a reason of its own: it could not be encoded or uploaded, or shutdown cut it short. */
  predicate FailedAlone(cs: Configs, s: System, es: seq<Event>, r: nat, o: nat)
    requires Possible(cs, s, es)
  {
    || UploadEnded(cs, s, es, r, o, CannotEncode(Serialization))
        || UploadEnded(cs, s, es, r, o, CannotEncode(InvalidInput))
    || UploadEnded(cs, s, es, r, o, Exhausted) || UploadEnded(cs, s, es, r, o, Aborted)
    || CommitEnded(cs, s, es, r, o, Cancelled)
  }

  /** Batch `o` failed because the producer halted. */
  predicate FailedByHalt(cs: Configs, s: System, es: seq<Event>, r: nat, o: nat)
    requires Possible(cs, s, es)
  {
    CommitEnded(cs, s, es, r, o, HaltedInHand) || CommitEnded(cs, s, es, r, o, Refused)
  }

  /** A resolved message of batch `o` was told nil exactly when nothing failed for its batch. */
  lemma NilIffNothingFailed(cs: Configs, path: Path, base: Log, start: System, es: seq<Event>, r: nat, i: nat, o: nat)
    requires Cluster(cs, path) && Start(cs, path, base, start) && Possible(cs, start, es) && r in cs
            && r in Final(cs, start, es).states
    requires var p := Final(cs, start, es).states[r];
             i in p.acct.watchers && i < |p.hist.home| && p.hist.home[i] == Some(o)
    ensures Final(cs, start, es).states[r].acct.watchers[i] == None
       <==> !FailedAlone(cs, start, es, r, o) && !FailedByHalt(cs, start, es, r, o)
  {
    hide Cluster, Start, Possible, Final, UploadEnded, CommitEnded, EncodeResult;
    OutcomeInEveryRun(cs, path, base, start, es, r, i, o);
    match Final(cs, start, es).states[r].acct.watchers[i]
    case None =>
    case Some(err) =>
      match err
      case Serialization =>
      case InvalidInput =>
      case Storage =>
      case Shutdown =>
      case ProducerHalted =>
      case NotFound =>
      case PreconditionFailed =>
  }

  // ---------- a returned Flush ----------

  predicate HasReturned(p: State, n: nat) {
    n < |p.acct.flushes| && p.acct.flushes[n].Returned?
  }

  /** Every message accepted before the call is resolved. If the Flush had a batch, the batch was sealed for it,
      and every such message was dropped or lies in that batch or an earlier one. */
  lemma FlushCovers(cs: Configs, path: Path, base: Log, start: System, es: seq<Event>, r: nat, n: nat, i: nat)
    requires Cluster(cs, path) && Start(cs, path, base, start) && Possible(cs, start, es) && r in cs
            && r in Final(cs, start, es).states
    requires HasReturned(Final(cs, start, es).states[r], n) && i < Final(cs, start, es).states[r].acct.flushes[n].snap
    ensures var p := Final(cs, start, es).states[r]; var b := p.acct.flushes[n].batch;
            && i in p.acct.watchers && i < |p.hist.home|
            && (b.Some? ==>
                  && b.value < |p.hist.emitted| && p.hist.emitted[b.value].flush == Some(n)
                  && (p.hist.home[i].Some? ==> p.hist.home[i].value <= b.value)
                  && forall m :: 0 <= m < |p.hist.home| && p.hist.home[m] == b ==>
                       m in p.acct.watchers && p.acct.watchers[m] == p.acct.flushes[n].err)
  {
    hide Cluster, Start, Possible, Final, Conserved, FlowInv.Phases, FlowInv.Cursor, GatesInv.Gated, GatesInv.Typed,
         InOrder, Housed, Resolved, LedgerInv.Balanced, Flushing, Shared, Ascending;
    LocalInEveryRun(cs, path, base, start, es, r);
    AckedAtMostOnce(cs, path, base, start, es, r, n);
    var p := Final(cs, start, es).states[r];
    FlushMeans(cs[r], p, n);
    WatchersAreHoused(p.hist, p.acct.watchers, p.jobs.res);
    assert i in p.acct.watchers;
    assert TiedFlush(p.acct.flushes[n], n, p.hist.emitted);
    if p.acct.flushes[n].batch.Some? && p.hist.home[i].Some? {
      EarlierOrSame(p.hist, i, p.hist.home[i].value, p.acct.flushes[n].batch.value);
    }
  }

  /** Some message of the batch. */
  lemma BatchHasMessage(h: History, b: nat)
    requires Housed(h) && b < |h.emitted|
    ensures First(h.emitted[b]) < |h.home| && h.home[First(h.emitted[b])] == Some(b)
  {
    hide FramedCost;
    assert Stretch(h.emitted[b], h);
    assert MessagesInv.Holds(h.emitted[b], First(h.emitted[b]));
  }

  /** A Flush that returned nil for a batch: none of the messages before the call was told of a halt, and each was
      told nil exactly when it was not dropped and its batch did not fail for a reason of its own. */
  lemma NilFlush(cs: Configs, path: Path, base: Log, start: System, es: seq<Event>, r: nat, n: nat, i: nat)
    requires Cluster(cs, path) && Start(cs, path, base, start) && Possible(cs, start, es) && r in cs
            && r in Final(cs, start, es).states
    requires HasReturned(Final(cs, start, es).states[r], n)
    requires var fl := Final(cs, start, es).states[r].acct.flushes[n]; fl.err == None && fl.batch.Some? && i < fl.snap
    ensures var p := Final(cs, start, es).states[r];
            && i in p.acct.watchers && i < |p.hist.home| && p.acct.watchers[i] != Some(ProducerHalted)
            && (p.hist.home[i] == None <==> DroppedIn(cs, start, es, r, i))
            && (p.hist.home[i].Some? ==> !FailedByHalt(cs, start, es, r, p.hist.home[i].value))
            && (p.acct.watchers[i] == None <==>
                  p.hist.home[i].Some? && !FailedAlone(cs, start, es, r, p.hist.home[i].value))
  {
    hide Cluster, Start, Possible, Final, Local, Shared, FailedAlone, CommitEnded, UploadEnded, DroppedIn, Housed,
         EncodeResult;
    var p := Final(cs, start, es).states[r];
    FlushCovers(cs, path, base, start, es, r, n, i);
    DroppedInEveryRun(cs, path, base, start, es, r, i);
    LocalInEveryRun(cs, path, base, start, es, r);
    if p.hist.home[i].Some? {
      var o, b := p.hist.home[i].value, p.acct.flushes[n].batch.value;
      LocalHas(cs[r], p);
      BatchHasMessage(p.hist, b);
      FlushMeans(cs[r], p, n);
      OutcomeInEveryRun(cs, path, base, start, es, r, i, o);
      NilIffNothingFailed(cs, path, base, start, es, r, i, o);
      if o < b {
        NoHaltBelowCommit(cs, path, base, start, es, r, i, o, First(p.hist.emitted[b]), b);
      }
    }
  }

  predicate AllNil(p: State, snap: nat) {
    forall i: nat :: i < snap ==> i in p.acct.watchers && p.acct.watchers[i] == None
  }

  predicate NoneDropped(cs: Configs, s: System, es: seq<Event>, r: nat, snap: nat)
    requires Possible(cs, s, es)
  {
    forall i: nat :: i < snap ==> !DroppedIn(cs, s, es, r, i)
  }

  /** No batch up to `b` that holds one of the first `snap` messages failed for a reason of its own. */
  predicate NoneFailed(cs: Configs, s: System, es: seq<Event>, r: nat, emitted: seq<Batch>, b: nat, snap: nat)
    requires Possible(cs, s, es)
  {
    forall o :: 0 <= o <= b && o < |emitted| && First(emitted[o]) < snap ==> !FailedAlone(cs, s, es, r, o)
  }

  lemma AllNilMeansNoneFailed(cs: Configs, path: Path, base: Log, start: System, es: seq<Event>, r: nat, n: nat)
    requires Cluster(cs, path) && Start(cs, path, base, start) && Possible(cs, start, es) && r in cs
            && r in Final(cs, start, es).states
    requires HasReturned(Final(cs, start, es).states[r], n)
    requires var fl := Final(cs, start, es).states[r].acct.flushes[n]; fl.err == None && fl.batch.Some?
    requires var p := Final(cs, start, es).states[r]; AllNil(p, p.acct.flushes[n].snap)
    ensures var p := Final(cs, start, es).states[r];
            && NoneDropped(cs, start, es, r, p.acct.flushes[n].snap)
            && NoneFailed(cs, start, es, r, p.hist.emitted, p.acct.flushes[n].batch.value, p.acct.flushes[n].snap)
  {
    hide Cluster, Start, Possible, Final, Local, Shared, FailedAlone, DroppedIn, Housed, FailedByHalt, InOrder,
         Conserved, Resolved;
    var p := Final(cs, start, es).states[r];
    var fl := p.acct.flushes[n];
    LocalInEveryRun(cs, path, base, start, es, r);
    LocalHas(cs[r], p);
    forall i: nat | i < fl.snap
      ensures !DroppedIn(cs, start, es, r, i)
    {
      NilFlush(cs, path, base, start, es, r, n, i);
    }
    forall o | 0 <= o <= fl.batch.value && o < |p.hist.emitted| && First(p.hist.emitted[o]) < fl.snap
      ensures !FailedAlone(cs, start, es, r, o)
    {
      BatchHasMessage(p.hist, o);
      NilFlush(cs, path, base, start, es, r, n, First(p.hist.emitted[o]));
    }
  }

  lemma NoneFailedMeansAllNil(cs: Configs, path: Path, base: Log, start: System, es: seq<Event>, r: nat, n: nat)
    requires Cluster(cs, path) && Start(cs, path, base, start) && Possible(cs, start, es) && r in cs
            && r in Final(cs, start, es).states
    requires HasReturned(Final(cs, start, es).states[r], n)
    requires var fl := Final(cs, start, es).states[r].acct.flushes[n]; fl.err == None && fl.batch.Some?
    requires var p := Final(cs, start, es).states[r];
             && NoneDropped(cs, start, es, r, p.acct.flushes[n].snap)
             && NoneFailed(cs, start, es, r, p.hist.emitted, p.acct.flushes[n].batch.value, p.acct.flushes[n].snap)
    ensures var p := Final(cs, start, es).states[r]; AllNil(p, p.acct.flushes[n].snap)
  {
    hide Cluster, Start, Possible, Final, Local, Shared, FailedAlone, DroppedIn, Housed, FailedByHalt, InOrder,
         Conserved, Resolved;
    var p := Final(cs, start, es).states[r];
    var fl := p.acct.flushes[n];
    LocalInEveryRun(cs, path, base, start, es, r);
    LocalHas(cs[r], p);
    forall i: nat | i < fl.snap
      ensures i in p.acct.watchers && p.acct.watchers[i] == None
    {
      NilFlush(cs, path, base, start, es, r, n, i);
      FlushCovers(cs, path, base, start, es, r, n, i);
      HomeIsInFront(p.hist, i);
    }
  }

  /** All of them at once. After a Flush that returned nil for batch `b`, every message accepted before the call
      was told nil exactly when none was dropped and no batch up to `b` holding one of them failed for a
      reason of its own. */
  lemma NilFlushIffNothingFailed(cs: Configs, path: Path, base: Log, start: System, es: seq<Event>, r: nat, n: nat)
    requires Cluster(cs, path) && Start(cs, path, base, start) && Possible(cs, start, es) && r in cs
            && r in Final(cs, start, es).states
    requires HasReturned(Final(cs, start, es).states[r], n)
    requires var fl := Final(cs, start, es).states[r].acct.flushes[n]; fl.err == None && fl.batch.Some?
    ensures var p, fl := Final(cs, start, es).states[r], Final(cs, start, es).states[r].acct.flushes[n];
            AllNil(p, fl.snap) <==>
              NoneDropped(cs, start, es, r, fl.snap)
                  && NoneFailed(cs, start, es, r, p.hist.emitted, fl.batch.value, fl.snap)
  {
    hide Cluster, Start, Possible, Final, AllNil, NoneDropped, NoneFailed;
    var p := Final(cs, start, es).states[r];
    if AllNil(p, p.acct.flushes[n].snap) {
      AllNilMeansNoneFailed(cs, path, base, start, es, r, n);
    }
    if NoneDropped(cs, start, es, r, p.acct.flushes[n].snap)
       && NoneFailed(cs, start, es, r, p.hist.emitted, p.acct.flushes[n].batch.value, p.acct.flushes[n].snap) {
      NoneFailedMeansAllNil(cs, path, base, start, es, r, n);
    }
  }

  predicate InFront(h: History, i: nat) {
    i < |h.home| && h.home[i].Some? && h.home[i].value < |h.emitted| && First(h.emitted[h.home[i].value]) <= i
  }

  lemma HomeIsInFront(h: History, i: nat)
    requires Housed(h) && i < |h.home|
    ensures h.home[i].Some? ==> InFront(h, i)
  {
    hide Stretch;
    if h.home[i].Some? {
      assert MessagesInv.Holds(h.emitted[h.home[i].value], i);
    }
  }

  /** A Flush without a batch answers with the shutdown if its messages were dropped, and otherwise nil whatever
      happened before: a message before the call was told nil exactly when it was not dropped and nothing failed for
      its batch, a halt included. */
  lemma NilFlushOfNothing(cs: Configs, path: Path, base: Log, start: System, es: seq<Event>, r: nat, n: nat, i: nat)
    requires Cluster(cs, path) && Start(cs, path, base, start) && Possible(cs, start, es) && r in cs
            && r in Final(cs, start, es).states
    requires HasReturned(Final(cs, start, es).states[r], n)
    requires var fl := Final(cs, start, es).states[r].acct.flushes[n]; fl.batch == None && i < fl.snap
    ensures Final(cs, start, es).states[r].acct.flushes[n].err
         == if FlushDropped(cs, start, es, r, n) then Some(Shutdown) else None
    ensures var p := Final(cs, start, es).states[r];
            && i in p.acct.watchers && i < |p.hist.home|
            && (p.hist.home[i] == None <==> DroppedIn(cs, start, es, r, i))
            && (p.acct.watchers[i] == None <==>
                  && p.hist.home[i].Some?
                  && !FailedAlone(cs, start, es, r, p.hist.home[i].value)
                      && !FailedByHalt(cs, start, es, r, p.hist.home[i].value))
  {
    hide Cluster, Start, Possible, Final, FailedAlone, FailedByHalt, DroppedIn, FlushDropped;
    var p := Final(cs, start, es).states[r];
    AnswerWithoutBatch(cs, path, base, start, es, r, n);
    FlushCovers(cs, path, base, start, es, r, n, i);
    DroppedInEveryRun(cs, path, base, start, es, r, i);
    if p.hist.home[i].Some? {
      NilIffNothingFailed(cs, path, base, start, es, r, i, p.hist.home[i].value);
    }
  }

  const CALL := ByCaller(CallFlush)

  /** A call of Flush in any reachable state, and whatever follows: when that Flush has returned, every message that
      was accepted before the call is resolved, and so lies in its batch or an earlier one or was dropped. */
  lemma FlushCoversTheCall(cs: Configs, path: Path, base: Log, start: System, es: seq<Event>, more: seq<Event>, r: nat,
                           i: nat)
    requires Cluster(cs, path) && Start(cs, path, base, start) && Possible(cs, start, es) && r in cs
            && CanHappen(cs, Final(cs, start, es), Event(r, CALL))
    requires var called := Happened(cs, Final(cs, start, es), Event(r, CALL));
             && Possible(cs, called, more) && r in Final(cs, called, more).states
             && HasReturned(Final(cs, called, more).states[r], |Final(cs, start, es).states[r].acct.flushes|)
             && i < |Final(cs, start, es).states[r].hist.accepted|
    ensures var before := Final(cs, start, es);
            var p := Final(cs, Happened(cs, before, Event(r, CALL)), more).states[r];
            var fl := p.acct.flushes[|before.states[r].acct.flushes|];
            && fl.snap == |before.states[r].hist.accepted|
            && i in p.acct.watchers && i < |p.hist.home|
            && (fl.batch.Some? && p.hist.home[i].Some? ==> p.hist.home[i].value <= fl.batch.value)
  {
    hide Cluster, Start, Possible, Final;
    var before, e := Final(cs, start, es), Event(r, CALL);
    var called, n := Happened(cs, before, e), |before.states[r].acct.flushes|;
    RunKeepsCall(cs, called, more, r, n, |before.states[r].hist.accepted|);
    OneMore(cs, before, e, more);
    RunsJoin(cs, start, es, [e] + more);
    FlushCovers(cs, path, base, start, es + ([e] + more), r, n, i);
  }

  lemma OneMore(cs: Configs, s: System, e: Event, more: seq<Event>)
    requires CanHappen(cs, s, e) && Possible(cs, Happened(cs, s, e), more)
    ensures Possible(cs, s, [e] + more) && Final(cs, s, [e] + more) == Final(cs, Happened(cs, s, e), more)
  {
    hide CanHappen, Happened;
    assert ([e] + more)[1..] == more;
  }

  /** In every continuation, all messages accepted before the call stay resolved, and if the Flush returned nil for a
      batch, every message of that batch can be read back from the store. */
  lemma FlushInEveryRun(cs: Configs, path: Path, base: Log, start: System, es: seq<Event>, more: seq<Event>, r: nat,
                        n: nat, i: nat)
    requires Cluster(cs, path) && Start(cs, path, base, start) && Possible(cs, start, es)
            && Possible(cs, Final(cs, start, es), more)
    requires r in cs && r in Final(cs, start, es).states && HasReturned(Final(cs, start, es).states[r], n)
    ensures var p, later := Final(cs, start, es).states[r], Final(cs, Final(cs, start, es), more);
            var fl := p.acct.flushes[n];
            && r in later.states
            && (i < fl.snap ==> i in p.acct.watchers && i in later.states[r].acct.watchers
                                && later.states[r].acct.watchers[i] == p.acct.watchers[i])
            && (fl.err == None && fl.batch.Some? && i < |p.hist.home| && p.hist.home[i] == fl.batch ==>
                  Readable(cs[r], path, later.world.objects, p.hist, i))
  {
    hide Possible, Final, Cluster, Start, Local, Shared, Readable;
    var now := Final(cs, start, es);
    var p := now.states[r];
    LocalInEveryRun(cs, path, base, start, es, r);
    FlushMeans(cs[r], p, n);
    RunRemembers(cs, now, more, r);
    var fl := p.acct.flushes[n];
    if fl.err == None && fl.batch.Some? && i < |p.hist.home| && p.hist.home[i] == fl.batch {
      DurableForever(cs, path, base, start, es, more, r, i);
    }
  }
}
