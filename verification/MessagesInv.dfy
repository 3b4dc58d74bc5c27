/** Where the messages are: accepted messages keep their order through queue, accumulator and batches,
    each is in exactly one of them, and its watcher is resolved exactly when its batch is settled. */
module MessagesInv {
  import opened Wrappers
  import opened Accumulator
  import opened Pipeline
  import opened JobsInv

  predicate Nonempty(ms: seq<Message>) {
    forall i :: 0 <= i < |ms| ==> ms[i].entries != []
  }

  /** The accepted messages, in order: first those sealed or dropped, then the accumulator, then the queue. */
  predicate InOrder(f: Front, h: History) {
    && |h.home| + |f.acc| + |f.queue| == |h.accepted|
    && f.acc == h.accepted[|h.home|..|h.home| + |f.acc|]
    && f.queue == h.accepted[|h.home| + |f.acc|..]
    && (forall i :: 0 <= i < |h.accepted| ==> h.accepted[i].watcher == i)
    && Nonempty(h.accepted) && Nonempty(f.entering) && Nonempty(f.reserved)
  }

  /** The number of a batch's first message. */
  function First(b: Batch): nat {
    if b.messages == [] then 0 else b.messages[0].watcher
  }

  predicate Holds(b: Batch, i: nat) {
    First(b) <= i < First(b) + |b.messages|
  }

  /** A batch is a stretch of the accepted messages, and `home` says which. */
  ghost predicate Housed(h: History) {
    && |h.home| <= |h.accepted|
    && (forall o :: 0 <= o < |h.emitted| ==> Stretch(h.emitted[o], h))
    && (forall i :: 0 <= i < |h.home| && h.home[i].Some? ==>
          h.home[i].value < |h.emitted| && Holds(h.emitted[h.home[i].value], i))
    && (forall o, i :: 0 <= o < |h.emitted| && 0 <= i < |h.home| && Holds(h.emitted[o], i) ==> h.home[i] == Some(o))
  }

  predicate Stretch(b: Batch, h: History) {
    && b.messages != []
    && First(b) + |b.messages| <= |h.home| <= |h.accepted|
    && b.messages == h.accepted[First(b)..First(b) + |b.messages|]
    && b.byteCost == FramedCost(b.messages)
  }

  /** The resolver has reached message `i` of batch `o`. */
  predicate Reached(res: Resolver, b: Batch, i: nat) {
    match res
    case Idle => false
    case Resolving(job, done) => job.batch.ordinal == b.ordinal && i < First(b) + done
    case Releasing(job) => job.batch.ordinal == b.ordinal
  }

  predicate Closed(h: History, res: Resolver, i: nat)
    requires i < |h.home| && (h.home[i].Some? ==> h.home[i].value < |h.emitted|)
  {
    match h.home[i]
    case None => true
    case Some(o) => o in h.released || Reached(res, h.emitted[o], i)
  }

  /** A watcher is resolved exactly when its message was dropped or its batch reached the resolver; a batch
      in the resolver resolves its watchers with its own outcome. */
  ghost predicate Resolved(h: History, watchers: Watchers, res: Resolver)
    requires Housed(h)
  {
    && (forall i :: i in watchers ==> i < |h.home|)
    && (forall i :: 0 <= i < |h.home| ==> (i in watchers <==> Closed(h, res, i)))
    && (forall i :: 0 <= i < |h.home| && h.home[i].Some? && Reached(res, h.emitted[h.home[i].value], i)
          ==> i in watchers && watchers[i] == ResolverError(res))
    && (forall i :: 0 <= i < |h.home| && h.home[i] == None ==> i in watchers && watchers[i] == Some(Shutdown))
    && (res.Resolving? ==> res.done <= |res.job.batch.messages|)
  }

  function ResolverError(res: Resolver): Option<Error> {
    if res.Idle? then None else JobError(res.job)
  }

  // ---------- order ----------

  lemma AcceptKeepsOrder(s: State, i: nat)
    requires InOrder(s.front, s.hist) && i < |s.front.reserved|
    ensures InOrder(DoAccept(s, i).front, DoAccept(s, i).hist)
  {
    var m := WithNumber(s.hist, s.front.reserved[i]);
    var a, h := s.hist.accepted, |s.hist.home|;
    var n := h + |s.front.acc|;
    assert (a + [m])[h..n] == a[h..n];
    assert (a + [m])[n..] == a[n..] + [m];
  }

  lemma HandOverKeepsOrder(c: Config, s: State, i: nat)
    requires InOrder(s.front, s.hist) && i < |s.front.reserved| && s.front.queue == []
    ensures InOrder(DoHandOver(c, s, i).front, DoHandOver(c, s, i).hist)
  {
    hide CostOf;
    var m := WithNumber(s.hist, s.front.reserved[i]);
    var a, h := s.hist.accepted, |s.hist.home|;
    assert (a + [m])[h..|a| + 1] == a[h..] + [m];
    assert (a + [m])[|a| + 1..] == [];
  }

  lemma ReceiveKeepsOrder(c: Config, s: State)
    requires InOrder(s.front, s.hist) && s.front.queue != []
    ensures InOrder(DoReceive(c, s).front, DoReceive(c, s).hist)
  {
    hide CostOf;
    var a, h := s.hist.accepted, |s.hist.home|;
    var n := h + |s.front.acc|;
    assert s.front.queue[0] == a[n];
    assert a[h..n + 1] == a[h..n] + [a[n]];
    assert a[n..][1..] == a[n + 1..];
  }

  /** The accumulator is emptied, into a batch or on shutdown. */
  lemma EmptyingKeepsOrder(f: Front, h: History, f': Front, h': History)
    requires InOrder(f, h)
    requires f' == f.(acc := [], rot := f'.rot) && |h'.home| == |h.home| + |f.acc| && h'.accepted == h.accepted
    ensures InOrder(f', h')
  {}

  // ---------- homes ----------

  lemma SealKeepsHomes(s: State)
    requires InOrder(s.front, s.hist) && Housed(s.hist) && s.front.rot.Reconciling? && s.front.acc != []
    ensures Housed(DoSeal(s).hist)
  {
    hide FramedCost, FramingOf;
    var h, h' := s.hist, DoSeal(s).hist;
    var b, n := SealedBatch(s), |s.hist.emitted|;
    assert First(b) == |h.home| by {
      assert s.front.acc[0] == h.accepted[|h.home|];
    }
    assert Stretch(b, h');
    SealedHomes(h, h', b);
  }

  lemma SealedHomes(h: History, h': History, b: Batch)
    requires Housed(h) && Stretch(b, h') && First(b) == |h.home|
    requires h'.accepted == h.accepted && h'.emitted == h.emitted + [b]
    requires h'.home == h.home + seq(|b.messages|, _ => Some(|h.emitted|))
    ensures Housed(h')
  {
    hide FramedCost;
    forall o | 0 <= o < |h'.emitted|
      ensures Stretch(h'.emitted[o], h')
    {
      if o < |h.emitted| {
        assert Stretch(h.emitted[o], h);
      }
    }
    forall o, i | 0 <= o < |h'.emitted| && 0 <= i < |h'.home| && Holds(h'.emitted[o], i)
      ensures h'.home[i] == Some(o)
    {
      if o < |h.emitted| {
        assert Stretch(h.emitted[o], h);
        assert h.home[i] == Some(o);
      }
    }
  }

  lemma DropKeepsHomes(h: History, k: nat)
    requires Housed(h) && |h.home| + k <= |h.accepted|
    ensures Housed(h.(home := h.home + seq(k, _ => None)))
  {
    hide FramedCost;
    var h' := h.(home := h.home + seq(k, _ => None));
    forall o | 0 <= o < |h.emitted|
      ensures Stretch(h.emitted[o], h')
    {
      assert Stretch(h.emitted[o], h);
    }
  }

  lemma AcceptKeepsHomes(h: History, m: Message)
    requires Housed(h)
    ensures Housed(h.(accepted := h.accepted + [m]))
  {
    hide FramedCost;
    var h' := h.(accepted := h.accepted + [m]);
    forall o | 0 <= o < |h.emitted|
      ensures Stretch(h.emitted[o], h')
    {
      var b := h.emitted[o];
      assert Stretch(b, h);
      assert h'.accepted[First(b)..First(b) + |b.messages|] == h.accepted[First(b)..First(b) + |b.messages|];
    }
  }

  // ---------- watchers ----------

  lemma SealKeepsResolved(h: History, h': History, b: Batch, watchers: Watchers, res: Resolver)
    requires Housed(h) && Housed(h') && Resolved(h, watchers, res)
    requires h'.emitted == h.emitted + [b] && b.ordinal == |h.emitted|
    requires h'.home == h.home + seq(|b.messages|, _ => Some(|h.emitted|)) && h'.released == h.released
    requires h.released <= Below(|h.emitted|) && AllGenuine(h.emitted, InResolver(res))
    ensures Resolved(h', watchers, res)
  {
    forall i | 0 <= i < |h'.home|
      ensures i in watchers <==> Closed(h', res, i)
      ensures h'.home[i].Some? && Reached(res, h'.emitted[h'.home[i].value], i) ==>
              i in watchers && watchers[i] == ResolverError(res)
    {
      if i < |h.home| {
        assert Closed(h', res, i) <==> Closed(h, res, i);
      } else if !res.Idle? {
        assert Genuine(h.emitted, InResolver(res)[0].batch);
      }
    }
  }

  /** The watchers from `lo` up to `hi` were added, with outcome `err`. */
  ghost predicate Filled(watchers: Watchers, watchers': Watchers, err: Option<Error>,
                         lo: nat, hi: nat) {
    && (forall i :: i in watchers' <==> i in watchers || lo <= i < hi)
    && (forall i :: i in watchers ==> i in watchers' && watchers'[i] == watchers[i])
    && (forall i :: i in watchers' && i !in watchers ==> watchers'[i] == err)
  }

  lemma {:induction false} AllResolvedAt(watchers: Watchers, ms: seq<Message>, err: Option<Error>,
                                         lo: nat)
    requires forall i :: 0 <= i < |ms| ==> ms[i].watcher == lo + i
    requires forall i :: i in watchers ==> i < lo
    ensures Filled(watchers, AllResolved(watchers, ms, err), err, lo, lo + |ms|)
  {
    if ms == [] {
    } else {
      AllResolvedAt(watchers, ms[..|ms| - 1], err, lo);
    }
  }

  lemma DropKeepsResolved(h: History, acc: seq<Message>, watchers: Watchers, res: Resolver)
    requires Housed(h) && Resolved(h, watchers, res)
    requires forall i :: 0 <= i < |acc| ==> acc[i].watcher == |h.home| + i
    requires |h.home| + |acc| <= |h.accepted|
    ensures Housed(h.(home := h.home + seq(|acc|, _ => None)))
    ensures Resolved(h.(home := h.home + seq(|acc|, _ => None)), AllResolved(watchers, acc, Some(Shutdown)), res)
    ensures forall i :: i in watchers ==>
              && i in AllResolved(watchers, acc, Some(Shutdown))
              && AllResolved(watchers, acc, Some(Shutdown))[i] == watchers[i]
  {
    hide Resolved, Stretch;
    DropKeepsHomes(h, |acc|);
    WatchersAreHoused(h, watchers, res);
    AllResolvedAt(watchers, acc, Some(Shutdown), |h.home|);
    DropResolves(h, |acc|, watchers, AllResolved(watchers, acc, Some(Shutdown)), res);
  }

  lemma WatchersAreHoused(h: History, watchers: Watchers, res: Resolver)
    requires Housed(h) && Resolved(h, watchers, res)
    ensures forall i :: i in watchers ==> i < |h.home|
  {}

  lemma DropResolves(h: History, k: nat, watchers: Watchers, watchers': Watchers,
                     res: Resolver)
    requires var h' := h.(home := h.home + seq(k, _ => None)); Housed(h) && Housed(h')
    requires Resolved(h, watchers, res)
    requires Filled(watchers, watchers', Some(Shutdown), |h.home|, |h.home| + k)
    ensures Resolved(h.(home := h.home + seq(k, _ => None)), watchers', res)
  {
    hide Stretch;
    var h' := h.(home := h.home + seq(k, _ => None));
    forall i | 0 <= i < |h'.home|
      ensures i in watchers' <==> Closed(h', res, i)
      ensures h'.home[i].Some? && Reached(res, h'.emitted[h'.home[i].value], i) ==>
              i in watchers' && watchers'[i] == ResolverError(res)
      ensures h'.home[i] == None ==> i in watchers' && watchers'[i] == Some(Shutdown)
    {
      if i < |h.home| {
        assert Closed(h', res, i) <==> Closed(h, res, i);
      }
    }
  }

  /** A batch enters the resolver. */
  lemma StartKeepsResolved(h: History, watchers: Watchers, job: Job)
    requires Housed(h) && Resolved(h, watchers, Idle) && Genuine(h.emitted, job.batch)
    ensures Resolved(h, watchers, Resolving(job, 0))
  {
    forall i | 0 <= i < |h.home|
      ensures i in watchers <==> Closed(h, Resolving(job, 0), i)
    {
      assert Closed(h, Idle, i) <==> Closed(h, Resolving(job, 0), i);
    }
  }

  /** The step that calls `resolve` finds the watcher unresolved: no watcher is resolved twice. */
  lemma ResolveIsFirst(h: History, watchers: Watchers, job: Job, done: nat)
    requires Housed(h) && Resolved(h, watchers, Resolving(job, done)) && Genuine(h.emitted, job.batch)
    requires done < |job.batch.messages| && job.batch.ordinal !in h.released
    requires forall i :: 0 <= i < |h.accepted| ==> h.accepted[i].watcher == i
    requires forall o :: 0 <= o < |h.emitted| ==> h.emitted[o].ordinal == o
    ensures var i := job.batch.messages[done].watcher;
            && i == First(job.batch) + done && i < |h.home| && h.home[i] == Some(job.batch.ordinal)
            && i !in watchers
  {
    hide FramedCost;
    var b, o := job.batch, job.batch.ordinal;
    assert Stretch(h.emitted[o], h);
    assert b.messages[done] == h.accepted[First(b) + done];
    assert Holds(h.emitted[o], First(b) + done);
  }

  lemma ResolveKeepsResolved(h: History, watchers: Watchers, job: Job, done: nat)
    requires Housed(h) && Resolved(h, watchers, Resolving(job, done)) && Genuine(h.emitted, job.batch)
    requires done < |job.batch.messages| && job.batch.ordinal !in h.released
    requires forall i :: 0 <= i < |h.accepted| ==> h.accepted[i].watcher == i
    requires forall o :: 0 <= o < |h.emitted| ==> h.emitted[o].ordinal == o
    ensures Resolved(h, WatcherResolved(watchers, job.batch.messages[done].watcher, JobError(job)),
                     Resolving(job, done + 1))
  {
    hide Stretch;
    ResolveIsFirst(h, watchers, job, done);
    var w := First(job.batch) + done;
    var r, r' := Resolving(job, done), Resolving(job, done + 1);
    var watchers' := watchers[w := JobError(job)];
    forall i | 0 <= i < |h.home|
      ensures i in watchers' <==> Closed(h, r', i)
      ensures h.home[i].Some? && Reached(r', h.emitted[h.home[i].value], i) ==>
              i in watchers' && watchers'[i] == JobError(job)
    {
      ResolverAdvances(h, job, done, i);
    }
  }

  /** One more watcher resolved: the resolver has reached one more message, and nothing else changed. */
  lemma ResolverAdvances(h: History, job: Job, done: nat, i: nat)
    requires Housed(h) && Genuine(h.emitted, job.batch) && i < |h.home| && job.batch.ordinal !in h.released
    requires forall o :: 0 <= o < |h.emitted| ==> h.emitted[o].ordinal == o
    requires First(job.batch) + done < |h.home| && h.home[First(job.batch) + done] == Some(job.batch.ordinal)
    ensures i == First(job.batch) + done ==>
              Closed(h, Resolving(job, done + 1), i) && !Closed(h, Resolving(job, done), i)
    ensures i != First(job.batch) + done ==> (Closed(h, Resolving(job, done + 1), i) <==>
            Closed(h, Resolving(job, done), i))
    ensures i != First(job.batch) + done && h.home[i].Some? ==>
              (Reached(Resolving(job, done + 1), h.emitted[h.home[i].value], i) <==>
                  Reached(Resolving(job, done), h.emitted[h.home[i].value], i))
  {
    hide Stretch;
    if h.home[i].Some? && h.home[i].value == job.batch.ordinal {
      assert Holds(h.emitted[h.home[i].value], i);
    }
  }

  lemma AcknowledgeKeepsResolved(h: History, watchers: Watchers, job: Job)
    requires Housed(h) && Resolved(h, watchers, Resolving(job, |job.batch.messages|)) && Genuine(h.emitted, job.batch)
    requires forall o :: 0 <= o < |h.emitted| ==> h.emitted[o].ordinal == o
    ensures Resolved(h, watchers, Releasing(job))
  {
    forall i | 0 <= i < |h.home|
      ensures Closed(h, Resolving(job, |job.batch.messages|), i) <==> Closed(h, Releasing(job), i)
      ensures h.home[i].Some? ==> (Reached(Resolving(job, |job.batch.messages|), h.emitted[h.home[i].value], i)
                                   <==> Reached(Releasing(job), h.emitted[h.home[i].value], i))
    {
      if h.home[i].Some? && h.home[i].value == job.batch.ordinal {
        assert Holds(h.emitted[h.home[i].value], i);
      }
    }
  }

  lemma ReleaseKeepsResolved(h: History, watchers: Watchers, job: Job)
    requires Housed(h) && Resolved(h, watchers, Releasing(job)) && Genuine(h.emitted, job.batch)
    requires forall o :: 0 <= o < |h.emitted| ==> h.emitted[o].ordinal == o
    ensures Housed(h.(released := h.released + {job.batch.ordinal}))
    ensures Resolved(h.(released := h.released + {job.batch.ordinal}), watchers, Idle)
  {
    hide FramedCost;
    var h' := h.(released := h.released + {job.batch.ordinal});
    HousedIgnoresReleased(h, h');
    forall i | 0 <= i < |h.home|
      ensures Closed(h', Idle, i) <==> Closed(h, Releasing(job), i)
    {}
  }

  lemma HousedIgnoresReleased(h: History, h': History)
    requires Housed(h) && h' == h.(released := h'.released, biggest := h'.biggest)
    ensures Housed(h')
  {
    hide FramedCost;
    forall o | 0 <= o < |h'.emitted|
      ensures Stretch(h'.emitted[o], h')
    {
      assert Stretch(h.emitted[o], h);
    }
  }

  lemma AcceptKeepsResolved(h: History, m: Message, watchers: Watchers, res: Resolver)
    requires Housed(h) && Resolved(h, watchers, res)
    ensures Housed(h.(accepted := h.accepted + [m])) && Resolved(h.(accepted := h.accepted + [m]), watchers, res)
  {
    AcceptKeepsHomes(h, m);
    var h' := h.(accepted := h.accepted + [m]);
    forall i | 0 <= i < |h.home|
      ensures Closed(h', res, i) <==> Closed(h, res, i)
    {}
  }
}
