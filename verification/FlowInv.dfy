/** The committer's phases, and its cursor: what is below it is settled or on its way, what is above it is not. */
module FlowInv {
  import opened Wrappers
  import opened ObjStore
  import opened Committer
  import opened Pipeline
  import opened JobsInv
  import ManifestLog

  predicate InCas(com: Commit) {
    com.Reading? || com.Writing? || com.BackingOff?
  }

  /** Which phases go with a halted committer, and what each phase has in hand. */
  predicate Phases(j: Jobs) {
    && (InCas(j.com) ==>
          && !j.halted && |j.com.taken| <= j.next && Stored(j.com.taken) != []
          && forall i :: 0 <= i < |j.com.taken| ==> j.com.taken[i].batch.ordinal == j.next - |j.com.taken| + i)
    && (j.com.Gathering? || j.com.Grouping? ==> !j.halted)
    && (j.com.Delivering? ==> (j.halted <==> j.com.next != Regroup))
    && (j.com.Abandoning? ==> j.halted)
    && (j.halted && (j.com.Receiving? || j.com.Done? || (j.com.Delivering? && j.com.next == ReceiveNext)) ==>
        j.ready == map[])
  }

  /** Until a halt: below the cursor is exactly what was released or is on its way to release. */
  ghost predicate Cursor(j: Jobs, h: History) {
    !j.halted ==>
      && j.next <= |h.emitted|
      && h.released <= Below(j.next)
      && (forall o :: o in Downstream(j) ==> o < j.next)
      && (forall o: nat :: o < j.next ==> o in h.released || o in Downstream(j))
      && (j.com.Receiving? || j.com.Done? ==> j.next !in j.ready)
  }

  lemma ReadyAtOrAfterCursor(j: Jobs, h: History, o: nat)
    requires Conserved(j, h) && Cursor(j, h) && !j.halted && o in j.ready
    ensures j.next <= o < |h.emitted|
  {
    hide Bag, Hand, InResolver, Genuine, Below, Downstream, Upstream, Unaltered;
    assert Total(j)[o] == multiset(Live(h))[o];
  }

  lemma SealKeepsCursor(s: State)
    requires Cursor(s.jobs, s.hist) && s.front.rot.Reconciling?
    ensures Cursor(DoSeal(s).jobs, DoSeal(s).hist)
  {
    hide Bag, Hand, InResolver, Below;
    assert Downstream(DoSeal(s).jobs) == Downstream(s.jobs);
  }

  lemma GroupKeepsCursor(c: Config, s: State, w: World)
    requires c.groupSize >= 1
    requires Conserved(s.jobs, s.hist) && Phases(s.jobs) && Cursor(s.jobs, s.hist) && s.jobs.com.Grouping?
    ensures Cursor(DoGroup(c, s, w).jobs, DoGroup(c, s, w).hist) && Phases(DoGroup(c, s, w).jobs)
  {
    hide Bag, Genuine, Below, Stored, Unstored, Taken, Left, Downstream, Conserved;
    var j, k := s.jobs, TakeCount(s.jobs.ready, s.jobs.next, c.groupSize);
    if k > 0 {
      var taken := Taken(j.ready, j.next, k);
      BagSplit(taken);
      BagOne(Job(Batch(0, [], None, 0), Encoding));
      ReadyAtOrAfterCursor(j, s.hist, j.next + k - 1);
      TakenOrdinals(j, s.hist, k);
      TakeKeepsCursor(j, s.hist, k, DoGroup(c, s, w).jobs);
    } else {
      IdleKeepsCursor(j, s.hist, DoGroup(c, s, w).jobs);
    }
  }

  lemma TakenOrdinals(j: Jobs, h: History, k: nat)
    requires Conserved(j, h)
    requires forall o :: j.next <= o < j.next + k ==> o in j.ready
    ensures forall i :: 0 <= i < k ==> Taken(j.ready, j.next, k)[i].batch.ordinal == j.next + i
    ensures Bag(Taken(j.ready, j.next, k)) == multiset(seq(k, i requires 0 <= i < k => j.next + i))
  {
    hide Total, Below, Live;
    var taken := Taken(j.ready, j.next, k);
    forall i | 0 <= i < k
      ensures taken[i].batch.ordinal == j.next + i
    {
      assert j.next + i in j.ready;
    }
    assert Ordinals(taken) == seq(k, i requires 0 <= i < k => j.next + i);
  }

  lemma RangeBag(lo: nat, k: nat, o: nat)
    ensures o in multiset(seq(k, i requires 0 <= i < k => lo + i)) <==> lo <= o < lo + k
  {
    var s := seq(k, i requires 0 <= i < k => lo + i);
    if lo <= o < lo + k {
      assert s[o - lo] == o;
    }
  }

  lemma TakeKeepsCursor(j: Jobs, h: History, k: nat, j': Jobs)
    requires Cursor(j, h) && !j.halted && Hand(j.com) == []
    requires j.next + k <= |h.emitted|
    requires j' == j.(ready := j'.ready, next := j.next + k, com := j'.com)
    requires !j'.com.Receiving? && !j'.com.Done?
    requires Bag(Hand(j'.com)) == multiset(seq(k, i requires 0 <= i < k => j.next + i))
    ensures Cursor(j', h)
  {
    hide Bag, Hand;
    BagOne(Job(Batch(0, [], None, 0), Encoding));
    forall o: nat
      ensures o in Downstream(j') <==> o in Downstream(j) || j.next <= o < j.next + k
    {
      RangeBag(j.next, k, o);
    }
  }

  lemma IdleKeepsCursor(j: Jobs, h: History, j': Jobs)
    requires Cursor(j, h)
    requires j' == j.(com := j'.com, sawClose := j'.sawClose) && Hand(j'.com) == Hand(j.com)
    requires j'.com.Receiving? || j'.com.Done? ==> !j.halted ==> j.next !in j.ready
    ensures Cursor(j', h)
  {
    hide Bag, Hand, InResolver, Below;
    assert Downstream(j') == Downstream(j);
  }

  /** Handing over to the resolver, or relabelling the hand. */
  lemma SameDownstream(j: Jobs, h: History, j': Jobs)
    requires Cursor(j, h) && Downstream(j') == Downstream(j)
    requires j'.next == j.next && j'.ready == j.ready && !j'.com.Receiving? && !j'.com.Done?
    requires !j'.halted ==> !j.halted
    ensures Cursor(j', h)
  {
    hide Downstream, Below;
  }

  /** What a CAS step can do to the committer: stay on the same group, or settle it. */
  ghost predicate CasMove(j: Jobs, j': Jobs)
    requires InCas(j.com)
  {
    && j' == j.(com := j'.com, halted := j'.halted)
    && (InCas(j'.com) ==> j'.com.taken == j.com.taken && j'.halted == j.halted)
    && (!InCas(j'.com) ==>
          && j'.com.Delivering?
          && (j'.com.next == Regroup || (j'.com.next == AbandonReady && j'.halted))
          && (j'.com.next == Regroup ==> j'.halted == j.halted)
          && exists err :: j'.com.out == Outcomes(j.com.taken, err))
  }

  lemma CasMoves(c: Config, s: State, w: World, a: CommitAction)
    requires CommitCan(s, a)
    requires a.CasRead? || a.CasWrite? || a.CasRetry? || a.CasAbort?
    ensures CasMove(s.jobs, CommitStep(c, s, w, a).jobs)
    ensures CommitStep(c, s, w, a) == s.(jobs := CommitStep(c, s, w, a).jobs)
  {
    hide Outcomes, ManifestLog.Rewritten, Matches, ItemsOf, Stored;
  }

  lemma CasKeepsCursor(j: Jobs, h: History, j': Jobs)
    requires Cursor(j, h) && Phases(j) && InCas(j.com) && CasMove(j, j')
    ensures Cursor(j', h) && Phases(j')
  {
    hide Cursor, Outcomes, Stored, Bag;
    if j'.com.Delivering? {
      var err :| j'.com.out == Outcomes(j.com.taken, err);
      BagOutcomes(j.com.taken, err);
    }
    assert Downstream(j') == Downstream(j);
    SameDownstream(j, h, j');
  }

  lemma DeliverKeepsCursor(s: State)
    requires Cursor(s.jobs, s.hist) && Phases(s.jobs)
    requires s.jobs.com.Delivering? && s.jobs.com.out != [] && s.jobs.res.Idle?
    ensures Cursor(DoDeliver(s).jobs, DoDeliver(s).hist) && Phases(DoDeliver(s).jobs)
  {
    hide Cursor, Bag;
    BagHead(s.jobs.com.out);
    BagOne(s.jobs.com.out[0]);
    SameDownstream(s.jobs, s.hist, DoDeliver(s).jobs);
  }

  lemma FileKeepsCursor(j: Jobs, h: History, j': Jobs)
    requires Cursor(j, h) && j'.halted == j.halted
    requires j.halted || (j'.next == j.next && j'.res == j.res && Hand(j'.com) == Hand(j.com))
    requires !j'.halted ==> !j'.com.Receiving? && !j'.com.Done?
    ensures Cursor(j', h)
  {
    hide Bag, Hand, InResolver, Below;
    if !j.halted {
      assert Downstream(j') == Downstream(j);
    }
  }

  lemma CommitKeepsCursor(c: Config, s: State, w: World, a: CommitAction)
    requires c.groupSize >= 1
    requires Conserved(s.jobs, s.hist) && Cursor(s.jobs, s.hist) && Phases(s.jobs) && CommitCan(s, a)
    ensures Cursor(CommitStep(c, s, w, a).jobs, CommitStep(c, s, w, a).hist)
    ensures Phases(CommitStep(c, s, w, a).jobs)
  {
    hide Bag, Genuine, Below, Conserved, Outcomes, DoGroup, DoCasRead, DoCasWrite, Stored;
    var s' := CommitStep(c, s, w, a);
    match a
    case Recv => FileKeepsCursor(s.jobs, s.hist, s'.jobs);
    case RecvClosed => IdleKeepsCursor(s.jobs, s.hist, s'.jobs);
    case Gather => FileKeepsCursor(s.jobs, s.hist, s'.jobs);
    case GatherEnd => IdleKeepsCursor(s.jobs, s.hist, s'.jobs);
    case Group => GroupKeepsCursor(c, s, w);
    case CasRead(_) => CasMoves(c, s, w, a); CasKeepsCursor(s.jobs, s.hist, s'.jobs);
    case CasWrite(_) => CasMoves(c, s, w, a); CasKeepsCursor(s.jobs, s.hist, s'.jobs);
    case CasRetry => CasMoves(c, s, w, a); CasKeepsCursor(s.jobs, s.hist, s'.jobs);
    case CasAbort => CasMoves(c, s, w, a); CasKeepsCursor(s.jobs, s.hist, s'.jobs);
    case Deliver => DeliverKeepsCursor(s);
    case Delivered => IdleKeepsCursor(s.jobs, s.hist, s'.jobs);
    case Abandon(o) =>
    case Abandoned => IdleKeepsCursor(s.jobs, s.hist, s'.jobs);
  }

  lemma ResolverKeepsCursor(s: State, a: ResolverAction)
    requires Cursor(s.jobs, s.hist) && Phases(s.jobs) && ResolverCan(s, a)
    ensures Cursor(ResolverStep(s, a).jobs, ResolverStep(s, a).hist) && Phases(ResolverStep(s, a).jobs)
  {
    hide Bag, Hand, Below;
    var s' := ResolverStep(s, a);
    if a == Release {
      ReleaseKeepsCursor(s);
    } else {
      assert Downstream(s'.jobs) == Downstream(s.jobs);
      ResolverKeepsDownstream(s.jobs, s.hist, s'.jobs);
    }
  }

  lemma ReleaseKeepsCursor(s: State)
    requires Cursor(s.jobs, s.hist) && s.jobs.res.Releasing?
    ensures Cursor(DoRelease(s).jobs, DoRelease(s).hist)
  {
    hide Bag, Hand, Below, Downstream;
    var s', o := DoRelease(s), s.jobs.res.job.batch.ordinal;
    DownstreamShrinks(s.jobs, s'.jobs);
    assert o in Downstream(s.jobs);
    assert !s.jobs.halted ==> o in Below(s.jobs.next);
    forall p | p in Downstream(s'.jobs)
      ensures p in Downstream(s.jobs)
    {}
    forall p: nat | !s.jobs.halted && p < s.jobs.next
      ensures p in s'.hist.released || p in Downstream(s'.jobs)
    {
      assert p in s.hist.released || p in Downstream(s.jobs);
    }
  }

  lemma DownstreamShrinks(j: Jobs, j': Jobs)
    requires j.res.Releasing? && j' == j.(res := Idle)
    ensures Downstream(j) == Downstream(j') + multiset{j.res.job.batch.ordinal}
  {
    hide Bag, Hand;
    BagOne(j.res.job);
  }

  lemma ResolverKeepsDownstream(j: Jobs, h: History, j': Jobs)
    requires Cursor(j, h) && Downstream(j') == Downstream(j) && j' == j.(res := j'.res)
    ensures Cursor(j', h)
  {
    hide Downstream, Below;
  }
}
