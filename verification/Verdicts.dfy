/** Why a message got the outcome it got: over every run, each outcome happens exactly when the steps named
    for it happened to the message's batch. */
module Verdicts {
  import opened Wrappers
  import opened ManifestLog
  import opened ObjStore
  import opened Accumulator
  import opened Pipeline
  import opened JobsInv
  import opened MessagesInv
  import opened FlushInv
  import opened ProducerInv
  import opened SharedInv
  import opened System
  import opened EveryRun
  import opened Fates
  import FlowInv
  import GatesInv
  import LedgerInv
  import opened ManifestHistory
  import BlocksInv
  import BatchCodec
  import Committer
  import WorldInv

  // ---------- along a run ----------

  /** Some event of run `r` in `es` ends the upload of its batch `o` in this way. */
  predicate UploadEnded(cs: Configs, s: System, es: seq<Event>, r: nat, o: nat, u: UploadEnd)
    requires Possible(cs, s, es)
    decreases |es|
  {
    es != []
    && (|| (es[0].run == r && UploadEnds(cs[r], s.states[r], es[0].action, o) == Some(u))
        || UploadEnded(cs, Happened(cs, s, es[0]), es[1..], r, o, u))
  }

  /** Some event of run `r` in `es` ends the commit of its batch `o` in this way. */
  predicate CommitEnded(cs: Configs, s: System, es: seq<Event>, r: nat, o: nat, e: CommitEnd)
    requires Possible(cs, s, es)
    decreases |es|
  {
    es != []
    && (|| (es[0].run == r && CommitEnds(cs[r], s.states[r], s.world, es[0].action, o) == Some(e))
        || CommitEnded(cs, Happened(cs, s, es[0]), es[1..], r, o, e))
  }

  function TrailOf(cs: Configs, s: System, es: seq<Event>, r: nat, o: nat, t: Trail): Trail
    requires Possible(cs, s, es)
    decreases |es|
  {
    if es == [] then t
    else TrailOf(cs, Happened(cs, s, es[0]), es[1..], r, o, TrailAfter(cs, s, es[0], r, o, t))
  }

  function TrailAfter(cs: Configs, s: System, e: Event, r: nat, o: nat, t: Trail): Trail
    requires CanHappen(cs, s, e)
  {
    if e.run == r then Followed(cs[r], s.states[r], s.world, e.action, o, t) else t
  }

  lemma StartTracks(c: Config, o: nat)
    ensures Tracked(c, Init(c), o, NOTHING)
  {}

  lemma EventTracks(cs: Configs, path: Path, base: Log, s: System, e: Event, r: nat, o: nat, t: Trail)
    requires Good(cs, path, base, s) && CanHappen(cs, s, e) && r in cs && r in s.states
            && Tracked(cs[r], s.states[r], o, t)
    ensures r in Happened(cs, s, e).states
    ensures Tracked(cs[r], Happened(cs, s, e).states[r], o, TrailAfter(cs, s, e, r, o, t))
  {
    hide Good, Enabled, NextState, NextWorld, Tracked, Followed, Local;
    if e.run == r {
      LocalOf(cs, path, base, s, r);
      StepTracks(cs[r], s.states[r], s.world, e.action, o, t);
    }
  }

  lemma {:induction false} RunTracks(cs: Configs, path: Path, base: Log, s: System, es: seq<Event>, r: nat, o: nat,
                                     t: Trail)
    requires Cluster(cs, path) && Good(cs, path, base, s) && Possible(cs, s, es) && r in cs && r in s.states
    requires Tracked(cs[r], s.states[r], o, t)
    ensures r in Final(cs, s, es).states && Tracked(cs[r], Final(cs, s, es).states[r], o, TrailOf(cs, s, es, r, o, t))
    decreases |es|
  {
    hide Cluster, Good, CanHappen, Happened, Tracked, TrailAfter;
    if es == [] {
    } else {
      StepIsGood(cs, path, base, s, es[0]);
      EventTracks(cs, path, base, s, es[0], r, o, t);
      RunTracks(cs, path, base, Happened(cs, s, es[0]), es[1..], r, o, TrailAfter(cs, s, es[0], r, o, t));
    }
  }

  // ---------- the trail is what happened ----------

  lemma EventEnds(cs: Configs, path: Path, base: Log, s: System, e: Event, r: nat, o: nat, t: Trail)
    requires Good(cs, path, base, s) && CanHappen(cs, s, e) && r in cs && r in s.states
            && Tracked(cs[r], s.states[r], o, t)
    ensures var t' := TrailAfter(cs, s, e, r, o, t);
            && (forall u :: t'.upload == Some(u) <==>
                  t.upload == Some(u) || (e.run == r && UploadEnds(cs[r], s.states[r], e.action, o) == Some(u)))
            && (forall x :: t'.commit == Some(x) <==>
                  t.commit == Some(x) || (e.run == r && CommitEnds(cs[r], s.states[r], s.world, e.action, o)
                                          == Some(x)))
  {
    hide Good, Enabled, Pending, Judged, Answered, Sane, Local, UploadEnds, CommitEnds;
    if e.run == r {
      LocalOf(cs, path, base, s, r);
      TypedOf(cs[r], s.states[r]);
      if UploadEnds(cs[r], s.states[r], e.action, o).Some? {
        UploadEndsOnce(cs[r], s.states[r], e.action, o, t);
      }
      if CommitEnds(cs[r], s.states[r], s.world, e.action, o).Some? {
        CommitEndsOnce(cs[r], s.states[r], s.world, e.action, o, t);
      }
    }
  }

  lemma TypedOf(c: Config, s: State)
    requires Local(c, s)
    ensures GatesInv.Typed(c, s.jobs)
  {
    hide Conserved, FlowInv.Phases, FlowInv.Cursor, GatesInv.Gated, GatesInv.Typed, InOrder, Housed, Resolved,
         LedgerInv.Balanced, Flushing;
  }

  lemma {:induction false} TrailIsHistory(cs: Configs, path: Path, base: Log, s: System, es: seq<Event>, r: nat,
                                          o: nat, t: Trail)
    requires Cluster(cs, path) && Good(cs, path, base, s) && Possible(cs, s, es) && r in cs && r in s.states
    requires Tracked(cs[r], s.states[r], o, t)
    ensures forall u :: TrailOf(cs, s, es, r, o, t).upload == Some(u) <==>
            t.upload == Some(u) || UploadEnded(cs, s, es, r, o, u)
    ensures forall x :: TrailOf(cs, s, es, r, o, t).commit == Some(x) <==>
            t.commit == Some(x) || CommitEnded(cs, s, es, r, o, x)
    decreases |es|
  {
    hide Cluster, Good, Enabled, NextState, NextWorld, Tracked, TrailAfter, UploadEnds, CommitEnds;
    if es == [] {
    } else {
      var e := es[0];
      StepIsGood(cs, path, base, s, e);
      EventTracks(cs, path, base, s, e, r, o, t);
      EventEnds(cs, path, base, s, e, r, o, t);
      TrailIsHistory(cs, path, base, Happened(cs, s, e), es[1..], r, o, TrailAfter(cs, s, e, r, o, t));
    }
  }

  // ---------- outcomes ----------

  lemma EncodeErrors(c: Config, b: Batch)
    ensures EncodeResult(c, b).Err? ==>
              EncodeResult(c, b).error == InvalidInput || EncodeResult(c, b).error == Serialization
  {
    hide EntriesOf;
  }

  /** The trail of a resolved message's batch in any run, and what it says. */
  lemma ResolvedTrail(cs: Configs, path: Path, base: Log, start: System, es: seq<Event>, r: nat, i: nat,
                      o: nat) returns (t: Trail)
    requires Cluster(cs, path) && Start(cs, path, base, start) && Possible(cs, start, es) && r in cs
            && r in Final(cs, start, es).states
    requires var p := Final(cs, start, es).states[r];
             i in p.acct.watchers && i < |p.hist.home| && p.hist.home[i] == Some(o)
    ensures t == TrailOf(cs, start, es, r, o, NOTHING)
    ensures var p := Final(cs, start, es).states[r];
            Tracked(cs[r], p, o, t) && Verdict(t) == Some(p.acct.watchers[i])
    ensures forall u :: t.upload == Some(u) <==> UploadEnded(cs, start, es, r, o, u)
    ensures forall x :: t.commit == Some(x) <==> CommitEnded(cs, start, es, r, o, x)
  {
    hide Possible, Final, Good, Pending, Judged, Sane, UploadEnded, CommitEnded, TrailOf, Apart, ValidConfig, Verdict;
    StartIsGood(cs, path, base, start);
    StartTracks(cs[r], o);
    RunTracks(cs, path, base, start, es, r, o, NOTHING);
    TrailIsHistory(cs, path, base, start, es, r, o, NOTHING);
    t := TrailOf(cs, start, es, r, o, NOTHING);
  }

  /** Every outcome and its cause, in every run. Message `i` went into batch `o` of producer `r` and is resolved. It
      was told nil exactly when a manifest write of a group carrying the batch took effect and was reported;
      the halt error exactly when the batch's group failed its last manifest attempt or a halted
      committer turned the batch away; otherwise the error that ended its upload, or the shutdown that
      cancelled its group. */
  lemma OutcomeInEveryRun(cs: Configs, path: Path, base: Log, start: System, es: seq<Event>, r: nat, i: nat, o: nat)
    requires Cluster(cs, path) && Start(cs, path, base, start) && Possible(cs, start, es) && r in cs
            && r in Final(cs, start, es).states
    requires var p := Final(cs, start, es).states[r];
             i in p.acct.watchers && i < |p.hist.home| && p.hist.home[i] == Some(o)
    ensures var told := Final(cs, start, es).states[r].acct.watchers[i];
            var refused := CommitEnded(cs, start, es, r, o, Refused);
            && (told == None <==> CommitEnded(cs, start, es, r, o, WrittenOk))
            && (told == Some(ProducerHalted) <==> CommitEnded(cs, start, es, r, o, HaltedInHand) || refused)
            && (told == Some(Storage) <==> UploadEnded(cs, start, es, r, o, Exhausted) && !refused)
            && (told == Some(Shutdown) <==>
                  CommitEnded(cs, start, es, r, o, Cancelled) || (UploadEnded(cs, start, es, r, o, Aborted)
                      && !refused))
            && (told == Some(Serialization) <==>
                  UploadEnded(cs, start, es, r, o, CannotEncode(Serialization)) && !refused)
            && (told == Some(InvalidInput) <==>
                  UploadEnded(cs, start, es, r, o, CannotEncode(InvalidInput)) && !refused)
            && told != Some(NotFound) && told != Some(PreconditionFailed)
    ensures var h := Final(cs, start, es).states[r].hist;
            && o < |h.emitted|
            && var encoded := BatchCodec.Encoded(cs[r].zstd, EntriesOf(h.emitted[o].messages), cs[r].compression);
               && (forall err :: UploadEnded(cs, start, es, r, o, CannotEncode(err)) ==> encoded == Err(err))
               && (UploadEnded(cs, start, es, r, o, UploadedOk) ==> encoded.Ok?)
  {
    hide Cluster, Start, Possible, Final, Pending, Judged, Answered, UploadEnded, CommitEnded, TrailOf,
         BatchCodec.Encoded, EntriesOf;
    var t := ResolvedTrail(cs, path, base, start, es, r, i, o);
    HomeIsSealed(cs, path, base, start, es, r, i, o);
    EncodeErrors(cs[r], Final(cs, start, es).states[r].hist.emitted[o]);
  }

  lemma HomeIsSealed(cs: Configs, path: Path, base: Log, start: System, es: seq<Event>, r: nat, i: nat, o: nat)
    requires Cluster(cs, path) && Start(cs, path, base, start) && Possible(cs, start, es) && r in cs
            && r in Final(cs, start, es).states
    requires var p := Final(cs, start, es).states[r]; i < |p.hist.home| && p.hist.home[i] == Some(o)
    ensures o < |Final(cs, start, es).states[r].hist.emitted|
  {
    hide Cluster, Start, Possible, Final, Conserved, FlowInv.Phases, FlowInv.Cursor, GatesInv.Gated, GatesInv.Typed,
         InOrder, Resolved, LedgerInv.Balanced, Flushing, Stretch, Shared;
    LocalInEveryRun(cs, path, base, start, es, r);
  }

  // ---------- dropped messages ----------

  /** Some event of run `r` in `es` drops message `i`: the rotator, parked for a slot, sees the shutdown while the
      message is in its accumulator. */
  predicate DroppedIn(cs: Configs, s: System, es: seq<Event>, r: nat, i: nat)
    requires Possible(cs, s, es)
    decreases |es|
  {
    es != []
    && (|| (es[0] == Event(r, ByRotator(Drop)) && |s.states[r].hist.home| <= i < |s.states[r].hist.home| +
        |s.states[r].front.acc|)
        || DroppedIn(cs, Happened(cs, s, es[0]), es[1..], r, i))
  }

  predicate HasNoHome(h: History, i: nat) {
    i < |h.home| && h.home[i] == None
  }

  lemma StepDropsOnly(c: Config, s: State, w: World, a: Action, i: nat)
    requires Enabled(c, s, a)
    ensures HasNoHome(NextState(c, s, w, a).hist, i)
       <==> HasNoHome(s.hist, i) || (a == ByRotator(Drop) && |s.hist.home| <= i < |s.hist.home| + |s.front.acc|)
  {
    hide CommitStep, CommitCan, EncodeWork, MessageCost, CostOf, Representable, AckFlush, AllResolved, FramedCost,
         FramingOf;
    if a.ByCommitter? {
      CommitKeepsHistory(c, s, w, a.committer);
    }
  }

  lemma CommitKeepsHistory(c: Config, s: State, w: World, a: CommitAction)
    requires CommitCan(s, a)
    ensures CommitStep(c, s, w, a).hist == s.hist
  {
    hide Outcomes, Stored, Unstored, Rewritten, Matches, ItemsOf, Committer.TakeCount, Committer.Taken, Committer.Left;
  }

  lemma {:induction false} DroppedIsHistory(cs: Configs, s: System, es: seq<Event>, r: nat, i: nat)
    requires Possible(cs, s, es) && r in s.states
    ensures r in Final(cs, s, es).states
    ensures HasNoHome(Final(cs, s, es).states[r].hist, i) <==>
            HasNoHome(s.states[r].hist, i) || DroppedIn(cs, s, es, r, i)
    decreases |es|
  {
    hide Enabled, NextState, NextWorld, HasNoHome;
    if es == [] {
    } else {
      var e := es[0];
      StepDropsOnly(cs[e.run], s.states[e.run], s.world, e.action, i);
      DroppedIsHistory(cs, Happened(cs, s, e), es[1..], r, i);
    }
  }

  /** In every run a message is without a batch, though no longer queued, exactly when it was dropped, and then
      it was told of the shutdown. */
  lemma DroppedInEveryRun(cs: Configs, path: Path, base: Log, start: System, es: seq<Event>, r: nat, i: nat)
    requires Cluster(cs, path) && Start(cs, path, base, start) && Possible(cs, start, es) && r in cs
    ensures r in Final(cs, start, es).states
    ensures var p := Final(cs, start, es).states[r];
            && (HasNoHome(p.hist, i) <==> DroppedIn(cs, start, es, r, i))
            && (HasNoHome(p.hist, i) ==> i in p.acct.watchers && p.acct.watchers[i] == Some(Shutdown))
  {
    hide Cluster, Possible, Final, DroppedIn, Conserved, FlowInv.Phases, FlowInv.Cursor, GatesInv.Gated, GatesInv.Typed,
         InOrder, Housed, LedgerInv.Balanced, Flushing, Shared;
    LocalInEveryRun(cs, path, base, start, es, r);
    DroppedIsHistory(cs, start, es, r, i);
  }

  // ---------- the group in hand at a halt ----------

  lemma {:induction false} DecidedRun(cs: Configs, path: Path, base: Log, s: System, es: seq<Event>, r: nat, o: nat,
                                      t: Trail)
    requires Cluster(cs, path) && Good(cs, path, base, s) && Possible(cs, s, es) && r in cs && r in s.states
    requires Decided(s.states[r].jobs, s.states[r].hist, o)
    ensures r in Final(cs, s, es).states && Decided(Final(cs, s, es).states[r].jobs, Final(cs, s, es).states[r].hist, o)
    ensures TrailOf(cs, s, es, r, o, t) == t
    decreases |es|
  {
    hide Cluster, Good, Enabled, NextState, NextWorld, Decided, UploadEnds, CommitEnds;
    if es == [] {
    } else {
      var e := es[0];
      StepIsGood(cs, path, base, s, e);
      if e.run == r {
        ConservedOf(cs, path, base, s, r);
        StaysDecided(cs[r], s.states[r], s.world, e.action, o);
        DecidedEndsNothing(cs[r], s.states[r], s.world, e.action, o);
      }
      DecidedRun(cs, path, base, Happened(cs, s, e), es[1..], r, o, t);
    }
  }

  lemma ConservedOf(cs: Configs, path: Path, base: Log, s: System, r: nat)
    requires Good(cs, path, base, s) && r in cs
    ensures r in s.states && Conserved(s.states[r].jobs, s.states[r].hist)
  {
    hide Shared, Chained, Conserved, FlowInv.Phases, FlowInv.Cursor, GatesInv.Gated, GatesInv.Typed, InOrder, Housed,
         Resolved, LedgerInv.Balanced, Flushing;
  }

  /** The halting step decides the whole group. */
  lemma HaltDecides(c: Config, s: State, w: World, a: Action, x: nat, t: Trail)
    requires Local(c, s) && Enabled(c, s, a) && !s.jobs.halted && NextState(c, s, w, a).jobs.halted
    requires FlowInv.InCas(s.jobs.com) && x < |s.jobs.com.taken|
    requires Tracked(c, s, s.jobs.com.taken[x].batch.ordinal, t)
    ensures var o, s', t' := s.jobs.com.taken[x].batch.ordinal, NextState(c, s, w, a),
            Followed(c, s, w, a, s.jobs.com.taken[x].batch.ordinal, t);
            && Decided(s'.jobs, s'.hist, o)
            && Verdict(t') == Some(if s.jobs.com.taken[x].work ==
                Finished(None) then Some(ProducerHalted) else JobError(s.jobs.com.taken[x]))
  {
    hide Conserved, FlowInv.Cursor, GatesInv.Gated, InOrder, Housed, Resolved, LedgerInv.Balanced, Flushing, Stored,
         Outcomes, CallerCan, RotatorCan, WorkerCan, ResolverCan, CommitStep, CallerStep, RotatorStep, WorkerStep,
         ResolverStep, Judged, Answered, Absent, EncodeResult, Rewritten, ItemsOf, WriteApplies, GatesInv.EncoderWork,
         GatesInv.UploaderWork;
    var com, j := s.jobs.com, s.jobs.com.taken[x];
    var o := j.batch.ordinal;
    OnlyTheCommitterHalts(c, s, w, a);
    var e, err := CasEnds(c, s, w, a.committer, o, t);
    SettledBelow(c, s, NextState(c, s, w, a), o);
    StoredIffNil(com.taken, x);
  }

  lemma OnlyTheCommitterHalts(c: Config, s: State, w: World, a: Action)
    requires Enabled(c, s, a) && !s.jobs.halted && NextState(c, s, w, a).jobs.halted
    ensures a.ByCommitter? && (a.committer.CasRead? || a.committer.CasWrite?)
    ensures a.committer != CasWrite(Truthful) && !FlowInv.InCas(NextState(c, s, w, a).jobs.com)
  {
    hide Outcomes, Stored, Unstored, Rewritten, Matches, ItemsOf, Committer.TakeCount, Committer.Taken, Committer.Left,
         EncodeWork, MessageCost, Representable, CostOf, AckFlush, AllResolved, FramedCost, FramingOf;
  }

  /** A job of the group is among the stored ones exactly when its upload succeeded. */
  lemma StoredIffNil(taken: seq<Job>, x: nat)
    requires x < |taken| && forall i, k :: 0 <= i < k < |taken| ==> taken[i].batch.ordinal != taken[k].batch.ordinal
    ensures taken[x].batch.ordinal in Ordinals(Stored(taken)) <==> taken[x].work == Finished(None)
  {
    hide Stored;
    StoredIsPart(taken);
    WorldInv.SplitByStorage(taken);
    if taken[x].work == Finished(None) {
      StoredHas(taken, x);
      var y :| 0 <= y < |Stored(taken)| && Stored(taken)[y] == taken[x];
      assert Ordinals(Stored(taken))[y] == taken[x].batch.ordinal;
    }
    if taken[x].batch.ordinal in Ordinals(Stored(taken)) {
      var y :| 0 <= y < |Ordinals(Stored(taken))| && Ordinals(Stored(taken))[y] == taken[x].batch.ordinal;
      var k :| 0 <= k < |taken| && taken[k] == Stored(taken)[y];
      assert taken[k].batch.ordinal == taken[x].batch.ordinal;
    }
  }

  lemma {:induction false} StoredHas(js: seq<Job>, x: nat)
    requires x < |js| && js[x].work == Finished(None)
    ensures js[x] in Stored(js)
  {
    if x == |js| - 1 {
    } else {
      StoredHas(js[..|js| - 1], x);
    }
  }

  /** A halt and the group in hand: an event of producer `r` halts it while its committer holds a group. In every
      continuation, the messages of a batch of that group are told of the halt if the batch's upload
      had succeeded, and of the batch's own error otherwise. */
  lemma HaltedGroupInEveryRun(cs: Configs, path: Path, base: Log, start: System, es: seq<Event>, e: Event,
                              more: seq<Event>, x: nat, i: nat)
    requires Cluster(cs, path) && Start(cs, path, base, start) && Possible(cs, start, es)
    requires var now := Final(cs, start, es);
             && CanHappen(cs, now, e) && Possible(cs, Happened(cs, now, e), more)
             && !now.states[e.run].jobs.halted && Happened(cs, now, e).states[e.run].jobs.halted
             && FlowInv.InCas(now.states[e.run].jobs.com) && x < |now.states[e.run].jobs.com.taken|
    ensures var j, later := Final(cs, start, es).states[e.run].jobs.com.taken[x],
            Final(cs, Happened(cs, Final(cs, start, es), e), more);
            && e.run in later.states
            && var q := later.states[e.run];
               i in q.acct.watchers && i < |q.hist.home| && q.hist.home[i] == Some(j.batch.ordinal) ==>
                 q.acct.watchers[i] == if j.work == Finished(None) then Some(ProducerHalted) else JobError(j)
  {
    hide Cluster, Start, Possible, Final, Good, Enabled, NextState, NextWorld, Tracked, Followed, Local, Decided,
         Verdict, TrailOf;
    var now, r := Final(cs, start, es), e.run;
    var j := now.states[r].jobs.com.taken[x];
    var o := j.batch.ordinal;
    var t := TrackedInEveryRun(cs, path, base, start, es, r, o);
    ReachableIsGood(cs, path, base, start, es);
    LocalOf(cs, path, base, now, r);
    HaltDecides(cs[r], now.states[r], now.world, e.action, x, t);
    EventTracks(cs, path, base, now, e, r, o, t);
    StepIsGood(cs, path, base, now, e);
    var s1, t1 := Happened(cs, now, e), TrailAfter(cs, now, e, r, o, t);
    RunTracks(cs, path, base, s1, more, r, o, t1);
    DecidedRun(cs, path, base, s1, more, r, o, t1);
    TrackedTells(cs[r], Final(cs, s1, more).states[r], o, t1, i);
  }

  lemma TrackedInEveryRun(cs: Configs, path: Path, base: Log, start: System, es: seq<Event>, r: nat,
                          o: nat) returns (t: Trail)
    requires Cluster(cs, path) && Start(cs, path, base, start) && Possible(cs, start, es) && r in cs
    ensures r in Final(cs, start, es).states && Tracked(cs[r], Final(cs, start, es).states[r], o, t)
    ensures t == TrailOf(cs, start, es, r, o, NOTHING)
  {
    hide Possible, Final, Good, Tracked, TrailOf, Apart, ValidConfig;
    StartIsGood(cs, path, base, start);
    StartTracks(cs[r], o);
    RunTracks(cs, path, base, start, es, r, o, NOTHING);
    t := TrailOf(cs, start, es, r, o, NOTHING);
  }

  lemma TrackedTells(c: Config, s: State, o: nat, t: Trail, i: nat)
    requires Tracked(c, s, o, t)
    ensures i in s.acct.watchers && i < |s.hist.home| && s.hist.home[i] == Some(o) ==>
            Verdict(t) == Some(s.acct.watchers[i])
  {
    hide Pending, Judged, Sane, Verdict;
  }

  // ---------- commits and halts do not cross ----------

  /** Once batch `b` is committed, every smaller ordinal is decided, and not by a halt. */
  predicate Cleared(s: State, b: Trail, o: nat, t: Trail) {
    && (SaysHalted(t) ==> s.jobs.halted)
    && (b.commit == Some(WrittenOk) ==> Decided(s.jobs, s.hist, o) && !SaysHalted(t))
  }

  lemma StepClears(c: Config, s: State, w: World, a: Action, b: nat, tb: Trail, o: nat, t: Trail)
    requires Local(c, s) && Enabled(c, s, a) && o < b && Cleared(s, tb, o, t)
    ensures Cleared(NextState(c, s, w, a), Followed(c, s, w, a, b, tb), o, Followed(c, s, w, a, o, t))
  {
    hide Conserved, FlowInv.Phases, FlowInv.Cursor, GatesInv.Gated, GatesInv.Typed, InOrder, Housed, Resolved,
         LedgerInv.Balanced, Flushing, Enabled, NextState, Decided, UploadEnds, CommitEnds;
    HaltStays(c, s, w, a, o, t);
    if CommitEnds(c, s, w, a, b) == Some(WrittenOk) {
      CommitClearsBelow(c, s, w, a, b, o, t);
    } else if tb.commit == Some(WrittenOk) {
      StaysDecided(c, s, w, a, o);
      DecidedEndsNothing(c, s, w, a, o);
    }
  }

  lemma {:induction false} RunClears(cs: Configs, path: Path, base: Log, s: System, es: seq<Event>, r: nat, b: nat,
                                     tb: Trail, o: nat, t: Trail)
    requires Cluster(cs, path) && Good(cs, path, base, s) && Possible(cs, s, es) && r in cs && r in s.states
    requires o < b && Cleared(s.states[r], tb, o, t)
    ensures r in Final(cs, s, es).states
    ensures Cleared(Final(cs, s, es).states[r], TrailOf(cs, s, es, r, b, tb), o, TrailOf(cs, s, es, r, o, t))
    decreases |es|
  {
    hide Cluster, Good, Enabled, NextState, NextWorld, Cleared, Followed, Local;
    if es == [] {
    } else {
      var e := es[0];
      StepIsGood(cs, path, base, s, e);
      LocalOf(cs, path, base, s, r);
      if e.run == r {
        StepClears(cs[r], s.states[r], s.world, e.action, b, tb, o, t);
      }
      RunClears(cs, path, base, Happened(cs, s, e), es[1..], r, b, TrailAfter(cs, s, e, r, b, tb), o,
                TrailAfter(cs, s, e, r, o, t));
    }
  }

  /** In every run: if some batch was told nil, no message of an earlier batch is ever told of a halt. */
  lemma NoHaltBelowCommit(cs: Configs, path: Path, base: Log, start: System, es: seq<Event>, r: nat, i: nat, o: nat,
                          k: nat, b: nat)
    requires Cluster(cs, path) && Start(cs, path, base, start) && Possible(cs, start, es) && r in cs
            && r in Final(cs, start, es).states
    requires var p := Final(cs, start, es).states[r];
             && i in p.acct.watchers && i < |p.hist.home| && p.hist.home[i] == Some(o)
             && k in p.acct.watchers && k < |p.hist.home| && p.hist.home[k] == Some(b) && p.acct.watchers[k] == None
    requires o < b
    ensures Final(cs, start, es).states[r].acct.watchers[i] != Some(ProducerHalted)
    ensures !CommitEnded(cs, start, es, r, o, HaltedInHand) && !CommitEnded(cs, start, es, r, o, Refused)
  {
    hide Possible, Final, Good, Tracked, TrailOf, Apart, ValidConfig, UploadEnded, CommitEnded, Decided;
    var t := ResolvedTrail(cs, path, base, start, es, r, i, o);
    var tb := ResolvedTrail(cs, path, base, start, es, r, k, b);
    StartIsGood(cs, path, base, start);
    RunClears(cs, path, base, start, es, r, b, NOTHING, o, NOTHING);
    OwnErrorIsNoHalt(cs[r], Final(cs, start, es).states[r], o, t);
  }

  /** No upload error reads like a halt. */
  lemma OwnErrorIsNoHalt(c: Config, s: State, o: nat, t: Trail)
    requires Tracked(c, s, o, t)
    ensures Verdict(t) == Some(Some(ProducerHalted)) ==> SaysHalted(t)
  {
    hide Pending, Judged, Answered, EncodeResult;
    if o < |s.hist.emitted| {
      EncodeErrors(c, s.hist.emitted[o]);
    }
  }

  // ---------- how often a batch is in the manifest ----------

  /** The step is a manifest write of a group carrying batch `o` that takes effect. */
  predicate Writes(c: Config, s: State, w: World, a: Action, o: nat) {
    && a.ByCommitter? && a.committer.CasWrite? && s.jobs.com.Writing? && InGroup(s.jobs.com, o)
    && WriteApplies(c, s, w, a.committer.answer)
  }

  /** Writes carrying batch `o` that took effect and were reported as failed. */
  function LostWrites(cs: Configs, s: System, es: seq<Event>, r: nat, o: nat): nat
    requires Possible(cs, s, es)
    decreases |es|
  {
    if es == [] then 0
    else
      (if es[0].run == r && Writes(cs[r], s.states[r], s.world, es[0].action, o)
          && es[0].action.committer.answer != Truthful then 1 else 0)
      + LostWrites(cs, Happened(cs, s, es[0]), es[1..], r, o)
  }

  lemma StepCarries(c: Config, s: State, w: World, a: Action, o: nat)
    requires Enabled(c, s, a)
    ensures Carrying(NextWorld(c, s, w, a).blocks, c.run, o) ==
            Carrying(w.blocks, c.run, o) + if Writes(c, s, w, a, o) then 1 else 0
    ensures CommitEnds(c, s, w, a, o) == Some(WrittenOk) <==> Writes(c, s, w, a, o) && a.committer.answer == Truthful
  {
    hide Stored, ItemsOf, Ordinals, Matches, EncodeResult, Rewritten, Carrying, CallerCan, RotatorCan, WorkerCan,
         ResolverCan;
    if a.ByCommitter? && a.committer.CasWrite? {
      WriteCarries(c, s, w, a.committer.answer, o);
    }
  }

  lemma WriteCarries(c: Config, s: State, w: World, answer: Answer, o: nat)
    requires CommitCan(s, CasWrite(answer))
    ensures var a := ByCommitter(CasWrite(answer));
            && Carrying(CasWritten(c, s, w, answer).blocks, c.run, o)
               == Carrying(w.blocks, c.run, o) + (if Writes(c, s, w, a, o) then 1 else 0)
            && (CommitEnds(c, s, w, a, o) == Some(WrittenOk) <==> Writes(c, s, w, a, o) && answer == Truthful)
  {
    hide Stored, ItemsOf, Ordinals, Matches, Carrying;
    var taken := Stored(s.jobs.com.taken);
    OneMoreBlock(w.blocks, Block(c.run, Ordinals(taken), ItemsOf(c, taken)), c.run, o);
  }

  lemma OneMoreBlock(blocks: seq<Block>, block: Block, run: nat, o: nat)
    ensures Carrying(blocks + [block], run, o)
         == Carrying(blocks, run, o) + if block.run == run && o in block.ordinals then 1 else 0
  {
    assert (blocks + [block])[..|blocks|] == blocks;
  }

  lemma OtherCarries(c: Config, w: World, w': World, r: nat, o: nat)
    requires Touches(c, w, w') && c.run != r
    ensures Carrying(w'.blocks, r, o) == Carrying(w.blocks, r, o)
  {
    hide BlocksInv.Versioned;
  }

  /** What one event adds to the count, and to the trail. */
  lemma EventCarries(cs: Configs, path: Path, base: Log, s: System, e: Event, r: nat, o: nat, t: Trail)
    requires Cluster(cs, path) && Good(cs, path, base, s) && CanHappen(cs, s, e) && r in cs && r in s.states
    requires Tracked(cs[r], s.states[r], o, t)
    ensures var t' := TrailAfter(cs, s, e, r, o, t);
            Carrying(Happened(cs, s, e).world.blocks, r, o) - Carrying(s.world.blocks, r, o)
            == (if e.run == r && Writes(cs[r], s.states[r], s.world, e.action, o)
                && e.action.committer.answer != Truthful then 1 else 0)
               + (if t'.commit == Some(WrittenOk) then 1 else 0) - (if t.commit == Some(WrittenOk) then 1 else 0)
  {
    hide Local, Shared, Chained, BlocksInv.Versioned, Touches, ValidConfig, Apart, Enabled, NextState, NextWorld,
         Pending, Judged, Answered, Sane, Carrying, Writes, CommitEnds, UploadEnds;
    var c, p, w := cs[e.run], s.states[e.run], s.world;
    if e.run == r {
      StepCarries(c, p, w, e.action, o);
      if CommitEnds(c, p, w, e.action, o).Some? {
        TypedOf(c, p);
        CommitEndsOnce(c, p, w, e.action, o, t);
      }
    } else {
      StepTouches(c, p, w, e.action);
      OtherCarries(c, w, NextWorld(c, p, w, e.action), r, o);
    }
  }

  lemma {:induction false} RunCarries(cs: Configs, path: Path, base: Log, s: System, es: seq<Event>, r: nat, o: nat,
                                      t: Trail)
    requires Cluster(cs, path) && Good(cs, path, base, s) && Possible(cs, s, es) && r in cs && r in s.states
    requires Tracked(cs[r], s.states[r], o, t)
    ensures Carrying(Final(cs, s, es).world.blocks, r, o) - Carrying(s.world.blocks, r, o)
         == LostWrites(cs, s, es, r, o) + (if TrailOf(cs, s, es, r, o, t).commit == Some(WrittenOk) then 1 else 0)
            - (if t.commit == Some(WrittenOk) then 1 else 0)
    decreases |es|
  {
    hide Cluster, Good, Enabled, NextState, NextWorld, Tracked, TrailAfter, Writes, Carrying;
    if es == [] {
    } else {
      var e := es[0];
      StepIsGood(cs, path, base, s, e);
      EventTracks(cs, path, base, s, e, r, o, t);
      EventCarries(cs, path, base, s, e, r, o, t);
      RunCarries(cs, path, base, Happened(cs, s, e), es[1..], r, o, TrailAfter(cs, s, e, r, o, t));
    }
  }

  /** The exact count, in every run: the manifest carries a batch once for every write that took effect and was
      reported as failed, and once more if a write was reported as done. Without ambiguous answers every
      batch is in the manifest at most once. */
  lemma CarriedExactly(cs: Configs, path: Path, base: Log, start: System, es: seq<Event>, r: nat, o: nat)
    requires Cluster(cs, path) && Start(cs, path, base, start) && Possible(cs, start, es) && r in cs
    ensures Carrying(Final(cs, start, es).world.blocks, r, o)
         == LostWrites(cs, start, es, r, o) + if CommitEnded(cs, start, es, r, o, WrittenOk) then 1 else 0
  {
    hide Possible, Final, Good, Tracked, TrailOf, Apart, ValidConfig, CommitEnded, UploadEnded, LostWrites;
    StartIsGood(cs, path, base, start);
    StartTracks(cs[r], o);
    RunCarries(cs, path, base, start, es, r, o, NOTHING);
    TrailIsHistory(cs, path, base, start, es, r, o, NOTHING);
  }
}
