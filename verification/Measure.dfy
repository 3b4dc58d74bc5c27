/** A measure of the work left behind the rotator: every step of the stages lowers it, except that a
    rival's manifest write may cost one more round of read and write. */
module Measure {
  import opened Wrappers
  import opened ManifestLog
  import opened ObjStore
  import opened Accumulator
  import opened Committer
  import opened Pipeline
  import opened JobsInv
  import opened FlowInv
  import opened GatesInv
  import opened MessagesInv
  import opened LedgerInv
  import opened FlushInv
  import opened BlocksInv
  import opened ProducerInv
  import opened SharedInv
  import opened System
  import opened Progress
  import WorldInv
  import BatchCodec

  // ---------- the rank of a state ----------

  function Scaled(weight: nat, n: nat): nat {
    if n == 0 then 0 else Scaled(weight, n - 1) + weight
  }

  /** Weights per batch, falling from stage to stage. */
  function InReady(c: Config): nat { 3 * c.manifestAttempts + 7 }

  function InChan(c: Config): nat { InReady(c) + 3 }

  function Weight(c: Config, work: Work): nat {
    InChan(c) + match work
                case Encoding => c.uploadAttempts + 3
                case Encoded(_) => c.uploadAttempts + 2
                case Putting(_, attempt) => 1 + (if attempt < c.uploadAttempts then c.uploadAttempts - attempt else 0)
                case Finished(_) => 1
  }

  function Weights(c: Config, js: seq<Job>): nat {
    if js == [] then 0 else Weights(c, js[..|js| - 1]) + Weight(c, js[|js| - 1].work)
  }

  function Tries(c: Config, attempt: nat): nat {
    if attempt < c.manifestAttempts then 3 * (c.manifestAttempts - attempt) else 0
  }

  function PhaseRank(c: Config, com: Commit): nat {
    match com
    case Done => 0
    case Receiving => 1
    case Abandoning => 2
    case Grouping => 2
    case Gathering => 3
    case Delivering(_, _) => 3
    case Reading(_, attempt, _, _) => Tries(c, attempt) + 3
    case Writing(_, attempt, _, _, _, _) => Tries(c, attempt) + 2
    case BackingOff(_, attempt) => Tries(c, attempt) + 1
  }

  function ResolverRank(res: Resolver): nat {
    match res
    case Idle => 0
    case Releasing(_) => 1
    case Resolving(_, _) => 2
  }

  function MessageCounts(emitted: seq<Batch>): seq<nat> {
    seq(|emitted|, o requires 0 <= o < |emitted| => |emitted[o].messages|)
  }

  function Handled(res: Resolver): nat {
    match res
    case Idle => 0
    case Releasing(job) => |job.batch.messages|
    case Resolving(_, done) => done
  }

  function GatesRank(g: Gates): nat {
    g.encLive + g.uplLive + (if g.encodedClosed then 0 else 1) + (if g.completionClosed then 0 else 1)
  }

  function CommitRank(c: Config, j: Jobs): nat {
    Scaled(InChan(c), |j.chan|) + Scaled(InReady(c), |j.ready|) + 4 * |Hand(j.com)| + PhaseRank(c, j.com)
    + if j.sawClose then 0 else 2
  }

  function WorkRank(c: Config, j: Jobs): nat {
    Scaled(InChan(c) + c.uploadAttempts + 4, |j.sending|) + Weights(c, j.enc) + Weights(c, j.upl)
  }

  /** Messages of batches in flight whose watchers are still to be resolved. */
  function Unresolved(h: History, res: Resolver): int {
    LiveSum(MessageCounts(h.emitted), h.released) - Handled(res)
  }

  function Rank(c: Config, s: State): int {
    WorkRank(c, s.jobs) + CommitRank(c, s.jobs) + ResolverRank(s.jobs.res) + Unresolved(s.hist,
            s.jobs.res) + GatesRank(s.gates)
  }

  /** The version the next conditional write will present is outdated. */
  predicate Stale(c: Config, com: Commit, objects: Objects) {
    com.Writing? && !Matches(objects, c.manifestPath, com.version)
  }

  /** The rank, and a charge for the conflict the committer is heading for. */
  function Potential(c: Config, s: State, w: World): int {
    Rank(c, s) + if Stale(c, s.jobs.com, w.objects) then 2 else 0
  }

  // ---------- sums ----------

  lemma {:induction false} WeightsConcat(c: Config, a: seq<Job>, b: seq<Job>)
    ensures Weights(c, a + b) == Weights(c, a) + Weights(c, b)
    decreases |b|
  {
    hide Weight;
    if b == [] {
      assert a + b == a;
    } else {
      WeightsConcat(c, a, b[..|b| - 1]);
      assert (a + b)[..|a + b| - 1] == a + b[..|b| - 1];
    }
  }

  lemma WeightsOne(c: Config, j: Job)
    ensures Weights(c, [j]) == Weight(c, j.work)
  {
    hide Weight;
    assert [j][..0] == [];
  }

  lemma WeightsSplit(c: Config, js: seq<Job>, i: nat, j: Job)
    requires i < |js|
    ensures Weights(c, js) == Weights(c, Without(js, i)) + Weight(c, js[i].work)
    ensures Weights(c, js[i := j]) == Weights(c, Without(js, i)) + Weight(c, j.work)
  {
    hide Weight, Weights;
    WeightsAround(c, js, i);
    WeightsAround(c, js[i := j], i);
    assert js[i := j][..i] == js[..i] && js[i := j][i + 1..] == js[i + 1..];
    WeightsConcat(c, js[..i], js[i + 1..]);
  }

  lemma WeightsAround(c: Config, js: seq<Job>, i: nat)
    requires i < |js|
    ensures Weights(c, js) == Weights(c, js[..i]) + Weight(c, js[i].work) + Weights(c, js[i + 1..])
  {
    hide Weight, Weights;
    assert js == (js[..i] + [js[i]]) + js[i + 1..];
    WeightsConcat(c, js[..i] + [js[i]], js[i + 1..]);
    WeightsConcat(c, js[..i], [js[i]]);
    WeightsOne(c, js[i]);
  }

  lemma ScaledOne(weight: nat, n: nat)
    ensures Scaled(weight, n + 1) == Scaled(weight, n) + weight
  {}

  lemma ScaledNone(weight: nat)
    ensures Scaled(weight, 0) == 0
  {}

  lemma {:induction false} ScaledLess(weight: nat, n: nat, k: nat)
    requires k <= n
    ensures Scaled(weight, n) == Scaled(weight, n - k) + Scaled(weight, k)
  {
    if k == 0 {
    } else {
      ScaledLess(weight, n, k - 1);
      assert Scaled(weight, n - k + 1) == Scaled(weight, n - k) + weight;
    }
  }

  lemma {:induction false} ScaledAtLeast(weight: nat, k: nat, extra: nat)
    requires k >= 1 && weight >= 4 + extra
    ensures Scaled(weight, k) >= 4 * k + extra
  {
    if k > 1 {
      ScaledAtLeast(weight, k - 1, extra);
    } else {
      assert Scaled(weight, 0) == 0;
    }
  }

  // ---------- steps ----------

  lemma SendDrops(c: Config, s: State)
    requires RotatorCan(c, s, Send)
    ensures WorkRank(c, DoSend(s).jobs) < WorkRank(c, s.jobs) || !s.jobs.sending[0].work.Encoding?
  {
    hide Weights;
    WeightsConcat(c, s.jobs.enc, s.jobs.sending);
    assert s.jobs.sending == [s.jobs.sending[0]];
    WeightsOne(c, s.jobs.sending[0]);
    assert Scaled(InChan(c) + c.uploadAttempts + 4, 1) == InChan(c) + c.uploadAttempts + 4 by {
      assert Scaled(InChan(c) + c.uploadAttempts + 4, 0) == 0;
    }
  }

  /** The rank of the pools, the committer and the gates. */
  function PoolRank(c: Config, s: State): nat {
    WorkRank(c, s.jobs) + CommitRank(c, s.jobs) + GatesRank(s.gates)
  }

  lemma EncodeDrops(c: Config, s: State, a: WorkerAction)
    requires Typed(c, s.jobs) && WorkerCan(c, s, a) && (a.Encode? || a.ToUploader? || a.ReportEncode?)
    ensures PoolRank(c, WorkerStep(c, s, a)) < PoolRank(c, s)
  {
    hide Weights, EncodeResult, Hand;
    var j := s.jobs.enc[a.i];
    assert EncoderWork(c, j);
    WeightsSplit(c, s.jobs.enc, a.i, j.(work := EncodeWork(c, j.batch)));
    if a.ToUploader? {
      var j' := j.(work := Putting(j.work.payload, 0));
      WeightsConcat(c, s.jobs.upl, [j']);
      WeightsOne(c, j');
    }
  }

  lemma UploadDrops(c: Config, s: State, a: WorkerAction)
    requires Typed(c, s.jobs) && WorkerCan(c, s, a) && (a.PutOk? || a.PutFail? || a.PutAbort? || a.ReportUpload?)
    ensures PoolRank(c, WorkerStep(c, s, a)) < PoolRank(c, s)
  {
    hide Weights, EncodeResult, Hand;
    var j := s.jobs.upl[a.i];
    assert UploaderWork(c, j);
    var work' := WorkerStep(c, s, a).jobs.upl;
    WeightsSplit(c, s.jobs.upl, a.i, if a.ReportUpload? then j else work'[a.i]);
  }

  /** Work on a batch in the pools, or a worker leaving. */
  lemma WorkDrops(c: Config, s: State, a: WorkerAction)
    requires Typed(c, s.jobs) && WorkerCan(c, s, a)
    ensures var s' := WorkerStep(c, s, a);
            && s'.hist == s.hist && s'.jobs.res == s.jobs.res && s'.jobs.com == s.jobs.com
            && PoolRank(c, s') < PoolRank(c, s)
  {
    hide Weights, EncodeResult, Hand, Typed;
    if a.Encode? || a.ToUploader? || a.ReportEncode? {
      hide PoolRank;
      EncodeDrops(c, s, a);
    } else if a.PutOk? || a.PutFail? || a.PutAbort? || a.ReportUpload? {
      hide PoolRank;
      UploadDrops(c, s, a);
    }
  }

  lemma {:induction false} LeftCount<T>(ready: map<nat, T>, next: nat, k: nat)
    requires forall o :: next <= o < next + k ==> o in ready
    ensures |Left(ready, next, k)| + k == |ready|
  {
    if k == 0 {
      assert Left(ready, next, k) == ready;
    } else {
      LeftCount(ready, next, k - 1);
      var o: nat := next + k - 1;
      assert o in Left(ready, next, k - 1);
      assert Left(ready, next, k) == Left(ready, next, k - 1) - {o};
      assert Left(ready, next, k).Keys == Left(ready, next, k - 1).Keys - {o};
    }
  }

  lemma {:induction false} SplitCount(js: seq<Job>)
    ensures |Stored(js)| + |Unstored(js)| == |js|
  {
    if js == [] {
    } else {
      SplitCount(js[..|js| - 1]);
    }
  }

  lemma OutcomesCount(taken: seq<Job>, err: Option<Error>)
    ensures |Outcomes(taken, err)| == |taken|
  {
    SplitCount(taken);
  }

  /** The rank of the committer and the resolver, messages apart. */
  function BackRank(c: Config, j: Jobs): nat {
    CommitRank(c, j) + ResolverRank(j.res)
  }

  lemma AddOne<T>(m: map<nat, T>, o: nat, t: T)
    ensures |m[o := t]| <= |m| + 1
  {
    CardinalityBelow(m[o := t].Keys, m.Keys + {o});
  }

  lemma {:induction false} ScaledGrows(weight: nat, a: nat, b: nat)
    requires a <= b
    ensures Scaled(weight, a) <= Scaled(weight, b)
  {
    if a == b {
    } else {
      ScaledGrows(weight, a, b - 1);
    }
  }

  lemma FileDrops(c: Config, s: State, w: World, a: CommitAction)
    requires CommitCan(s, a) && (a.Recv? || a.Gather?)
    ensures BackRank(c, CommitStep(c, s, w, a).jobs) < BackRank(c, s.jobs)
  {
    hide Scaled;
    var j := s.jobs;
    var x := j.chan[0];
    AddOne(j.ready, x.batch.ordinal, x);
    ScaledGrows(InReady(c), |j.ready[x.batch.ordinal := x]|, |j.ready| + 1);
    ScaledOne(InReady(c), |j.ready|);
    ScaledOne(InChan(c), |j.chan| - 1);
  }

  lemma RemoveOne<T>(m: map<nat, T>, o: nat)
    requires o in m
    ensures |m - {o}| + 1 == |m|
  {
    assert (m - {o}).Keys == m.Keys - {o};
  }

  lemma HandOnDrops(c: Config, s: State, w: World, a: CommitAction)
    requires Gated(c, s) && CommitCan(s, a)
    requires a.RecvClosed? || a.GatherEnd? || a.Deliver? || a.Delivered? || a.Abandon? || a.Abandoned?
    ensures BackRank(c, CommitStep(c, s, w, a).jobs) < BackRank(c, s.jobs)
  {
    hide Scaled;
    if a.Abandon? {
      AbandonDrops(c, s, a.o);
    }
  }

  lemma AbandonDrops(c: Config, s: State, o: nat)
    requires CommitCan(s, Abandon(o))
    ensures BackRank(c, DoAbandon(s, o).jobs) < BackRank(c, s.jobs)
  {
    hide Scaled;
    RemoveOne(s.jobs.ready, o);
    ScaledLess(InReady(c), |s.jobs.ready|, 1);
    ScaledAtLeast(InReady(c), 1, 0);
  }

  lemma GroupDrops(c: Config, s: State, w: World)
    requires ValidConfig(c) && s.jobs.com.Grouping?
    ensures BackRank(c, DoGroup(c, s, w).jobs) < BackRank(c, s.jobs)
  {
    hide Scaled, Stored, Unstored, Left, Taken, TakeCount, BatchCodec.Lossless;
    var j, k := s.jobs, TakeCount(s.jobs.ready, s.jobs.next, c.groupSize);
    if k > 0 {
      LeftCount(j.ready, j.next, k);
      ScaledLess(InReady(c), |j.ready|, k);
      ScaledAtLeast(InReady(c), k, 3 * c.manifestAttempts + 3);
      SplitCount(Taken(j.ready, j.next, k));
    }
  }

  predicate Conflict(c: Config, s: State, w: World, a: CommitAction) {
    a == CasWrite(Truthful) && s.jobs.com.Writing? && !WriteApplies(c, s, w, Truthful)
  }

  lemma CasDrops(c: Config, s: State, w: World, a: CommitAction)
    requires CommitCan(s, a) && (a.CasRead? || a.CasWrite? || a.CasRetry? || a.CasAbort?)
    requires Frontier(c, s.jobs, w.blocks) && !s.jobs.halted
    ensures BackRank(c, CommitStep(c, s, w, a).jobs) < BackRank(c, s.jobs) + (if Conflict(c, s, w, a) then 2 else 0)
  {
    hide Scaled, Stored, Unstored, Outcomes, Rewritten, Copies, AllLess, Matches, ItemsOf, AfterCasError;
    var taken := s.jobs.com.taken;
    if a.CasAbort? {
      OutcomesCount(taken, Some(Shutdown));
    } else if a.CasRead? || a.CasWrite? {
      OutcomesCount(taken, None);
      CasErrorDrops(c, s);
    }
  }

  lemma CasErrorDrops(c: Config, s: State)
    requires s.jobs.com.Reading? || s.jobs.com.Writing?
    requires s.jobs.com.attempt < c.manifestAttempts
    ensures BackRank(c, AfterCasError(c, s, s.jobs.com.taken, s.jobs.com.attempt).jobs) < BackRank(c, s.jobs)
  {
    hide Scaled, Outcomes;
    OutcomesCount(s.jobs.com.taken, Some(ProducerHalted));
  }

  lemma CommitDrops(c: Config, s: State, w: World, a: CommitAction)
    requires ValidConfig(c) && Gated(c, s) && Phases(s.jobs) && Frontier(c, s.jobs, w.blocks) && CommitCan(s, a)
    ensures BackRank(c, CommitStep(c, s, w, a).jobs) < BackRank(c, s.jobs) + (if Conflict(c, s, w, a) then 2 else 0)
  {
    hide ValidConfig, Gated, Frontier, CommitStep, BackRank, Stored;
    if a.Recv? || a.Gather? {
      FileDrops(c, s, w, a);
    } else if a.Group? {
      GroupDrops(c, s, w);
      assert CommitStep(c, s, w, a) == DoGroup(c, s, w) by {
        GroupIsStep(c, s, w);
      }
    } else if a.CasRead? || a.CasWrite? || a.CasRetry? || a.CasAbort? {
      CasDrops(c, s, w, a);
    } else {
      HandOnDrops(c, s, w, a);
    }
  }

  lemma GroupIsStep(c: Config, s: State, w: World)
    requires CommitCan(s, Group)
    ensures CommitStep(c, s, w, Group) == DoGroup(c, s, w)
  {}

  predicate Leaves(c: Config, s: State, s': State, w': World) {
    && WorkRank(c, s'.jobs) == WorkRank(c, s.jobs) && s'.hist == s.hist && s'.gates == s.gates
    && Handled(s'.jobs.res) == Handled(s.jobs.res) && !Stale(c, s'.jobs.com, w'.objects)
  }

  /** What a committer step leaves alone, and that it leaves no outdated version behind. */
  lemma CommitLeaves(c: Config, s: State, w: World, a: CommitAction)
    requires CommitCan(s, a)
    ensures Leaves(c, s, CommitStep(c, s, w, a), NextWorld(c, s, w, ByCommitter(a)))
    ensures Conflict(c, s, w, a) ==> Stale(c, s.jobs.com, w.objects)
  {
    hide CommitStep, NextWorld, WorkRank, Stale, Conflict, Handled;
    if a.CasRead? {
      ReadLeaves(c, s, w, a.fault);
    } else if a.CasWrite? {
      WriteLeaves(c, s, w, a.answer);
    } else {
      RestLeaves(c, s, w, a);
    }
  }

  lemma ReadLeaves(c: Config, s: State, w: World, fault: bool)
    requires CommitCan(s, CasRead(fault))
    ensures var a := CasRead(fault);
            Leaves(c, s, CommitStep(c, s, w, a), NextWorld(c, s, w, ByCommitter(a))) && !Conflict(c, s, w, a)
  {
    hide WorkRank, Outcomes, Stored, Rewritten, ItemsOf;
    SameWork(c, s.jobs, CommitStep(c, s, w, CasRead(fault)).jobs);
  }

  lemma WriteLeaves(c: Config, s: State, w: World, answer: Answer)
    requires CommitCan(s, CasWrite(answer))
    ensures var a := CasWrite(answer);
            Leaves(c, s, CommitStep(c, s, w, a), NextWorld(c, s, w, ByCommitter(a)))
    ensures Conflict(c, s, w, CasWrite(answer)) ==> Stale(c, s.jobs.com, w.objects)
  {
    hide WorkRank, Outcomes, Stored, ItemsOf, Matches;
    SameWork(c, s.jobs, CommitStep(c, s, w, CasWrite(answer)).jobs);
  }

  lemma RestLeaves(c: Config, s: State, w: World, a: CommitAction)
    requires CommitCan(s, a) && !a.CasRead? && !a.CasWrite?
    ensures Leaves(c, s, CommitStep(c, s, w, a), NextWorld(c, s, w, ByCommitter(a))) && !Conflict(c, s, w, a)
  {
    hide WorkRank, Outcomes, Stored, Unstored, TakeCount, Taken, Left;
    SameWork(c, s.jobs, CommitStep(c, s, w, a).jobs);
  }

  lemma SameWork(c: Config, j: Jobs, j': Jobs)
    ensures j'.sending == j.sending && j'.enc == j.enc && j'.upl == j.upl ==> WorkRank(c, j') == WorkRank(c, j)
  {}

  lemma ResolverDrops(c: Config, s: State, a: ResolverAction)
    requires Conserved(s.jobs, s.hist) && ResolverCan(s, a)
    ensures Rank(c, ResolverStep(s, a)) < Rank(c, s)
  {
    hide WorkRank, AckFlush, LiveSum, Conserved, Scaled;
    SameWork(c, s.jobs, ResolverStep(s, a).jobs);
    if a == Release {
      ReleasingIsLive(s.jobs, s.hist);
      LiveSumRelease(MessageCounts(s.hist.emitted), s.hist.released, s.jobs.res.job.batch.ordinal);
    }
  }

  /** Every step of the stages lowers the potential. */
  lemma StepDrops(c: Config, s: State, w: World, a: Action)
    requires ValidConfig(c) && Local(c, s) && Shared(c, s, w) && Enabled(c, s, a) && Internal(a)
    ensures Potential(c, NextState(c, s, w, a), NextWorld(c, s, w, a)) < Potential(c, s, w)
  {
    hide ValidConfig, Local, Shared, WorkRank, CommitRank, ResolverRank, GatesRank, Unresolved, Conserved, RotatorCan,
         WorkerCan, CommitCan, ResolverCan, RotatorStep, WorkerStep, CommitStep, ResolverStep, Stale, Conflict,
         WorkerWorld, CasWritten, Gated, Phases, Frontier;
    match a
    case ByRotator(_) => SendLowers(c, s, w);
    case ByWorker(x) => WorkLowers(c, s, w, x);
    case ByCommitter(x) =>
      CommitterReady(c, s, w);
      CommitLowers(c, s, w, x);
    case ByResolver(x) => ResolverLowers(c, s, w, x);
  }

  lemma SendLowers(c: Config, s: State, w: World)
    requires Local(c, s) && RotatorCan(c, s, Send)
    ensures Potential(c, RotatorStep(c, s, Send), w) < Potential(c, s, w)
  {
    hide WorkRank, GatesRank, Unresolved, Conserved, Phases, Cursor, Gated, InOrder, Housed, Resolved, Balanced,
         Flushing, Scaled;
    SendDrops(c, s);
  }

  lemma WorkLowers(c: Config, s: State, w: World, a: WorkerAction)
    requires ValidConfig(c) && Local(c, s) && WorkerCan(c, s, a)
    ensures Potential(c, WorkerStep(c, s, a), WorkerWorld(c, s, w, a)) < Potential(c, s, w)
  {
    hide ValidConfig, WorkRank, CommitRank, GatesRank, Unresolved, Conserved, Phases, Cursor, Gated, Typed, InOrder,
         Housed, Resolved, Balanced, Flushing, WorkerStep, WorkerCan, WorkerWorld;
    WorkDrops(c, s, a);
    WorkTouches(c, s, w, a);
  }

  lemma WorkTouches(c: Config, s: State, w: World, a: WorkerAction)
    requires ValidConfig(c) && WorkerCan(c, s, a)
    ensures VersionRead(WorkerWorld(c, s, w, a).objects, c.manifestPath) == VersionRead(w.objects, c.manifestPath)
  {
    hide EncodeResult, BatchCodec.Lossless;
  }

  lemma CommitterReady(c: Config, s: State, w: World)
    requires Local(c, s) && Shared(c, s, w)
    ensures Gated(c, s) && Phases(s.jobs) && Frontier(c, s.jobs, w.blocks)
  {
    hide Conserved, Phases, Cursor, Gated, Typed, InOrder, Housed, Resolved, Balanced, Flushing,
         WorldInv.AllRepresentable, WorldInv.JobsBacked, WorldInv.WatchersDurable, OwnBlocks, OwnOrder, CopiesBound,
         Frontier, Versions;
  }

  lemma CommitLowers(c: Config, s: State, w: World, a: CommitAction)
    requires CommitCan(s, a) && ValidConfig(c) && Gated(c, s) && Phases(s.jobs) && Frontier(c, s.jobs, w.blocks)
    ensures Potential(c, CommitStep(c, s, w, a), NextWorld(c, s, w, ByCommitter(a))) < Potential(c, s, w)
  {
    hide ValidConfig, WorkRank, CommitRank, GatesRank, Phases, Gated, CommitStep, CommitCan, NextWorld, Frontier, Stale,
         Conflict;
    CommitDrops(c, s, w, a);
    CommitLeaves(c, s, w, a);
  }

  lemma ResolverLowers(c: Config, s: State, w: World, a: ResolverAction)
    requires Local(c, s) && ResolverCan(s, a)
    ensures Potential(c, ResolverStep(s, a), w) < Potential(c, s, w)
  {
    hide Rank, Conserved, Phases, Cursor, Gated, Typed, InOrder, Housed, Resolved, Balanced, Flushing, AckFlush;
    ResolverDrops(c, s, a);
  }

  /** Callers, and a rotator that seals nothing, add no work. */
  lemma FrontAddsNothing(c: Config, s: State, w: World, a: Action)
    requires Enabled(c, s, a) && !Internal(a) && a != ByRotator(Seal)
    ensures Potential(c, NextState(c, s, w, a), NextWorld(c, s, w, a)) == Potential(c, s, w)
  {
    hide Potential, CallerCan, RotatorCan, NextWorld;
    FrontKeepsWork(c, s, w, a);
    SamePotential(c, s, NextState(c, s, w, a), w);
  }

  lemma FrontKeepsWork(c: Config, s: State, w: World, a: Action)
    requires Enabled(c, s, a) && !Internal(a) && a != ByRotator(Seal)
    ensures var s' := NextState(c, s, w, a);
            && s'.jobs == s.jobs && s'.gates == s.gates && s'.hist.emitted == s.hist.emitted
                && s'.hist.released == s.hist.released
            && NextWorld(c, s, w, a) == w
  {
    hide MessageCost, CostOf, Representable, AckFlush, AllResolved;
  }

  lemma SamePotential(c: Config, s: State, s': State, w: World)
    requires s'.jobs == s.jobs && s'.gates == s.gates && s'.hist.emitted == s.hist.emitted
            && s'.hist.released == s.hist.released
    ensures Potential(c, s', w) == Potential(c, s, w)
  {
    hide WorkRank, CommitRank, GatesRank, LiveSum;
  }

  /** A step of another producer adds at most one more conflict. */
  lemma RivalAdds(c: Config, q: Config, s: State, w: World, w': World)
    requires Touches(c, w, w') && q.manifestPath == c.manifestPath
    ensures Potential(q, s, w') <= Potential(q, s, w) + if |w'.blocks| > |w.blocks| then 2 else 0
  {
    hide Rank, Versioned;
  }

  lemma PotentialIsNat(c: Config, s: State, w: World)
    requires Local(c, s)
    ensures Potential(c, s, w) >= 0
  {
    hide WorkRank, CommitRank, GatesRank, ResolverRank, Conserved, Phases, Cursor, Gated, Typed, InOrder, Housed,
         Balanced, Flushing, LiveSum;
    if !s.jobs.res.Idle? {
      ReleasingIsLive(s.jobs, s.hist);
      LiveSumRelease(MessageCounts(s.hist.emitted), s.hist.released, s.jobs.res.job.batch.ordinal);
    }
  }

  // ---------- runs ----------

  /** Steps of the stages of producer `r`. */
  function Work(es: seq<Event>, r: nat): nat {
    if es == [] then 0 else (if es[0].run == r && Internal(es[0].action) then 1 else 0) + Work(es[1..], r)
  }

  /** Manifest writes by others. */
  function Foreign(blocks: seq<Block>, r: nat): nat {
    if blocks == [] then 0
    else Foreign(blocks[..|blocks| - 1], r) + if blocks[|blocks| - 1].run != r then 1 else 0
  }

  lemma ForeignGrows(c: Config, w: World, w': World, r: nat)
    requires Touches(c, w, w')
    ensures Foreign(w'.blocks, r) - Foreign(w.blocks, r) == if |w'.blocks| > |w.blocks| && c.run != r then 1 else 0
  {
    hide Versioned;
  }

  predicate SealsNothing(es: seq<Event>, r: nat) {
    forall k :: 0 <= k < |es| ==> es[k] != Event(r, ByRotator(Seal))
  }

  lemma StepBounds(cs: Configs, path: Path, base: Log, s: System, e: Event, r: nat)
    requires Cluster(cs, path) && Good(cs, path, base, s) && CanHappen(cs, s, e) && r in cs
            && e != Event(r, ByRotator(Seal))
    ensures r in s.states && r in Happened(cs, s, e).states
    ensures var s' := Happened(cs, s, e);
            (if e.run == r && Internal(e.action) then 1 else 0) + Potential(cs[r], s'.states[r], s'.world)
            <= Potential(cs[r], s.states[r], s.world) + 2 * (Foreign(s'.world.blocks, r) - Foreign(s.world.blocks, r))
  {
    hide Local, Shared, Chained, Versioned, Touches, ValidConfig, Apart, NextState, NextWorld, Enabled, Potential,
         Internal, Foreign;
    var c, p, w := cs[e.run], s.states[e.run], s.world;
    var w' := NextWorld(c, p, w, e.action);
    StepTouches(c, p, w, e.action);
    ForeignGrows(c, w, w', r);
    if e.run != r {
      RivalAdds(c, cs[r], s.states[r], w, w');
    } else if Internal(e.action) {
      StepDrops(c, p, w, e.action);
    } else {
      FrontAddsNothing(c, p, w, e.action);
    }
  }

  lemma {:induction false} RunBounds(cs: Configs, path: Path, base: Log, s: System, es: seq<Event>, r: nat)
    requires Cluster(cs, path) && Good(cs, path, base, s) && Possible(cs, s, es) && r in cs && SealsNothing(es, r)
    ensures r in s.states && r in Final(cs, s, es).states
    ensures var later := Final(cs, s, es);
            Work(es, r) + Potential(cs[r], later.states[r], later.world)
            <= Potential(cs[r], s.states[r], s.world) + 2 * (Foreign(later.world.blocks, r) - Foreign(s.world.blocks,
                    r))
    decreases |es|
  {
    hide Cluster, Local, Shared, Chained, Versioned, CanHappen, Happened, Potential, Foreign, Internal;
    if es == [] {
    } else {
      StepIsGood(cs, path, base, s, es[0]);
      StepBounds(cs, path, base, s, es[0], r);
      RunBounds(cs, path, base, Happened(cs, s, es[0]), es[1..], r);
    }
  }

  /** From any reachable state, as long as producer `r` seals no new batch: its stages take at most
      `Potential` steps, plus two for every manifest write by a rival, however the events interleave. If
      they can take no further step, no batch of the producer is in flight. */
  lemma WorkEnds(cs: Configs, path: Path, base: Log, start: System, es: seq<Event>, more: seq<Event>, r: nat)
    requires Cluster(cs, path) && Start(cs, path, base, start) && Possible(cs, start, es)
            && Possible(cs, Final(cs, start, es), more)
    requires r in cs && SealsNothing(more, r)
    ensures r in Final(cs, start, es).states && r in Final(cs, Final(cs, start, es), more).states
    ensures var now, later := Final(cs, start, es), Final(cs, Final(cs, start, es), more);
            && Work(more, r) <= Potential(cs[r], now.states[r],
                                          now.world) + 2 * (Foreign(later.world.blocks, r) - Foreign(now.world.blocks,
                                                  r))
            && ((forall a :: Internal(a) ==> !Enabled(cs[r], later.states[r], a)) ==> Live(later.states[r].hist) == {})
  {
    hide Start, Possible, Final, Local, Shared, Chained, Versioned, Potential, Foreign, Internal, Enabled, Work,
         SealsNothing, Apart, ValidConfig, Live;
    var now := Final(cs, start, es);
    ReachableIsGood(cs, path, base, start, es);
    RunBounds(cs, path, base, now, more, r);
    RunIsGood(cs, path, base, now, more);
    var p := Final(cs, now, more).states[r];
    PotentialIsNat(cs[r], p, Final(cs, now, more).world);
    if Live(p.hist) != {} {
      var a := NeverStuck(cs[r], p);
    }
  }

  // ---------- conflicts ----------

  /** Manifest writes since the `enqueueBatch` call in progress began. */
  function Moved(c: Config, com: Commit, objects: Objects): int
    requires com.Reading? || com.Writing?
  {
    VersionOf(objects, c.manifestPath) - com.startVersion
  }

  /** All of them are by others: an own write ends the call. */
  predicate Charged(c: Config, com: Commit, w: World) {
    com.Reading? || com.Writing? ==>
      && 0 <= Moved(c, com, w.objects) <= |w.blocks|
      && forall k :: |w.blocks| - Moved(c, com, w.objects) <= k < |w.blocks| ==> w.blocks[k].run != c.run
  }

  lemma CommitCharges(c: Config, s: State, w: World, a: CommitAction)
    requires CommitCan(s, a) && Charged(c, s.jobs.com, w)
    ensures Charged(c, CommitStep(c, s, w, a).jobs.com, NextWorld(c, s, w, ByCommitter(a)))
  {
    hide CommitStep, NextWorld, Charged;
    if a.CasRead? {
      ReadCharges(c, s, w, a.fault);
    } else if a.CasWrite? {
      WriteCharges(c, s, w, a.answer);
    } else {
      RestCharges(c, s, w, a);
    }
  }

  lemma ReadCharges(c: Config, s: State, w: World, fault: bool)
    requires CommitCan(s, CasRead(fault)) && Charged(c, s.jobs.com, w)
    ensures Charged(c, CommitStep(c, s, w, CasRead(fault)).jobs.com, NextWorld(c, s, w, ByCommitter(CasRead(fault))))
  {
    hide Outcomes, Stored, Rewritten, ItemsOf;
  }

  lemma WriteCharges(c: Config, s: State, w: World, answer: Answer)
    requires CommitCan(s, CasWrite(answer)) && Charged(c, s.jobs.com, w)
    ensures var a := CasWrite(answer);
            Charged(c, CommitStep(c, s, w, a).jobs.com, NextWorld(c, s, w, ByCommitter(a)))
  {
    hide Outcomes, Stored, ItemsOf, Matches;
  }

  lemma RestCharges(c: Config, s: State, w: World, a: CommitAction)
    requires CommitCan(s, a) && !a.CasRead? && !a.CasWrite? && Charged(c, s.jobs.com, w)
    ensures Charged(c, CommitStep(c, s, w, a).jobs.com, NextWorld(c, s, w, ByCommitter(a)))
  {
    hide Outcomes, Stored, Unstored, Taken, Left, TakeCount;
  }

  lemma OwnCharges(c: Config, s: State, w: World, a: Action)
    requires ValidConfig(c) && Enabled(c, s, a) && Charged(c, s.jobs.com, w)
    ensures Charged(c, NextState(c, s, w, a).jobs.com, NextWorld(c, s, w, a))
  {
    hide ValidConfig, CommitStep, CommitCan, EncodeWork, MessageCost, CostOf, Representable, AckFlush, AllResolved,
         FramedCost, FramingOf, CasWritten, WorkerWorld, WorkerCan, Charged;
    if a.ByCommitter? {
      CommitCharges(c, s, w, a.committer);
    } else if a.ByWorker? {
      WorkTouches(c, s, w, a.worker);
      WorkerKeepsCommitter(c, s, a.worker);
      PutElsewhere(c, s, w, a.worker);
      SameVersionCharges(c, s.jobs.com, w, NextWorld(c, s, w, a));
    }
  }

  lemma SameVersionCharges(c: Config, com: Commit, w: World, w': World)
    requires Charged(c, com, w) && w'.blocks == w.blocks
    requires VersionRead(w'.objects, c.manifestPath) == VersionRead(w.objects, c.manifestPath)
    ensures Charged(c, com, w')
  {}

  lemma RivalCharges(c: Config, q: Config, com: Commit, w: World, w': World)
    requires Touches(c, w, w') && Apart(c, q) && Charged(q, com, w)
    ensures Charged(q, com, w')
  {
    hide Versioned;
    if w'.blocks != w.blocks {
      forall k | 0 <= k < |w.blocks|
        ensures w'.blocks[k] == w.blocks[k]
      {
        assert w'.blocks[..|w.blocks|][k] == w'.blocks[k];
      }
    }
  }

  lemma {:induction false} RunCharges(cs: Configs, path: Path, s: System, es: seq<Event>, r: nat)
    requires Cluster(cs, path) && Possible(cs, s, es) && r in cs && r in s.states
            && Charged(cs[r], s.states[r].jobs.com, s.world)
    ensures r in Final(cs, s, es).states && Charged(cs[r], Final(cs, s, es).states[r].jobs.com, Final(cs, s, es).world)
    decreases |es|
  {
    hide ValidConfig, Apart, Enabled, NextState, NextWorld, Charged, Touches;
    if es == [] {
    } else {
      var e := es[0];
      var c, p := cs[e.run], s.states[e.run];
      if e.run == r {
        OwnCharges(c, p, s.world, e.action);
      } else {
        StepTouches(c, p, s.world, e.action);
        RivalCharges(c, cs[r], s.states[r].jobs.com, s.world, NextWorld(c, p, s.world, e.action));
      }
      RunCharges(cs, path, Happened(cs, s, e), es[1..], r);
    }
  }

  lemma {:induction false} AllForeign(blocks: seq<Block>, r: nat, from: nat)
    requires from <= |blocks| && forall k :: from <= k < |blocks| ==> blocks[k].run != r
    ensures Foreign(blocks, r) == Foreign(blocks[..from], r) + |blocks| - from
    decreases |blocks|
  {
    if from == |blocks| {
      assert blocks[..from] == blocks;
    } else {
      var earlier := blocks[..|blocks| - 1];
      AllForeign(earlier, r, from);
      assert earlier[..from] == blocks[..from];
    }
  }

  lemma StartCharges(cs: Configs, path: Path, base: Log, start: System, r: nat)
    requires Start(cs, path, base, start) && r in cs
    ensures r in start.states && Charged(cs[r], start.states[r].jobs.com, start.world)
  {}

  lemma RunIsOwn(cs: Configs, path: Path, r: nat)
    requires Cluster(cs, path) && r in cs
    ensures cs[r].run == r
  {
    hide ValidConfig, Apart;
  }

  lemma ChargedIsForeign(c: Config, com: Commit, w: World)
    requires Charged(c, com, w) && (com.Reading? || com.Writing?)
    ensures var since := Moved(c, com, w.objects);
            0 <= since <= |w.blocks| && Foreign(w.blocks, c.run) - Foreign(w.blocks[..|w.blocks| - since], c.run)
                == since
  {
    hide Foreign;
    AllForeign(w.blocks, c.run, |w.blocks| - Moved(c, com, w.objects));
  }

  lemma ConflictsMoved(cs: Configs, path: Path, base: Log, s: System, r: nat)
    requires Good(cs, path, base, s) && r in cs && r in s.states
    requires s.states[r].jobs.com.Reading? || s.states[r].jobs.com.Writing?
    ensures s.states[r].jobs.com.conflicts <= Moved(cs[r], s.states[r].jobs.com, s.world.objects)
  {
    hide Local, Chained, Versioned, WorldInv.AllRepresentable, WorldInv.JobsBacked, WorldInv.WatchersDurable, OwnBlocks,
         OwnOrder, CopiesBound, Frontier, Rewritten, Stored, ItemsOf;
    assert Shared(cs[r], s.states[r], s.world);
  }

  /** In every run: when the `enqueueBatch` call in progress began, the manifest had seen all but the last few
      writes; those are by others, and the call has counted at most one conflict for each. */
  lemma ConflictsAreCharged(cs: Configs, path: Path, base: Log, start: System, es: seq<Event>, r: nat)
    requires Cluster(cs, path) && Start(cs, path, base, start) && Possible(cs, start, es) && r in cs
            && r in Final(cs, start, es).states
    requires var com := Final(cs, start, es).states[r].jobs.com; com.Reading? || com.Writing?
    ensures var s := Final(cs, start, es); var com, blocks := s.states[r].jobs.com, s.world.blocks;
            var since := Moved(cs[r], com, s.world.objects);
            && 0 <= since <= |blocks|
            && com.conflicts <= Foreign(blocks, r) - Foreign(blocks[..|blocks| - since], r) == since
  {
    hide Cluster, Start, Possible, Final, Good, Foreign, Charged;
    ReachableIsGood(cs, path, base, start, es);
    StartCharges(cs, path, base, start, r);
    RunCharges(cs, path, start, es, r);
    var s := Final(cs, start, es);
    ConflictsMoved(cs, path, base, s, r);
    RunIsOwn(cs, path, r);
    ChargedIsForeign(cs[r], s.states[r].jobs.com, s.world);
  }
}
