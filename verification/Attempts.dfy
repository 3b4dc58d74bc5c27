/** How often things are tried, counted over the events of a run: the puts of a batch, the manifest calls of a
    group, and that nothing is cut short before the shutdown. */
module Attempts {
  import opened Wrappers
  import opened ManifestLog
  import opened ObjStore
  import opened Accumulator
  import opened Pipeline
  import opened JobsInv
  import opened MessagesInv
  import opened FlushInv
  import opened ProducerInv
  import opened SharedInv
  import opened System
  import opened EveryRun
  import opened Fates
  import opened Verdicts
  import FlowInv
  import GatesInv
  import LedgerInv
  import BatchCodec
  import Committer

  // ---------- puts of a batch ----------

  /** The step is a put of batch `o` that fails. */
  predicate PutFails(s: State, a: Action, o: nat) {
    a.ByWorker? && a.worker.PutFail? && Holding(s.jobs.upl, a.worker.i, o)
  }

  /** The step is a put of batch `o` that succeeds. */
  predicate PutSucceeds(s: State, a: Action, o: nat) {
    a.ByWorker? && a.worker.PutOk? && Holding(s.jobs.upl, a.worker.i, o)
  }

  /** What the number of failed and successful puts says about the end of the upload. */
  predicate Spent(c: Config, end: Option<UploadEnd>, fails: nat, oks: nat) {
    && oks == (if end == Some(UploadedOk) then 1 else 0)
    && match end
       case None => fails < c.uploadAttempts
       case Some(CannotEncode(_)) => fails == 0
       case Some(UploadedOk) => fails < c.uploadAttempts
       case Some(Exhausted) => fails == c.uploadAttempts
       case Some(Aborted) => 0 < fails < c.uploadAttempts
  }

  /** Batch `o` is not with the uploaders yet. */
  predicate Untried(js: seq<Job>, o: nat, fails: nat) {
    forall i :: 0 <= i < |js| && js[i].batch.ordinal == o ==> fails == 0
  }

  predicate Trying(js: seq<Job>, o: nat, fails: nat) {
    forall i :: 0 <= i < |js| && js[i].batch.ordinal == o && js[i].work.Putting? ==> js[i].work.attempt == fails
  }

  predicate Tried(c: Config, s: State, o: nat, end: Option<UploadEnd>, fails: nat, oks: nat) {
    && Spent(c, end, fails, oks) && (o >= |s.hist.emitted| ==> fails == 0)
    && Untried(s.jobs.sending, o, fails) && Untried(s.jobs.enc, o, fails) && Trying(s.jobs.upl, o, fails)
  }

  /** A put, or giving up between two of them. */
  lemma PutTries(c: Config, s: State, w: World, a: WorkerAction, o: nat, t: Trail, fails: nat, oks: nat)
    requires Conserved(s.jobs, s.hist) && Housed(s.hist) && Resolved(s.hist, s.acct.watchers, s.jobs.res)
    requires WorkerCan(c, s, a) && (a.PutOk? || a.PutFail? || a.PutAbort?) && Holding(s.jobs.upl, a.i, o)
    requires Tracked(c, s, o, t) && Tried(c, s, o, t.upload, fails, oks)
    ensures Tried(c, WorkerStep(c, s, a), o, Followed(c, s, w, ByWorker(a), o, t).upload,
                  fails + (if a.PutFail? then 1 else 0), oks + (if a.PutOk? then 1 else 0))
  {
    hide Conserved, Housed, Resolved, Live, Hand, InResolver, Judged, Answered, Sane, EncodeResult;
    OnlyInUpl(c, s, a.i);
    UplGenuine(s, a.i);
    assert FreshWork(s.jobs.upl[a.i].work, t);
  }

  lemma WorkerTries(c: Config, s: State, w: World, a: WorkerAction, o: nat, t: Trail, fails: nat, oks: nat)
    requires WorkerCan(c, s, a) && Tracked(c, s, o, t) && Tried(c, s, o, t.upload, fails, oks)
    requires a.PutOk? || a.PutFail? || a.PutAbort? ==> !Holding(s.jobs.upl, a.i, o)
    ensures Tried(c, WorkerStep(c, s, a), o, Followed(c, s, w, ByWorker(a), o, t).upload, fails, oks)
  {
    hide Tracked, Tried, Followed, WorkerStep;
    if a.Encode? && Holding(s.jobs.enc, a.i, o) {
      EncodeTries(c, s, w, a.i, o, t, fails, oks);
    } else {
      NoUploadEnds(c, s, w, a, o, t);
      MoveTries(c, s, a, o, t.upload, fails, oks);
    }
  }

  lemma EncodeTries(c: Config, s: State, w: World, i: nat, o: nat, t: Trail, fails: nat, oks: nat)
    requires WorkerCan(c, s, Encode(i)) && Tracked(c, s, o, t) && Tried(c, s, o, t.upload, fails, oks)
    requires Holding(s.jobs.enc, i, o)
    ensures Tried(c, WorkerStep(c, s, Encode(i)), o, Followed(c, s, w, ByWorker(Encode(i)), o, t).upload, fails, oks)
  {
    hide Judged, Answered, Sane, EncodeResult, Trying, CommitEnds;
    assert FreshWork(s.jobs.enc[i].work, t);
  }

  lemma NoUploadEnds(c: Config, s: State, w: World, a: WorkerAction, o: nat, t: Trail)
    requires a.Encode? ==> !Holding(s.jobs.enc, a.i, o)
    requires a.PutOk? || a.PutFail? || a.PutAbort? ==> !Holding(s.jobs.upl, a.i, o)
    ensures Followed(c, s, w, ByWorker(a), o, t).upload == t.upload
  {
    hide EncodeResult;
  }

  lemma MoveTries(c: Config, s: State, a: WorkerAction, o: nat, end: Option<UploadEnd>, fails: nat, oks: nat)
    requires WorkerCan(c, s, a) && Tried(c, s, o, end, fails, oks)
    requires a.PutOk? || a.PutFail? || a.PutAbort? ==> !Holding(s.jobs.upl, a.i, o)
    ensures Tried(c, WorkerStep(c, s, a), o, end, fails, oks)
  {
    hide Spent, EncodeResult;
  }

  lemma RotatorTries(c: Config, s: State, a: RotatorAction, o: nat, end: Option<UploadEnd>, fails: nat, oks: nat)
    requires RotatorCan(c, s, a) && Tried(c, s, o, end, fails, oks)
    ensures Tried(c, RotatorStep(c, s, a), o, end, fails, oks)
  {
    hide Spent, CostOf, FramedCost, FramingOf, Representable, AllResolved, AckFlush;
  }

  /** Everyone else leaves uploads alone. */
  lemma OthersTry(c: Config, s: State, s': State, o: nat, end: Option<UploadEnd>, fails: nat, oks: nat)
    requires Tried(c, s, o, end, fails, oks) && s'.hist.emitted == s.hist.emitted
    requires s'.jobs.sending == s.jobs.sending && s'.jobs.enc == s.jobs.enc && s'.jobs.upl == s.jobs.upl
    ensures Tried(c, s', o, end, fails, oks)
  {}

  lemma CommitLeavesPools(c: Config, s: State, w: World, a: CommitAction)
    requires CommitCan(s, a)
    ensures var s' := CommitStep(c, s, w, a);
            && s'.hist == s.hist && s'.front == s.front && s'.jobs.sending == s.jobs.sending
            && s'.jobs.enc == s.jobs.enc && s'.jobs.upl == s.jobs.upl
  {
    hide Outcomes, Stored, Unstored, Stamped, Rewritten, Matches, ItemsOf, Committer.TakeCount, Committer.Taken,
         Committer.Left;
  }

  lemma OnlyWorkersUpload(c: Config, s: State, w: World, a: Action, o: nat, t: Trail)
    requires !a.ByWorker?
    ensures Followed(c, s, w, a, o, t).upload == t.upload && !PutFails(s, a, o) && !PutSucceeds(s, a, o)
  {
    hide CommitEnds;
  }

  lemma CallerLeavesPools(c: Config, s: State, a: CallerAction)
    requires CallerCan(c, s, a)
    ensures CallerStep(c, s, a).jobs == s.jobs && CallerStep(c, s, a).hist.emitted == s.hist.emitted
  {
    hide MessageCost, CostOf;
  }

  lemma StepTries(c: Config, s: State, w: World, a: Action, o: nat, t: Trail, fails: nat, oks: nat)
    requires Local(c, s) && Enabled(c, s, a) && Tracked(c, s, o, t) && Tried(c, s, o, t.upload, fails, oks)
    ensures Tried(c, NextState(c, s, w, a), o, Followed(c, s, w, a, o, t).upload,
                  fails + (if PutFails(s, a, o) then 1 else 0), oks + (if PutSucceeds(s, a, o) then 1 else 0))
  {
    hide Tried, Tracked, Followed, RotatorCan, RotatorStep, CallerCan, CallerStep, WorkerStep, CommitCan, CommitStep,
         Conserved, FlowInv.Phases, FlowInv.Cursor, GatesInv.Gated, GatesInv.Typed, InOrder, Housed, Resolved,
         LedgerInv.Balanced, Flushing, AckFlush;
    var s' := NextState(c, s, w, a);
    if a.ByWorker? {
      var x := a.worker;
      if (x.PutOk? || x.PutFail? || x.PutAbort?) && Holding(s.jobs.upl, x.i, o) {
        PutTries(c, s, w, x, o, t, fails, oks);
      } else {
        WorkerTries(c, s, w, x, o, t, fails, oks);
      }
    } else {
      OnlyWorkersUpload(c, s, w, a, o, t);
      match a
      case ByRotator(x) => RotatorTries(c, s, x, o, t.upload, fails, oks);
      case ByCaller(x) =>
        CallerLeavesPools(c, s, x);
        OthersTry(c, s, s', o, t.upload, fails, oks);
      case ByCommitter(x) =>
        CommitLeavesPools(c, s, w, x);
        OthersTry(c, s, s', o, t.upload, fails, oks);
      case ByResolver(_) => OthersTry(c, s, s', o, t.upload, fails, oks);
    }
  }

  /** Failed puts of batch `o` of run `r`. */
  function FailedPuts(cs: Configs, s: System, es: seq<Event>, r: nat, o: nat): nat
    requires Possible(cs, s, es)
    decreases |es|
  {
    if es == [] then 0
    else (if es[0].run == r && PutFails(s.states[r], es[0].action, o) then 1 else 0)
         + FailedPuts(cs, Happened(cs, s, es[0]), es[1..], r, o)
  }

  /** Successful puts of batch `o` of run `r`. */
  function GoodPuts(cs: Configs, s: System, es: seq<Event>, r: nat, o: nat): nat
    requires Possible(cs, s, es)
    decreases |es|
  {
    if es == [] then 0
    else (if es[0].run == r && PutSucceeds(s.states[r], es[0].action, o) then 1 else 0)
         + GoodPuts(cs, Happened(cs, s, es[0]), es[1..], r, o)
  }

  lemma {:induction false} RunTries(cs: Configs, path: Path, base: Log, s: System, es: seq<Event>, r: nat, o: nat,
                                    t: Trail, fails: nat, oks: nat)
    requires Cluster(cs, path) && Good(cs, path, base, s) && Possible(cs, s, es) && r in cs && r in s.states
    requires Tracked(cs[r], s.states[r], o, t) && Tried(cs[r], s.states[r], o, t.upload, fails, oks)
    ensures r in Final(cs, s, es).states
    ensures Tried(cs[r], Final(cs, s, es).states[r], o, TrailOf(cs, s, es, r, o, t).upload,
                  fails + FailedPuts(cs, s, es, r, o), oks + GoodPuts(cs, s, es, r, o))
    decreases |es|
  {
    hide Cluster, Good, Enabled, NextState, NextWorld, Tracked, Tried, Followed, PutFails, PutSucceeds, Local;
    if es == [] {
    } else {
      var e := es[0];
      StepIsGood(cs, path, base, s, e);
      EventTracks(cs, path, base, s, e, r, o, t);
      var fails' := fails + if e.run == r && PutFails(s.states[r], e.action, o) then 1 else 0;
      var oks' := oks + if e.run == r && PutSucceeds(s.states[r], e.action, o) then 1 else 0;
      if e.run == r {
        LocalOf(cs, path, base, s, r);
        StepTries(cs[r], s.states[r], s.world, e.action, o, t, fails, oks);
      }
      RunTries(cs, path, base, Happened(cs, s, e), es[1..], r, o, TrailAfter(cs, s, e, r, o, t), fails', oks');
    }
  }

  lemma StartTries(cs: Configs, path: Path, base: Log, start: System, r: nat, o: nat)
    requires Cluster(cs, path) && Start(cs, path, base, start) && r in cs
    ensures r in start.states && Tracked(cs[r], start.states[r], o, NOTHING)
    ensures Tried(cs[r], start.states[r], o, None, 0, 0)
  {
    hide Apart, BatchCodec.Lossless;
  }

  /** In every run: the upload of a batch is exhausted exactly at its `uploadAttempts`-th failed put; no batch is put
      more often than that; it is uploaded exactly if one put succeeded; and it is given up at shutdown only
      between two attempts. */
  lemma PutsInEveryRun(cs: Configs, path: Path, base: Log, start: System, es: seq<Event>, r: nat, o: nat)
    requires Cluster(cs, path) && Start(cs, path, base, start) && Possible(cs, start, es) && r in cs
    ensures var fails, oks := FailedPuts(cs, start, es, r, o), GoodPuts(cs, start, es, r, o);
            && (UploadEnded(cs, start, es, r, o, Exhausted) <==> fails == cs[r].uploadAttempts)
            && (UploadEnded(cs, start, es, r, o, UploadedOk) <==> oks == 1)
            && (UploadEnded(cs, start, es, r, o, Aborted) ==> 0 < fails < cs[r].uploadAttempts)
            && fails + oks <= cs[r].uploadAttempts
  {
    hide Cluster, Start, Possible, Final, Good, Tracked, FailedPuts, GoodPuts, UploadEnded, CommitEnded, TrailOf;
    StartIsGood(cs, path, base, start);
    StartTries(cs, path, base, start, r, o);
    RunTries(cs, path, base, start, es, r, o, NOTHING, 0, 0);
    TrailIsHistory(cs, path, base, start, es, r, o, NOTHING);
  }

  /** A resolved message was told of a storage error exactly when its batch failed `uploadAttempts` puts and no halted
      committer turned the batch away. */
  lemma StorageInEveryRun(cs: Configs, path: Path, base: Log, start: System, es: seq<Event>, r: nat, i: nat, o: nat)
    requires Cluster(cs, path) && Start(cs, path, base, start) && Possible(cs, start, es) && r in cs
            && r in Final(cs, start, es).states
    requires var p := Final(cs, start, es).states[r];
             i in p.acct.watchers && i < |p.hist.home| && p.hist.home[i] == Some(o)
    ensures Final(cs, start, es).states[r].acct.watchers[i] == Some(Storage)
       <==> FailedPuts(cs, start, es, r, o) == cs[r].uploadAttempts && !CommitEnded(cs, start, es, r, o, Refused)
  {
    hide Cluster, Start, Possible, Final, FailedPuts, GoodPuts, UploadEnded, CommitEnded;
    OutcomeInEveryRun(cs, path, base, start, es, r, i, o);
    PutsInEveryRun(cs, path, base, start, es, r, o);
  }

  // ---------- manifest calls of a group ----------

  /** The step ends an `enqueueBatch` call with an error other than a conflict. */
  predicate CallFails(c: Config, s: State, w: World, a: Action) {
    match a
    case ByCommitter(CasRead(fault)) =>
      s.jobs.com.Reading?
      && (fault || Rewritten(DataAt(w.objects, c.manifestPath), ItemsOf(c, Stored(s.jobs.com.taken))).Err?)
    case ByCommitter(CasWrite(answer)) => s.jobs.com.Writing? && answer != Truthful
    case _ => false
  }

  /** Failed calls since the committer last took a group, after one more step. */
  function FailedAfter(c: Config, s: State, w: World, a: Action, fails: nat): nat {
    if a == ByCommitter(Group) then 0 else fails + if CallFails(c, s, w, a) then 1 else 0
  }

  predicate Counted(c: Config, com: Commit, fails: nat) {
    match com
    case Reading(_, attempt, _, _) => attempt == fails < c.manifestAttempts
    case Writing(_, attempt, _, _, _, _) => attempt == fails < c.manifestAttempts
    case BackingOff(_, attempt) => attempt + 1 == fails < c.manifestAttempts
    case _ => true
  }

  lemma CommitCounts(c: Config, s: State, w: World, a: CommitAction, fails: nat)
    requires c.manifestAttempts >= 1 && CommitCan(s, a) && Counted(c, s.jobs.com, fails) && !s.jobs.halted
    ensures Counted(c, CommitStep(c, s, w, a).jobs.com, FailedAfter(c, s, w, ByCommitter(a), fails))
    ensures CommitStep(c, s, w, a).jobs.halted
       <==> CallFails(c, s, w, ByCommitter(a)) && fails + 1 == c.manifestAttempts
    ensures CallFails(c, s, w, ByCommitter(a)) && fails + 1 < c.manifestAttempts ==>
              CommitStep(c, s, w, a).jobs.com.BackingOff?
  {
    hide Outcomes, Stored, Unstored, Stamped, Rewritten, Matches, ItemsOf, Committer.TakeCount, Committer.Taken,
         Committer.Left;
  }

  /** The batches of the group are told of the halt by exactly that call. */
  lemma HaltedCounts(c: Config, s: State, w: World, a: Action, o: nat, fails: nat)
    requires Counted(c, s.jobs.com, fails)
    ensures CommitEnds(c, s, w, a, o) == Some(HaltedInHand)
       <==> InGroup(s.jobs.com, o) && CallFails(c, s, w, a) && fails + 1 == c.manifestAttempts
  {
    hide Rewritten, ItemsOf, Ordinals, Stored, Matches;
  }

  lemma WorkerLeavesCommitter(c: Config, s: State, a: WorkerAction)
    requires WorkerCan(c, s, a)
    ensures WorkerStep(c, s, a).jobs.com == s.jobs.com && WorkerStep(c, s, a).jobs.halted == s.jobs.halted
  {
    hide EncodeWork, Without;
  }

  lemma OthersLeaveCommitter(c: Config, s: State, w: World, a: Action)
    requires Enabled(c, s, a) && !a.ByCommitter?
    ensures var s' := NextState(c, s, w, a);
            s'.jobs.com == s.jobs.com && s'.jobs.halted == s.jobs.halted
  {
    hide WorkerCan, WorkerStep, MessageCost, CostOf, Representable, FramedCost, FramingOf, AckFlush, AllResolved;
    if a.ByWorker? {
      WorkerLeavesCommitter(c, s, a.worker);
    }
  }

  lemma CommitterStaysHalted(c: Config, s: State, w: World, a: CommitAction)
    requires CommitCan(s, a) && s.jobs.halted
    ensures CommitStep(c, s, w, a).jobs.halted
  {
    hide Outcomes, Stored, Unstored, Stamped, Rewritten, Matches, ItemsOf, Committer.TakeCount, Committer.Taken,
         Committer.Left;
  }

  lemma StepCounts(c: Config, s: State, w: World, a: Action, fails: nat)
    requires c.manifestAttempts >= 1 && Enabled(c, s, a) && (s.jobs.halted || Counted(c, s.jobs.com, fails))
    ensures var s' := NextState(c, s, w, a);
            s'.jobs.halted || Counted(c, s'.jobs.com, FailedAfter(c, s, w, a, fails))
  {
    hide CallerCan, CallerStep, RotatorCan, RotatorStep, WorkerCan, WorkerStep, CommitCan, CommitStep, ResolverCan,
         ResolverStep, Counted;
    if !a.ByCommitter? {
      OthersLeaveCommitter(c, s, w, a);
    } else if s.jobs.halted {
      CommitterStaysHalted(c, s, w, a.committer);
    } else {
      CommitCounts(c, s, w, a.committer, fails);
    }
  }

  /** Failed calls of run `r` since its committer last took a group, after `fails` before `es`. */
  function FailedSince(cs: Configs, s: System, es: seq<Event>, r: nat, fails: nat): nat
    requires Possible(cs, s, es)
    decreases |es|
  {
    if es == [] then fails
    else FailedSince(cs, Happened(cs, s, es[0]), es[1..], r,
                     if es[0].run == r then FailedAfter(cs[r], s.states[r], s.world, es[0].action, fails) else fails)
  }

  lemma {:induction false} RunCounts(cs: Configs, s: System, es: seq<Event>, r: nat, fails: nat)
    requires Possible(cs, s, es) && r in cs && r in s.states && cs[r].manifestAttempts >= 1
    requires s.states[r].jobs.halted || Counted(cs[r], s.states[r].jobs.com, fails)
    ensures r in Final(cs, s, es).states
    ensures var j := Final(cs, s, es).states[r].jobs;
            j.halted || Counted(cs[r], j.com, FailedSince(cs, s, es, r, fails))
    decreases |es|
  {
    hide Enabled, NextState, NextWorld, Counted, FailedAfter;
    if es == [] {
    } else {
      var e := es[0];
      if e.run == r {
        StepCounts(cs[r], s.states[r], s.world, e.action, fails);
      }
      RunCounts(cs, Happened(cs, s, e), es[1..], r,
                if e.run == r then FailedAfter(cs[r], s.states[r], s.world, e.action, fails) else fails);
    }
  }

  lemma StartCounts(cs: Configs, path: Path, base: Log, start: System, r: nat)
    requires Cluster(cs, path) && Start(cs, path, base, start) && r in cs
    ensures cs[r].manifestAttempts >= 1 && r in start.states && Counted(cs[r], start.states[r].jobs.com, 0)
  {
    hide Apart, BatchCodec.Lossless;
  }

  /** In every run, whatever producer `r` does next, not being halted: it halts exactly if that ends an `enqueueBatch`
      call in an error and this is the `manifestAttempts`-th such call since it took its group; the batches of
      the group are then told so. An earlier failed call is tried again, and conflicts do not count. */
  lemma HaltsExactly(cs: Configs, path: Path, base: Log, start: System, es: seq<Event>, r: nat, a: Action, o: nat)
    requires Cluster(cs, path) && Start(cs, path, base, start) && Possible(cs, start, es) && r in cs
            && r in Final(cs, start, es).states
    requires !Final(cs, start, es).states[r].jobs.halted && Enabled(cs[r], Final(cs, start, es).states[r], a)
    ensures var c, p, w := cs[r], Final(cs, start, es).states[r], Final(cs, start, es).world;
            var last := CallFails(c, p, w, a) && FailedSince(cs, start, es, r, 0) + 1 == c.manifestAttempts;
            && (NextState(c, p, w, a).jobs.halted <==> last)
            && (CommitEnds(c, p, w, a, o) == Some(HaltedInHand) <==> InGroup(p.jobs.com, o) && last)
            && (CallFails(c, p, w, a) && !last ==> NextState(c, p, w, a).jobs.com.BackingOff?)
            && (a == ByCommitter(CasAbort) ==> 0 < FailedSince(cs, start, es, r, 0) < c.manifestAttempts)
  {
    hide Cluster, Start, Possible, Final, FailedSince, CallFails, CallerCan, CallerStep, RotatorCan, RotatorStep,
         WorkerCan, WorkerStep, CommitStep, ResolverCan, ResolverStep, InGroup, CommitEnds;
    StartCounts(cs, path, base, start, r);
    RunCounts(cs, start, es, r, 0);
    var c, p, w, fails := cs[r], Final(cs, start, es).states[r], Final(cs, start, es).world,
                          FailedSince(cs, start, es, r, 0);
    HaltedCounts(c, p, w, a, o, fails);
    if a.ByCommitter? {
      CommitCounts(c, p, w, a.committer, fails);
      CallBelow(c, p, w, a, fails);
    } else {
      OthersLeaveCommitter(c, p, w, a);
      OnlyCommitterCalls(c, p, w, a);
    }
  }

  lemma CallBelow(c: Config, s: State, w: World, a: Action, fails: nat)
    requires Counted(c, s.jobs.com, fails)
    ensures CallFails(c, s, w, a) ==> fails < c.manifestAttempts
  {
    hide Rewritten, ItemsOf, Stored;
  }

  lemma OnlyCommitterCalls(c: Config, s: State, w: World, a: Action)
    requires !a.ByCommitter?
    ensures !CallFails(c, s, w, a)
  {}

  // ---------- nothing is cut short before the shutdown ----------

  const FIRE := ByCaller(FireShutdown)

  /** The step gives something up because of the shutdown. */
  predicate CutsShort(a: Action) {
    a == ByRotator(Drop) || (a.ByWorker? && a.worker.PutAbort?) || a == ByCommitter(CasAbort)
  }

  lemma CutNeedsShutdown(c: Config, s: State, a: Action)
    requires Enabled(c, s, a) && CutsShort(a)
    ensures s.front.shutdown
  {}

  lemma OnlyFireShutsDown(c: Config, s: State, w: World, a: Action)
    requires Enabled(c, s, a)
    ensures NextState(c, s, w, a).front.shutdown <==> s.front.shutdown || a == FIRE
  {
    hide WorkerCan, WorkerStep, CommitCan, CommitStep, MessageCost, CostOf, Representable, FramedCost, FramingOf,
         AckFlush, AllResolved;
    if a.ByCommitter? {
      CommitLeavesPools(c, s, w, a.committer);
    } else if a.ByWorker? {
      WorkerLeavesFront(c, s, a.worker);
    }
  }

  lemma WorkerLeavesFront(c: Config, s: State, a: WorkerAction)
    requires WorkerCan(c, s, a)
    ensures WorkerStep(c, s, a).front == s.front
  {
    hide EncodeWork, Without;
  }

  lemma {:induction false} ShutdownIsEvent(cs: Configs, s: System, es: seq<Event>, r: nat)
    requires Possible(cs, s, es) && r in s.states
    ensures r in Final(cs, s, es).states
    ensures Final(cs, s, es).states[r].front.shutdown <==> s.states[r].front.shutdown || HasEvent(es, r, FIRE)
    decreases |es|
  {
    hide Enabled, NextState, NextWorld, HasEvent;
    if es == [] {
      NoEvent(r, FIRE);
    } else {
      var e := es[0];
      ShutdownIsEvent(cs, Happened(cs, s, e), es[1..], r);
      FirstOrLater(es, r, FIRE);
      if e.run == r {
        OnlyFireShutsDown(cs[r], s.states[r], s.world, e.action);
      }
    }
  }

  /** In every run: a rotator waiting for a slot can drop what it holds, an upload between two attempts can be given up
      and a group between two calls cancelled exactly if the shutdown has been fired. */
  lemma CutsExactly(cs: Configs, path: Path, base: Log, start: System, es: seq<Event>, r: nat, i: nat)
    requires Cluster(cs, path) && Start(cs, path, base, start) && Possible(cs, start, es) && r in cs
    ensures r in Final(cs, start, es).states
    ensures var c, p, fired := cs[r], Final(cs, start, es).states[r], HasEvent(es, r, FIRE);
            && (i < |p.jobs.upl| && p.jobs.upl[i].work.Putting? ==>
                  (Enabled(c, p, ByWorker(PutAbort(i))) <==>
                     fired && FailedPuts(cs, start, es, r, p.jobs.upl[i].batch.ordinal) > 0))
            && (p.jobs.com.BackingOff? ==> (Enabled(c, p, ByCommitter(CasAbort)) <==> fired))
            && (p.front.rot.Acquiring? && p.front.rot.parked ==> (Enabled(c, p, ByRotator(Drop)) <==> fired))
  {
    hide Cluster, Start, Possible, Final, FailedPuts, HasEvent, Enabled;
    StartsOpen(cs, path, base, start, r);
    ShutdownIsEvent(cs, start, es, r);
    AttemptIsFailedPuts(cs, path, base, start, es, r, i);
    CutGuards(cs[r], Final(cs, start, es).states[r], i);
  }

  lemma StartsOpen(cs: Configs, path: Path, base: Log, start: System, r: nat)
    requires Start(cs, path, base, start) && r in cs
    ensures r in start.states && !start.states[r].front.shutdown
  {}

  lemma CutGuards(c: Config, s: State, i: nat)
    ensures i < |s.jobs.upl| && s.jobs.upl[i].work.Putting? ==>
              (Enabled(c, s, ByWorker(PutAbort(i))) <==> s.front.shutdown && s.jobs.upl[i].work.attempt > 0)
    ensures s.jobs.com.BackingOff? ==> (Enabled(c, s, ByCommitter(CasAbort)) <==> s.front.shutdown)
    ensures s.front.rot.Acquiring? && s.front.rot.parked ==> (Enabled(c, s, ByRotator(Drop)) <==> s.front.shutdown)
  {}

  lemma AttemptIsFailedPuts(cs: Configs, path: Path, base: Log, start: System, es: seq<Event>, r: nat, i: nat)
    requires Cluster(cs, path) && Start(cs, path, base, start) && Possible(cs, start, es) && r in cs
    ensures r in Final(cs, start, es).states
    ensures var upl := Final(cs, start, es).states[r].jobs.upl;
            i < |upl| && upl[i].work.Putting? ==>
              upl[i].work.attempt == FailedPuts(cs, start, es, r, upl[i].batch.ordinal)
  {
    hide Cluster, Start, Possible, Final, Good, FailedPuts, GoodPuts, Tracked, TrailOf, Spent, Untried;
    StartIsGood(cs, path, base, start);
    StartsOpen(cs, path, base, start, r);
    ShutdownIsEvent(cs, start, es, r);
    var upl := Final(cs, start, es).states[r].jobs.upl;
    if i < |upl| && upl[i].work.Putting? {
      StartTries(cs, path, base, start, r, upl[i].batch.ordinal);
      RunTries(cs, path, base, start, es, r, upl[i].batch.ordinal, NOTHING, 0, 0);
    }
  }

  /** Such a step in the middle of a run comes behind the event that fires the shutdown. */
  lemma {:induction false} CutAfterFire(cs: Configs, s: System, es: seq<Event>, r: nat, k: nat)
    requires Possible(cs, s, es) && r in s.states && k < |es| && es[k].run == r && CutsShort(es[k].action)
    ensures s.states[r].front.shutdown || HasEvent(es[..k], r, FIRE)
    decreases k
  {
    hide Enabled, NextState, NextWorld, CutsShort, HasEvent;
    var e := es[0];
    if k == 0 {
      CutNeedsShutdown(cs[r], s.states[r], e.action);
    } else {
      CutAfterFire(cs, Happened(cs, s, e), es[1..], r, k - 1);
      if e.run == r {
        OnlyFireShutsDown(cs[r], s.states[r], s.world, e.action);
      }
      FirstOrLater(es[..k], r, FIRE);
      assert es[..k][1..] == es[1..][..k - 1];
    }
  }

  /** In every run, a batch is dropped, an upload given up or a group cancelled only behind the event that fires the
      shutdown. */
  lemma ShutdownInEveryRun(cs: Configs, path: Path, base: Log, start: System, es: seq<Event>, r: nat, k: nat)
    requires Cluster(cs, path) && Start(cs, path, base, start) && Possible(cs, start, es) && r in cs
    requires k < |es| && es[k].run == r && CutsShort(es[k].action)
    ensures HasEvent(es[..k], r, FIRE)
  {
    hide Cluster, Possible, HasEvent;
    CutAfterFire(cs, start, es, r, k);
  }

  lemma PrefixEvent(es: seq<Event>, r: nat, a: Action, k: nat)
    requires k <= |es| && HasEvent(es[..k], r, a)
    ensures HasEvent(es, r, a)
  {
    var j :| 0 <= j < k && es[..k][j] == Event(r, a);
    assert es[j] == Event(r, a);
  }

  lemma {:induction false} AbortIsEvent(cs: Configs, s: System, es: seq<Event>, r: nat, o: nat) returns (k: nat)
    requires Possible(cs, s, es)
    requires UploadEnded(cs, s, es, r, o, Aborted) || CommitEnded(cs, s, es, r, o, Cancelled)
    ensures k < |es| && es[k].run == r && CutsShort(es[k].action)
    decreases |es|
  {
    hide Enabled, NextState, NextWorld, EncodeResult, Rewritten, ItemsOf, InGroup, Matches;
    if es[0].run == r && CutsShort(es[0].action) {
      k := 0;
    } else {
      var j := AbortIsEvent(cs, Happened(cs, s, es[0]), es[1..], r, o);
      k := j + 1;
    }
  }

  lemma {:induction false} DropIsEvent(cs: Configs, s: System, es: seq<Event>, r: nat, i: nat) returns (k: nat)
    requires Possible(cs, s, es) && DroppedIn(cs, s, es, r, i)
    ensures k < |es| && es[k].run == r && CutsShort(es[k].action)
    decreases |es|
  {
    hide Enabled, NextState, NextWorld;
    if es[0] == Event(r, ByRotator(Drop)) {
      k := 0;
    } else {
      var j := DropIsEvent(cs, Happened(cs, s, es[0]), es[1..], r, i);
      k := j + 1;
    }
  }

  /** No message is told of a shutdown that has not been fired. */
  lemma NoEarlyShutdown(cs: Configs, path: Path, base: Log, start: System, es: seq<Event>, r: nat, i: nat)
    requires Cluster(cs, path) && Start(cs, path, base, start) && Possible(cs, start, es) && r in cs
            && r in Final(cs, start, es).states
    requires var p := Final(cs, start, es).states[r];
             i in p.acct.watchers && p.acct.watchers[i] == Some(Shutdown)
    ensures HasEvent(es, r, FIRE)
  {
    hide Cluster, Start, Possible, Final, Local, Shared, UploadEnded, CommitEnded, DroppedIn, CutsShort, HasEvent;
    var p := Final(cs, start, es).states[r];
    LocalInEveryRun(cs, path, base, start, es, r);
    WatcherHasHome(cs[r], p, i);
    DroppedInEveryRun(cs, path, base, start, es, r, i);
    var k;
    if p.hist.home[i] == None {
      k := DropIsEvent(cs, start, es, r, i);
    } else {
      OutcomeInEveryRun(cs, path, base, start, es, r, i, p.hist.home[i].value);
      k := AbortIsEvent(cs, start, es, r, p.hist.home[i].value);
    }
    ShutdownInEveryRun(cs, path, base, start, es, r, k);
    PrefixEvent(es, r, FIRE, k);
  }

  lemma WatcherHasHome(c: Config, s: State, i: nat)
    requires Local(c, s) && i in s.acct.watchers
    ensures i < |s.hist.home|
  {
    hide Conserved, FlowInv.Phases, FlowInv.Cursor, GatesInv.Gated, GatesInv.Typed, InOrder, LedgerInv.Balanced,
         Flushing, Housed;
  }

  // ---------- a write that took effect and was reported as failed ----------

  /** What the next manifest write of the committer is answered, and what then happens if nobody interferes. */
  function Retried(c: Config, s: State, w: World): State
    requires CommitCan(s, CasWrite(LostAnswer)) && s.jobs.com.attempt + 1 < c.manifestAttempts
  {
    CommitStep(c, CommitStep(c, s, w, CasWrite(LostAnswer)), CasWritten(c, s, w, LostAnswer), CasRetry)
  }

  /** A matching write whose answer is lost is in the manifest, and the retry puts the same group there again. */
  lemma LostAnswerWritesTwice(c: Config, s: State, w: World)
    requires CommitCan(s, CasWrite(LostAnswer)) && s.jobs.com.attempt + 1 < c.manifestAttempts
    requires Matches(w.objects, c.manifestPath, s.jobs.com.version)
    requires Rewritten(Some(s.jobs.com.data), ItemsOf(c, Stored(s.jobs.com.taken))).Ok?
    ensures var w1, s2 := CasWritten(c, s, w, LostAnswer), Retried(c, s, w);
            && s2.jobs.com.Reading? && !s2.jobs.halted == !s.jobs.halted
            && var s3 := CommitStep(c, s2, w1, CasRead(false));
               && s3.jobs.com.Writing?
               && var w2 := CasWritten(c, s3, w1, Truthful);
                  var block := Block(c.run, Ordinals(Stored(s.jobs.com.taken)), ItemsOf(c, Stored(s.jobs.com.taken)));
                  w1.blocks == w.blocks + [block] && w2.blocks == w.blocks + [block, block]
  {
    hide Rewritten, ItemsOf, Stored, Ordinals, Outcomes;
    var w1 := CasWritten(c, s, w, LostAnswer);
    assert DataAt(w1.objects, c.manifestPath) == Some(s.jobs.com.data);
  }

  /** A put that is reported as failed may have stored the object all the same; the batch is put again, or failed, as
      if it had not. */
  lemma FailedPutMayStore(c: Config, s: State, w: World, i: nat)
    requires WorkerCan(c, s, PutFail(i, true))
    ensures var b, payload := s.jobs.upl[i].batch, s.jobs.upl[i].work.payload;
            var objects := WorkerWorld(c, s, w, PutFail(i, true)).objects;
            && c.location(b.ordinal) in objects && objects[c.location(b.ordinal)].data == payload
            && WorkerWorld(c, s, w, PutFail(i, false)) == w
            && WorkerStep(c, s, PutFail(i, true)) == WorkerStep(c, s, PutFail(i, false))
  {}

  /** The runs hold every store fault at every point: any put may succeed, fail or fail after storing, any read of the
      manifest may fail, and any conditional write may be answered truthfully, lost, or lose its answer. */
  lemma AnyFaultCanHappen(c: Config, s: State, i: nat, applied: bool, fault: bool, answer: Answer)
    ensures Enabled(c, s, ByWorker(PutOk(i))) <==> i < |s.jobs.upl| && s.jobs.upl[i].work.Putting?
    ensures Enabled(c, s, ByWorker(PutFail(i, applied))) <==> i < |s.jobs.upl| && s.jobs.upl[i].work.Putting?
    ensures Enabled(c, s, ByCommitter(CasRead(fault))) <==> s.jobs.com.Reading?
    ensures Enabled(c, s, ByCommitter(CasWrite(answer))) <==> s.jobs.com.Writing?
  {}
}
