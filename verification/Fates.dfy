/** What becomes of a batch, told from the events of a run alone: which step ended its upload, which step
    ended its commit, and what its watchers are therefore told. */
module Fates {
  import opened Wrappers
  import opened ManifestLog
  import opened ObjStore
  import opened Accumulator
  import opened Committer
  import opened Pipeline
  import opened JobsInv
  import opened FlowInv
  import opened GatesInv
  import opened MessagesInv
  import opened LedgerInv
  import opened FlushInv
  import opened ProducerInv

  // ---------- endings ----------

  datatype UploadEnd =
    | CannotEncode(err: Error)
    | UploadedOk
    | Exhausted
    | Aborted

  datatype CommitEnd =
    | WrittenOk
    | Cancelled
    | HaltedInHand
    | Refused

  predicate Holding(js: seq<Job>, i: nat, o: nat) {
    i < |js| && js[i].batch.ordinal == o
  }

  /** The step ends the upload of batch `o`: the encoder fails, the put succeeds, the last attempt fails, or
      shutdown cuts the retries short. */
  function UploadEnds(c: Config, s: State, a: Action, o: nat): Option<UploadEnd> {
    var enc, upl := s.jobs.enc, s.jobs.upl;
    match a
    case ByWorker(Encode(i)) =>
      if Holding(enc, i, o) && EncodeResult(c, enc[i].batch).Err? then
        Some(CannotEncode(EncodeResult(c, enc[i].batch).error))
      else None
    case ByWorker(PutOk(i)) => if Holding(upl, i, o) then Some(UploadedOk) else None
    case ByWorker(PutFail(i, _)) =>
      if Holding(upl, i, o) && upl[i].work.Putting? && upl[i].work.attempt + 1 >= c.uploadAttempts then Some(Exhausted)
      else None
    case ByWorker(PutAbort(i)) => if Holding(upl, i, o) then Some(Aborted) else None
    case _ => None
  }

  /** Batch `o` is in the committer's group, and its upload succeeded. */
  predicate InGroup(com: Commit, o: nat) {
    InCas(com) && o in Ordinals(Stored(com.taken))
  }

  /** The step ends the commit of batch `o`: a write of its group takes effect and is reported, shutdown
      cancels the group, the group's last attempt fails, or a halted committer turns the batch away. */
  function CommitEnds(c: Config, s: State, w: World, a: Action, o: nat): Option<CommitEnd> {
    var j := s.jobs;
    match a
    case ByCommitter(CasWrite(answer)) =>
      if !InGroup(j.com, o) || !j.com.Writing? then None
      else if answer == Truthful then if WriteApplies(c, s, w, answer) then Some(WrittenOk) else None
      else if j.com.attempt + 1 >= c.manifestAttempts then Some(HaltedInHand) else None
    case ByCommitter(CasRead(fault)) =>
      if InGroup(j.com, o) && j.com.Reading? && j.com.attempt + 1 >= c.manifestAttempts
         && (fault || Rewritten(DataAt(w.objects, c.manifestPath), ItemsOf(c, Stored(j.com.taken))).Err?)
      then Some(HaltedInHand) else None
    case ByCommitter(CasAbort) => if InGroup(j.com, o) then Some(Cancelled) else None
    case ByCommitter(Recv) => if j.halted && Holding(j.chan, 0, o) then Some(Refused) else None
    case ByCommitter(Abandon(p)) => if p == o then Some(Refused) else None
    case _ => None
  }

  // ---------- what the endings say ----------

  datatype Trail = Trail(upload: Option<UploadEnd>, commit: Option<CommitEnd>)

  const NOTHING := Trail(None, None)

  function Followed(c: Config, s: State, w: World, a: Action, o: nat, t: Trail): Trail {
    Trail(if UploadEnds(c, s, a, o).Some? then UploadEnds(c, s, a, o) else t.upload,
          if CommitEnds(c, s, w, a, o).Some? then CommitEnds(c, s, w, a, o) else t.commit)
  }

  function OwnError(u: UploadEnd): Option<Error> {
    match u
    case CannotEncode(err) => Some(err)
    case UploadedOk => None
    case Exhausted => Some(Storage)
    case Aborted => Some(Shutdown)
  }

  /** What the watchers of the batch are told. */
  function Verdict(t: Trail): Option<Option<Error>> {
    match t.commit
    case Some(WrittenOk) => Some(None)
    case Some(Cancelled) => Some(Some(Shutdown))
    case Some(HaltedInHand) => Some(Some(ProducerHalted))
    case Some(Refused) => Some(Some(ProducerHalted))
    case None => if t.upload.Some? && OwnError(t.upload.value).Some? then Some(OwnError(t.upload.value)) else None
  }

  // ---------- the invariant ----------

  /** On the way to the committer's decision. */
  predicate Fresh(js: seq<Job>, o: nat, t: Trail) {
    forall i :: 0 <= i < |js| && js[i].batch.ordinal == o ==> FreshWork(js[i].work, t)
  }

  predicate FreshWork(work: Work, t: Trail) {
    if work.Finished? then t.upload.Some? && OwnError(t.upload.value) == work.err && t.commit == None else t == NOTHING
  }

  /** Decided: the job carries the verdict. */
  predicate Told(js: seq<Job>, o: nat, t: Trail) {
    forall i :: 0 <= i < |js| && js[i].batch.ordinal == o ==> js[i].work.Finished? && Verdict(t) == Some(js[i].work.err)
  }

  predicate Pending(j: Jobs, o: nat, t: Trail) {
    && Fresh(j.sending, o, t) && Fresh(j.enc, o, t) && Fresh(j.upl, o, t) && Fresh(j.chan, o, t)
    && (o in j.ready ==> FreshWork(j.ready[o].work, t))
    && (InCas(j.com) ==> Fresh(j.com.taken, o, t))
  }

  predicate Judged(j: Jobs, o: nat, t: Trail) {
    (j.com.Delivering? ==> Told(j.com.out, o, t)) && Told(InResolver(j.res), o, t)
  }

  predicate Answered(h: History, watchers: Watchers, o: nat, t: Trail) {
    forall i :: i in watchers && i < |h.home| && h.home[i] == Some(o) ==> Verdict(t) == Some(watchers[i])
  }

  /** Endings come in order, and an encoding failure is the encoder's own. */
  predicate Sane(c: Config, emitted: seq<Batch>, o: nat, t: Trail) {
    && (o >= |emitted| ==> t == NOTHING)
    && (t.commit.Some? ==> t.upload.Some? && (t.commit == Some(Refused) || t.upload == Some(UploadedOk)))
    && (t.upload.Some? && o < |emitted| ==>
          if t.upload.value.CannotEncode? then EncodeResult(c, emitted[o]) == Err(t.upload.value.err)
          else EncodeResult(c, emitted[o]).Ok?)
  }

  predicate Tracked(c: Config, s: State, o: nat, t: Trail) {
    && Pending(s.jobs, o, t) && Judged(s.jobs, o, t) && Answered(s.hist, s.acct.watchers, o, t)
    && Sane(c, s.hist.emitted, o, t)
  }

  // ---------- one place each ----------

  predicate Absent(js: seq<Job>, o: nat) {
    forall i :: 0 <= i < |js| ==> js[i].batch.ordinal != o
  }

  lemma AbsentIff(js: seq<Job>, o: nat)
    ensures Absent(js, o) <==> Bag(js)[o] == 0
  {
    if Bag(js)[o] != 0 {
      var i :| 0 <= i < |Ordinals(js)| && Ordinals(js)[i] == o;
      assert js[i].batch.ordinal == o;
    } else {
      forall i | 0 <= i < |js|
        ensures js[i].batch.ordinal != o
      {
        assert Ordinals(js)[i] == js[i].batch.ordinal;
        assert Ordinals(js)[i] in multiset(Ordinals(js));
      }
    }
  }

  lemma CountOnce(j: Jobs, h: History, o: nat)
    requires Conserved(j, h)
    ensures Bag(j.sending)[o] + Bag(j.enc)[o] + Bag(j.upl)[o] + Bag(j.chan)[o] + (if o in j.ready then 1 else 0)
            + Bag(Hand(j.com))[o] + Bag(InResolver(j.res))[o] == if o in Live(h) then 1 else 0
  {
    hide Bag, Hand, InResolver, Unaltered, Live, Below;
    assert Total(j)[o] == multiset(Live(h))[o];
    assert multiset(j.ready.Keys)[o] == if o in j.ready then 1 else 0;
  }

  /** Nothing but the one job. */
  lemma AloneIn(js: seq<Job>, i: nat)
    requires i < |js| && Bag(js)[js[i].batch.ordinal] <= 1
    ensures Absent(Without(js, i), js[i].batch.ordinal)
    ensures forall k :: 0 <= k < |js| && k != i ==> js[k].batch.ordinal != js[i].batch.ordinal
  {
    hide Bag;
    var o := js[i].batch.ordinal;
    BagWithout(js, i);
    AbsentIff(Without(js, i), o);
    forall k | 0 <= k < |js| && k != i
      ensures js[k].batch.ordinal != o
    {
      assert js[k] == Without(js, i)[if k < i then k else k - 1];
    }
  }

  /** A batch outside the resolver and not released has no answered watcher. */
  lemma NotYetAnswered(c: Config, s: State, o: nat)
    requires Housed(s.hist) && Resolved(s.hist, s.acct.watchers, s.jobs.res) && Conserved(s.jobs, s.hist)
    requires o in Live(s.hist) && Absent(InResolver(s.jobs.res), o)
    ensures forall i :: i in s.acct.watchers && i < |s.hist.home| ==> s.hist.home[i] != Some(o)
  {
    hide Stretch, Total, Unaltered;
    assert !s.jobs.res.Idle? ==> InResolver(s.jobs.res)[0] == s.jobs.res.job;
    forall i | i in s.acct.watchers && i < |s.hist.home|
      ensures s.hist.home[i] != Some(o)
    {
      assert Closed(s.hist, s.jobs.res, i);
    }
  }

  // ---------- front ----------

  /** Batches may be added, and messages dropped. */
  lemma FrontTracks(c: Config, s: State, s': State, o: nat, t: Trail)
    requires Local(c, s) && Tracked(c, s, o, t)
    requires s'.jobs == s.jobs.(sending := s'.jobs.sending, enc := s'.jobs.enc)
    requires Fresh(s'.jobs.sending, o, t) && Fresh(s'.jobs.enc, o, t)
    requires s.hist.home <= s'.hist.home && s.hist.emitted <= s'.hist.emitted
    requires forall i :: i in s'.acct.watchers && i < |s'.hist.home| && s'.hist.home[i].Some? ==>
               i in s.acct.watchers && s'.acct.watchers[i] == s.acct.watchers[i]
    ensures Tracked(c, s', o, t)
  {
    hide Conserved, Phases, Cursor, Gated, Typed, InOrder, Balanced, Flushing, Housed, Resolved, Fresh, Told,
         EncodeResult;
    WatchersAreHoused(s.hist, s.acct.watchers, s.jobs.res);
  }

  lemma DropTells(c: Config, s: State, i: nat)
    requires Local(c, s) && RotatorCan(c, s, Drop)
    ensures var s' := DoDrop(s);
            i in s'.acct.watchers && i < |s'.hist.home| && s'.hist.home[i].Some? ==>
              i in s.acct.watchers && s'.acct.watchers[i] == s.acct.watchers[i]
  {
    hide Conserved, Phases, Cursor, Gated, Typed, Housed, Resolved, Balanced, Flushing, AckFlush, CostOf;
    AccIsRange(s);
    WatchersAreHoused(s.hist, s.acct.watchers, s.jobs.res);
    AllResolvedAt(s.acct.watchers, s.front.acc, Some(Shutdown), |s.hist.home|);
  }

  lemma RotatorTracks(c: Config, s: State, a: RotatorAction, o: nat, t: Trail)
    requires Local(c, s) && RotatorCan(c, s, a) && Tracked(c, s, o, t)
    ensures Tracked(c, RotatorStep(c, s, a), o, t)
  {
    hide Local, Told, AckFlush, CostOf, FramedCost, FramingOf, Representable, AllResolved, EncodeResult, OwnError,
         Verdict, Answered;
    if a == Drop {
      forall i: nat
        ensures var s' := DoDrop(s);
                i in s'.acct.watchers && i < |s'.hist.home| && s'.hist.home[i].Some? ==>
                  i in s.acct.watchers && s'.acct.watchers[i] == s.acct.watchers[i]
      {
        DropTells(c, s, i);
      }
    } else if a == Seal {
      SealHousesOnlyNew(c, s);
    }
    FrontTracks(c, s, RotatorStep(c, s, a), o, t);
  }

  lemma SealHousesOnlyNew(c: Config, s: State)
    requires Local(c, s)
    ensures forall i :: i in s.acct.watchers ==> i < |s.hist.home|
  {
    hide Conserved, Phases, Cursor, Gated, Typed, InOrder, Balanced, Flushing, Housed, Resolved;
    WatchersAreHoused(s.hist, s.acct.watchers, s.jobs.res);
  }

  // ---------- pools ----------

  lemma EncGenuine(s: State, i: nat)
    requires Conserved(s.jobs, s.hist) && i < |s.jobs.enc|
    ensures Genuine(s.hist.emitted, s.jobs.enc[i].batch)
  {
    hide Total, Live, Below;
  }

  lemma UplGenuine(s: State, i: nat)
    requires Conserved(s.jobs, s.hist) && i < |s.jobs.upl|
    ensures Genuine(s.hist.emitted, s.jobs.upl[i].batch)
  {
    hide Total, Live, Below;
  }

  /** The only job of its ordinal is in the encoder pool. */
  lemma OnlyInEnc(c: Config, s: State, i: nat)
    requires Conserved(s.jobs, s.hist) && Housed(s.hist) && Resolved(s.hist, s.acct.watchers, s.jobs.res)
            && i < |s.jobs.enc|
    ensures var j, o := s.jobs, s.jobs.enc[i].batch.ordinal;
            && Absent(j.sending, o) && Absent(Without(j.enc, i), o) && Absent(j.upl, o) && Absent(j.chan, o)
                && o !in j.ready
            && Absent(Hand(j.com), o) && Absent(InResolver(j.res), o) && o in Live(s.hist)
            && (forall k :: 0 <= k < |j.enc| && k != i ==> j.enc[k].batch.ordinal != o)
  {
    hide Bag, Hand, InResolver, Conserved, Live, Resolved, Absent;
    var j, o := s.jobs, s.jobs.enc[i].batch.ordinal;
    CountOnce(j, s.hist, o);
    BagWithout(j.enc, i);
    AloneIn(j.enc, i);
    AbsentIff(j.sending, o);
    AbsentIff(j.upl, o);
    AbsentIff(j.chan, o);
    AbsentIff(Hand(j.com), o);
    AbsentIff(InResolver(j.res), o);
  }

  lemma OnlyInUpl(c: Config, s: State, i: nat)
    requires Conserved(s.jobs, s.hist) && Housed(s.hist) && Resolved(s.hist, s.acct.watchers, s.jobs.res)
            && i < |s.jobs.upl|
    ensures var j, o := s.jobs, s.jobs.upl[i].batch.ordinal;
            && Absent(j.sending, o) && Absent(j.enc, o) && Absent(Without(j.upl, i), o) && Absent(j.chan, o)
                && o !in j.ready
            && Absent(Hand(j.com), o) && Absent(InResolver(j.res), o) && o in Live(s.hist)
            && (forall k :: 0 <= k < |j.upl| && k != i ==> j.upl[k].batch.ordinal != o)
  {
    hide Bag, Hand, InResolver, Conserved, Live, Resolved, Absent;
    var j, o := s.jobs, s.jobs.upl[i].batch.ordinal;
    CountOnce(j, s.hist, o);
    BagWithout(j.upl, i);
    AloneIn(j.upl, i);
    AbsentIff(j.sending, o);
    AbsentIff(j.enc, o);
    AbsentIff(j.chan, o);
    AbsentIff(Hand(j.com), o);
    AbsentIff(InResolver(j.res), o);
  }

  /** Elsewhere there is nothing to say about the batch. */
  lemma AbsentTracks(c: Config, s: State, o: nat, t: Trail)
    requires Absent(s.jobs.sending, o) && Absent(s.jobs.chan, o) && o !in s.jobs.ready
    requires Absent(Hand(s.jobs.com), o) && Absent(InResolver(s.jobs.res), o)
    requires Fresh(s.jobs.enc, o, t) && Fresh(s.jobs.upl, o, t)
    requires forall i :: i in s.acct.watchers && i < |s.hist.home| ==> s.hist.home[i] != Some(o)
    requires Sane(c, s.hist.emitted, o, t)
    ensures Tracked(c, s, o, t)
  {
    hide EncodeResult, OwnError, Verdict;
  }

  /** A worker changes the work of a job, and so the trail of its batch. */
  lemma EncodeTracks(c: Config, s: State, w: World, i: nat, o: nat, t: Trail)
    requires Conserved(s.jobs, s.hist) && Housed(s.hist) && Resolved(s.hist, s.acct.watchers, s.jobs.res)
    requires WorkerCan(c, s, Encode(i)) && Tracked(c, s, o, t) && s.jobs.enc[i].batch.ordinal == o
    ensures Tracked(c, WorkerStep(c, s, Encode(i)), o, Followed(c, s, w, ByWorker(Encode(i)), o, t))
  {
    hide Conserved, Housed, Resolved, EncodeResult, Live, Hand, InResolver, Verdict, Answered, Told;
    OnlyInEnc(c, s, i);
    EncGenuine(s, i);
    NotYetAnswered(c, s, o);
    AbsentTracks(c, WorkerStep(c, s, Encode(i)), o, Followed(c, s, w, ByWorker(Encode(i)), o, t));
  }

  lemma PutTracks(c: Config, s: State, w: World, a: WorkerAction, o: nat, t: Trail)
    requires Conserved(s.jobs, s.hist) && Housed(s.hist) && Resolved(s.hist, s.acct.watchers, s.jobs.res)
    requires WorkerCan(c, s, a) && (a.PutOk? || a.PutFail? || a.PutAbort?) && s.jobs.upl[a.i].batch.ordinal == o
    requires Tracked(c, s, o, t) && Typed(c, s.jobs)
    ensures Tracked(c, WorkerStep(c, s, a), o, Followed(c, s, w, ByWorker(a), o, t))
  {
    hide Conserved, Housed, Resolved, Typed, Live, Hand, InResolver, Tracked, Followed, Fresh, Sane;
    OnlyInUpl(c, s, a.i);
    UplGenuine(s, a.i);
    NotYetAnswered(c, s, o);
    PutIsFresh(c, s, w, a, o, t);
    AbsentIsFresh(s.jobs.enc, o, Followed(c, s, w, ByWorker(a), o, t));
    AbsentTracks(c, WorkerStep(c, s, a), o, Followed(c, s, w, ByWorker(a), o, t));
  }

  /** The put job and its trail agree. */
  lemma PutIsFresh(c: Config, s: State, w: World, a: WorkerAction, o: nat, t: Trail)
    requires WorkerCan(c, s, a) && (a.PutOk? || a.PutFail? || a.PutAbort?) && s.jobs.upl[a.i].batch.ordinal == o
    requires Tracked(c, s, o, t) && Typed(c, s.jobs) && Genuine(s.hist.emitted, s.jobs.upl[a.i].batch)
    requires forall k :: 0 <= k < |s.jobs.upl| && k != a.i ==> s.jobs.upl[k].batch.ordinal != o
    ensures Fresh(WorkerStep(c, s, a).jobs.upl, o, Followed(c, s, w, ByWorker(a), o, t))
    ensures Sane(c, s.hist.emitted, o, Followed(c, s, w, ByWorker(a), o, t))
  {
    hide EncodeResult, Judged, Answered, Hand, InResolver, AllFinished, EncoderWork;
    assert UploaderWork(c, s.jobs.upl[a.i]);
    assert FreshWork(s.jobs.upl[a.i].work, t);
  }

  lemma AbsentIsFresh(js: seq<Job>, o: nat, t: Trail)
    requires Absent(js, o)
    ensures Fresh(js, o, t)
  {}

  /** Encoders moving jobs on, or working on other batches. */
  lemma EncoderTracks(c: Config, s: State, w: World, a: WorkerAction, o: nat, t: Trail)
    requires WorkerCan(c, s, a) && Tracked(c, s, o, t)
    requires a.Encode? || a.ToUploader? || a.ReportEncode? || a.EncoderExit? || a.CloseEncoded?
    requires a.Encode? ==> s.jobs.enc[a.i].batch.ordinal != o
    ensures Followed(c, s, w, ByWorker(a), o, t) == t
    ensures Tracked(c, WorkerStep(c, s, a), o, t)
  {
    hide EncodeResult, Hand, InResolver, Verdict, OwnError, Told, Answered, Sane;
  }

  /** Uploaders moving jobs on, or working on other batches. */
  lemma UploaderTracks(c: Config, s: State, w: World, a: WorkerAction, o: nat, t: Trail)
    requires WorkerCan(c, s, a) && Tracked(c, s, o, t)
    requires a.PutOk? || a.PutFail? || a.PutAbort? || a.ReportUpload? || a.UploaderExit? || a.CloseCompletion?
    requires a.PutOk? || a.PutFail? || a.PutAbort? ==> s.jobs.upl[a.i].batch.ordinal != o
    ensures Followed(c, s, w, ByWorker(a), o, t) == t
    ensures Tracked(c, WorkerStep(c, s, a), o, t)
  {
    hide EncodeResult, Hand, InResolver, Verdict, OwnError, Told, Answered, Sane;
  }

  lemma WorkerTracks(c: Config, s: State, w: World, a: WorkerAction, o: nat, t: Trail)
    requires Conserved(s.jobs, s.hist) && Housed(s.hist) && Resolved(s.hist, s.acct.watchers, s.jobs.res)
    requires WorkerCan(c, s, a) && Tracked(c, s, o, t) && Typed(c, s.jobs)
    ensures Tracked(c, WorkerStep(c, s, a), o, Followed(c, s, w, ByWorker(a), o, t))
  {
    hide Conserved, Housed, Resolved, Tracked, Followed, WorkerStep, EncodeResult, Typed;
    if a.Encode? && s.jobs.enc[a.i].batch.ordinal == o {
      EncodeTracks(c, s, w, a.i, o, t);
    } else if (a.PutOk? || a.PutFail? || a.PutAbort?) && s.jobs.upl[a.i].batch.ordinal == o {
      PutTracks(c, s, w, a, o, t);
    } else if a.Encode? || a.ToUploader? || a.ReportEncode? || a.EncoderExit? || a.CloseEncoded? {
      EncoderTracks(c, s, w, a, o, t);
    } else {
      UploaderTracks(c, s, w, a, o, t);
    }
  }

  // ---------- committer ----------

  lemma OnlyInChan(s: State)
    requires Conserved(s.jobs, s.hist) && s.jobs.chan != []
    ensures var j, o := s.jobs, s.jobs.chan[0].batch.ordinal;
            && Absent(j.sending, o) && Absent(j.enc, o) && Absent(j.upl, o) && Absent(j.chan[1..], o) && o !in j.ready
            && Absent(Hand(j.com), o) && Absent(InResolver(j.res), o) && o in Live(s.hist)
  {
    hide Bag, Hand, InResolver, Conserved, Live, Absent;
    var j, o := s.jobs, s.jobs.chan[0].batch.ordinal;
    CountOnce(j, s.hist, o);
    BagHead(j.chan);
    AbsentIff(j.sending, o);
    AbsentIff(j.enc, o);
    AbsentIff(j.upl, o);
    AbsentIff(j.chan[1..], o);
    AbsentIff(Hand(j.com), o);
    AbsentIff(InResolver(j.res), o);
  }

  lemma OnlyInReady(s: State, o: nat)
    requires Conserved(s.jobs, s.hist) && o in s.jobs.ready
    ensures var j := s.jobs;
            && Absent(j.sending, o) && Absent(j.enc, o) && Absent(j.upl, o) && Absent(j.chan, o)
            && Absent(Hand(j.com), o) && Absent(InResolver(j.res), o) && o in Live(s.hist)
  {
    hide Bag, Hand, InResolver, Conserved, Live, Absent;
    var j := s.jobs;
    CountOnce(j, s.hist, o);
    AbsentIff(j.sending, o);
    AbsentIff(j.enc, o);
    AbsentIff(j.upl, o);
    AbsentIff(j.chan, o);
    AbsentIff(Hand(j.com), o);
    AbsentIff(InResolver(j.res), o);
  }

  lemma OnlyInHand(s: State, o: nat)
    requires Conserved(s.jobs, s.hist) && !Absent(Hand(s.jobs.com), o)
    ensures var j := s.jobs;
            && Absent(j.sending, o) && Absent(j.enc, o) && Absent(j.upl, o) && Absent(j.chan, o) && o !in j.ready
            && Absent(InResolver(j.res), o) && o in Live(s.hist)
  {
    hide Bag, Hand, InResolver, Conserved, Live, Absent;
    var j := s.jobs;
    CountOnce(j, s.hist, o);
    AbsentIff(j.sending, o);
    AbsentIff(j.enc, o);
    AbsentIff(j.upl, o);
    AbsentIff(j.chan, o);
    AbsentIff(Hand(j.com), o);
    AbsentIff(InResolver(j.res), o);
  }

  /** Decided this step, and held nowhere but among the decided. */
  lemma DecidedTracks(c: Config, s: State, o: nat, t: Trail)
    requires Absent(s.jobs.sending, o) && Absent(s.jobs.enc, o) && Absent(s.jobs.upl, o) && Absent(s.jobs.chan, o)
    requires o !in s.jobs.ready && !InCas(s.jobs.com)
    requires Judged(s.jobs, o, t)
    requires forall i :: i in s.acct.watchers && i < |s.hist.home| ==> s.hist.home[i] != Some(o)
    requires Sane(c, s.hist.emitted, o, t)
    ensures Tracked(c, s, o, t)
  {
    hide EncodeResult, OwnError, Verdict, Judged;
  }

  /** A halted committer receives the batch. */
  lemma RefuseTracks(c: Config, s: State, w: World, o: nat, t: Trail)
    requires Conserved(s.jobs, s.hist) && Housed(s.hist) && Resolved(s.hist, s.acct.watchers, s.jobs.res)
            && Typed(c, s.jobs)
    requires CommitCan(s, Recv) && s.jobs.halted && Holding(s.jobs.chan, 0, o) && Tracked(c, s, o, t)
    ensures Tracked(c, DoRecv(s), o, Followed(c, s, w, ByCommitter(Recv), o, t))
  {
    hide Conserved, Housed, Resolved, EncodeResult, Live, Absent, EncoderWork, UploaderWork, OwnError;
    OnlyInChan(s);
    NotYetAnswered(c, s, o);
    AbsentSaysNothing(InResolver(s.jobs.res), o, t.(commit := Some(Refused)));
    DecidedTracks(c, DoRecv(s), o, Followed(c, s, w, ByCommitter(Recv), o, t));
  }

  lemma AbsentSaysNothing(js: seq<Job>, o: nat, t: Trail)
    requires Absent(js, o)
    ensures Told(js, o, t) && Fresh(js, o, t)
  {}

  /** A halted committer turns away a batch it had waiting. */
  lemma AbandonTracks(c: Config, s: State, w: World, o: nat, t: Trail)
    requires Conserved(s.jobs, s.hist) && Housed(s.hist) && Resolved(s.hist, s.acct.watchers, s.jobs.res)
            && Typed(c, s.jobs)
    requires CommitCan(s, Abandon(o)) && Tracked(c, s, o, t)
    ensures Tracked(c, DoAbandon(s, o), o, Followed(c, s, w, ByCommitter(Abandon(o)), o, t))
  {
    hide Conserved, Housed, Resolved, EncodeResult, Live, Absent, Typed, OwnError, Followed, Answered;
    OnlyInReady(s, o);
    NotYetAnswered(c, s, o);
    ReadyFinished(c, s, o);
    AbandonTrail(c, s, w, o, t);
    DecidedTracks(c, DoAbandon(s, o), o, Trail(t.upload, Some(Refused)));
  }

  lemma ReadyFinished(c: Config, s: State, o: nat)
    requires Typed(c, s.jobs) && o in s.jobs.ready
    ensures s.jobs.ready[o].work.Finished?
  {
    hide EncoderWork, UploaderWork, AllFinished;
  }

  lemma AbandonTrail(c: Config, s: State, w: World, o: nat, t: Trail)
    ensures Followed(c, s, w, ByCommitter(Abandon(o)), o, t) == Trail(t.upload, Some(Refused))
  {}

  /** Steps that decide nothing about the batch: filing, moving on, delivering. */
  lemma FileTracks(c: Config, s: State, w: World, a: CommitAction, o: nat, t: Trail)
    requires CommitCan(s, a) && Tracked(c, s, o, t)
    requires !a.Group? && !(a.CasRead? || a.CasWrite? || a.CasRetry? || a.CasAbort?)
    requires a.Recv? && s.jobs.halted ==> !Holding(s.jobs.chan, 0, o)
    requires a.Abandon? ==> a.o != o && (forall p :: p in s.jobs.ready ==> s.jobs.ready[p].batch.ordinal == p)
    ensures Followed(c, s, w, ByCommitter(a), o, t) == t
    ensures Tracked(c, CommitStep(c, s, w, a), o, t)
  {
    hide Tracked, Followed, CommitStep;
    if a.Recv? || a.Gather? {
      ReceiveTracks(c, s, w, a, o, t);
    } else {
      PassOnTracks(c, s, w, a, o, t);
    }
  }

  lemma ReceiveTracks(c: Config, s: State, w: World, a: CommitAction, o: nat, t: Trail)
    requires CommitCan(s, a) && Tracked(c, s, o, t) && (a.Recv? || a.Gather?)
    requires a.Recv? && s.jobs.halted ==> !Holding(s.jobs.chan, 0, o)
    ensures Followed(c, s, w, ByCommitter(a), o, t) == t
    ensures Tracked(c, CommitStep(c, s, w, a), o, t)
  {
    hide Sane, Answered, Verdict, FreshWork;
    var j := s.jobs;
    assert forall i :: 0 <= i < |j.chan| - 1 ==> j.chan[1..][i] == j.chan[i + 1];
  }

  lemma PassOnTracks(c: Config, s: State, w: World, a: CommitAction, o: nat, t: Trail)
    requires CommitCan(s, a) && Tracked(c, s, o, t)
    requires a.RecvClosed? || a.GatherEnd? || a.Deliver? || a.Delivered? || a.Abandon? || a.Abandoned?
    requires a.Abandon? ==> a.o != o && (forall p :: p in s.jobs.ready ==> s.jobs.ready[p].batch.ordinal == p)
    ensures Followed(c, s, w, ByCommitter(a), o, t) == t
    ensures Tracked(c, CommitStep(c, s, w, a), o, t)
  {
    hide Sane, Answered, Verdict, FreshWork, Fresh;
    var j := s.jobs;
    if a.Deliver? {
      assert forall i :: 0 <= i < |j.com.out| - 1 ==> j.com.out[1..][i] == j.com.out[i + 1];
    }
  }

  lemma TakenIsFresh(j: Jobs, emitted: seq<Batch>, k: nat, o: nat, t: Trail)
    requires ReadyGenuine(emitted, j.ready) && (forall p :: j.next <= p < j.next + k ==> p in j.ready)
    requires o in j.ready ==> FreshWork(j.ready[o].work, t)
    ensures Fresh(Taken(j.ready, j.next, k), o, t)
  {
    hide FreshWork, Genuine;
    var taken := Taken(j.ready, j.next, k);
    forall i | 0 <= i < |taken| && taken[i].batch.ordinal == o
      ensures FreshWork(taken[i].work, t)
    {
      assert j.next + i in j.ready;
    }
  }

  /** Failed uploads are told their own error. */
  lemma FailedAreTold(js: seq<Job>, o: nat, t: Trail)
    requires AllFinished(js) && Fresh(js, o, t)
    ensures Told(Unstored(js), o, t)
  {
    hide Unstored, Stored;
    FinishedSplit(js);
    UnstoredIsPart(js);
  }

  lemma {:induction false} UnstoredIsPart(js: seq<Job>)
    ensures forall i :: 0 <= i < |Unstored(js)| ==> Unstored(js)[i] in js
  {
    if js == [] {
    } else {
      UnstoredIsPart(js[..|js| - 1]);
    }
  }

  lemma GroupTracks(c: Config, s: State, w: World, o: nat, t: Trail)
    requires Conserved(s.jobs, s.hist) && Typed(c, s.jobs) && CommitCan(s, Group) && Tracked(c, s, o, t)
    ensures Tracked(c, DoGroup(c, s, w), o, t)
  {
    hide Total, Live, Unstored, Stored, TakeCount, Taken, EncodeResult, Fresh, FreshWork, Told, EncoderWork,
         UploaderWork, Answered;
    var j, k := s.jobs, TakeCount(s.jobs.ready, s.jobs.next, c.groupSize);
    if k > 0 {
      var taken := Taken(j.ready, j.next, k);
      TakenIsFresh(j, s.hist.emitted, k, o, t);
      TakenIsFinished(j.ready, j.next, k);
      FailedAreTold(taken, o, t);
    }
  }

  lemma TakenIsFinished(ready: map<nat, Job>, next: nat, k: nat)
    requires forall p :: next <= p < next + k ==> p in ready
    requires forall p :: p in ready ==> ready[p].work.Finished?
    ensures AllFinished(Taken(ready, next, k))
  {
    var taken := Taken(ready, next, k);
    forall i | 0 <= i < |taken|
      ensures taken[i].work.Finished?
    {
      assert next + i in ready;
    }
  }

  // ---------- a group is settled ----------

  /** The commit ending that goes with a group's outcome. */
  function GroupTrail(com: Commit, o: nat, t: Trail, e: CommitEnd): Trail {
    if InGroup(com, o) then t.(commit := Some(e)) else t
  }

  lemma OutcomesAreTold(com: Commit, o: nat, t: Trail, e: CommitEnd, err: Option<Error>)
    requires InCas(com) && AllFinished(com.taken) && Fresh(com.taken, o, t)
    requires Verdict(Trail(Some(UploadedOk), Some(e))) == Some(err)
    ensures Told(Outcomes(com.taken, err), o, GroupTrail(com, o, t, e))
    ensures InGroup(com, o) ==> t == Trail(Some(UploadedOk), None)
  {
    hide Unstored, Stored;
    var taken, stored := com.taken, Stored(com.taken);
    FinishedSplit(taken);
    UnstoredIsPart(taken);
    StoredIsPart(taken);
    FailedAreTold(taken, o, t);
    if InGroup(com, o) {
      var x :| 0 <= x < |stored| && Ordinals(stored)[x] == o;
      assert stored[x] in taken && stored[x].batch.ordinal == o;
      assert FreshWork(stored[x].work, t);
      FailedIsNotStored(taken, o, t);
    } else {
      forall x | 0 <= x < |stored|
        ensures stored[x].batch.ordinal != o
      {
        assert Ordinals(stored)[x] == stored[x].batch.ordinal;
      }
    }
  }

  lemma FailedIsNotStored(taken: seq<Job>, o: nat, t: Trail)
    requires AllFinished(taken) && Fresh(taken, o, t) && t.upload.Some? && OwnError(t.upload.value) == None
    ensures Absent(Unstored(taken), o)
  {
    hide Unstored, Stored;
    FinishedSplit(taken);
    UnstoredIsPart(taken);
    forall i | 0 <= i < |Unstored(taken)|
      ensures Unstored(taken)[i].batch.ordinal != o
    {
      var k :| 0 <= k < |taken| && taken[k] == Unstored(taken)[i];
    }
  }

  lemma {:induction false} StoredIsPart(js: seq<Job>)
    ensures forall i :: 0 <= i < |Stored(js)| ==> Stored(js)[i] in js
  {
    if js == [] {
    } else {
      StoredIsPart(js[..|js| - 1]);
    }
  }

  lemma SettleTracks(c: Config, s: State, s': State, o: nat, t: Trail, e: CommitEnd, err: Option<Error>)
    requires Conserved(s.jobs, s.hist) && Housed(s.hist) && Resolved(s.hist, s.acct.watchers, s.jobs.res)
            && Typed(c, s.jobs)
    requires InCas(s.jobs.com) && Tracked(c, s, o, t) && e != Refused
    requires s' == s.(jobs := s.jobs.(com := s'.jobs.com, halted := s'.jobs.halted))
    requires s'.jobs.com.Delivering? && s'.jobs.com.out == Outcomes(s.jobs.com.taken, err)
    requires Verdict(Trail(Some(UploadedOk), Some(e))) == Some(err)
    ensures Tracked(c, s', o, GroupTrail(s.jobs.com, o, t, e))
  {
    hide Conserved, Housed, Resolved, EncodeResult, Live, Absent, EncoderWork, UploaderWork, Fresh, Told, Outcomes,
         Answered, InResolver;
    var com, t' := s.jobs.com, GroupTrail(s.jobs.com, o, t, e);
    OutcomesAreTold(com, o, t, e, err);
    if InGroup(com, o) {
      GroupIsInHand(com, o);
      OnlyInHand(s, o);
      NotYetAnswered(c, s, o);
      AbsentSaysNothing(InResolver(s.jobs.res), o, t');
      DecidedTracks(c, s', o, t');
    }
  }

  lemma GroupIsInHand(com: Commit, o: nat)
    requires InGroup(com, o)
    ensures !Absent(Hand(com), o)
  {
    hide Stored;
    var stored := Stored(com.taken);
    StoredIsPart(com.taken);
    var x :| 0 <= x < |stored| && Ordinals(stored)[x] == o;
    var k :| 0 <= k < |com.taken| && com.taken[k] == stored[x];
    assert Hand(com)[k].batch.ordinal == o;
  }

  /** How a CAS step ends the group, if it does. */
  lemma CasEnds(c: Config, s: State, w: World, a: CommitAction, o: nat, t: Trail) returns (e: CommitEnd,
          err: Option<Error>)
    requires CommitCan(s, a) && (a.CasRead? || a.CasWrite? || a.CasRetry? || a.CasAbort?)
    ensures var s' := CommitStep(c, s, w, a);
            && s' == s.(jobs := s.jobs.(com := s'.jobs.com, halted := s'.jobs.halted))
            && (InCas(s'.jobs.com) ==>
                  s'.jobs.com.taken == s.jobs.com.taken && Followed(c, s, w, ByCommitter(a), o, t) == t)
            && (!InCas(s'.jobs.com) ==>
                  && s'.jobs.com.Delivering? && s'.jobs.com.out == Outcomes(s.jobs.com.taken, err)
                  && Followed(c, s, w, ByCommitter(a), o, t) == GroupTrail(s.jobs.com, o, t, e))
    ensures e != Refused && Verdict(Trail(Some(UploadedOk), Some(e))) == Some(err)
  {
    hide Outcomes, Rewritten, Matches, ItemsOf, Stored, Ordinals;
    if a.CasAbort? {
      e, err := Cancelled, Some(Shutdown);
    } else if a == CasWrite(Truthful) {
      e, err := WrittenOk, None;
    } else {
      e, err := HaltedInHand, Some(ProducerHalted);
    }
  }

  lemma StillInCas(c: Config, s: State, s': State, o: nat, t: Trail)
    requires Tracked(c, s, o, t) && InCas(s.jobs.com) && InCas(s'.jobs.com) && s'.jobs.com.taken == s.jobs.com.taken
    requires s' == s.(jobs := s.jobs.(com := s'.jobs.com, halted := s'.jobs.halted))
    ensures Tracked(c, s', o, t)
  {
    hide EncodeResult, Fresh, Told, Answered;
  }

  lemma CommitTracks(c: Config, s: State, w: World, a: CommitAction, o: nat, t: Trail)
    requires Conserved(s.jobs, s.hist) && Housed(s.hist) && Resolved(s.hist, s.acct.watchers, s.jobs.res)
            && Typed(c, s.jobs)
    requires CommitCan(s, a) && Tracked(c, s, o, t)
    ensures Tracked(c, CommitStep(c, s, w, a), o, Followed(c, s, w, ByCommitter(a), o, t))
  {
    hide Conserved, Housed, Resolved, Typed, Tracked, DoRecv, DoGroup, DoCasRead, DoCasWrite, DoAbandon, WriteApplies,
         Rewritten, Outcomes, GroupTrail, Verdict, InGroup;
    if a.CasRead? || a.CasWrite? || a.CasRetry? || a.CasAbort? {
      var e, err := CasEnds(c, s, w, a, o, t);
      var s' := CommitStep(c, s, w, a);
      if InCas(s'.jobs.com) {
        StillInCas(c, s, s', o, t);
      } else {
        SettleTracks(c, s, s', o, t, e, err);
      }
    } else if a.Group? {
      GroupTracks(c, s, w, o, t);
    } else if a.Recv? && s.jobs.halted && Holding(s.jobs.chan, 0, o) {
      RefuseTracks(c, s, w, o, t);
    } else if a == Abandon(o) {
      AbandonTracks(c, s, w, o, t);
    } else {
      ReadyIsOwn(s);
      FileTracks(c, s, w, a, o, t);
    }
  }

  lemma ReadyIsOwn(s: State)
    requires Conserved(s.jobs, s.hist)
    ensures forall p :: p in s.jobs.ready ==> s.jobs.ready[p].batch.ordinal == p
  {
    hide Total, Live;
  }

  // ---------- resolver ----------

  lemma ResolverTracks(c: Config, s: State, a: ResolverAction, o: nat, t: Trail)
    requires Conserved(s.jobs, s.hist) && InOrder(s.front, s.hist) && Housed(s.hist)
    requires Resolved(s.hist, s.acct.watchers, s.jobs.res) && ResolverCan(s, a) && Tracked(c, s, o, t)
    ensures Tracked(c, ResolverStep(s, a), o, t)
  {
    hide Conserved, InOrder, Housed, Resolved, Tracked, AckFlush;
    if a == Resolve {
      ResolveTracks(c, s, o, t);
    } else {
      LetGoTracks(c, s, a, o, t);
    }
  }

  lemma ResolveTracks(c: Config, s: State, o: nat, t: Trail)
    requires Conserved(s.jobs, s.hist) && InOrder(s.front, s.hist) && Housed(s.hist)
    requires Resolved(s.hist, s.acct.watchers, s.jobs.res) && ResolverCan(s, Resolve) && Tracked(c, s, o, t)
    ensures Tracked(c, DoResolve(s), o, t)
  {
    hide Housed, Resolved, Fresh, Verdict, Total, Unaltered, Sane, Pending;
    var res := s.jobs.res;
    assert InResolver(res)[0] == res.job;
    PendingFrame(s.jobs, DoResolve(s).jobs, o, t);
    ReleasingIsLive(s.jobs, s.hist);
    NotReleased(s.jobs, s.hist);
    ResolveIsFirst(s.hist, s.acct.watchers, res.job, res.done);
  }

  lemma LetGoTracks(c: Config, s: State, a: ResolverAction, o: nat, t: Trail)
    requires ResolverCan(s, a) && a != Resolve && Tracked(c, s, o, t)
    ensures Tracked(c, ResolverStep(s, a), o, t)
  {
    hide Verdict, AckFlush, Sane, Pending;
    PendingFrame(s.jobs, ResolverStep(s, a).jobs, o, t);
    assert !s.jobs.res.Idle? ==> InResolver(s.jobs.res)[0] == s.jobs.res.job;
  }

  lemma PendingFrame(j: Jobs, j': Jobs, o: nat, t: Trail)
    requires Pending(j, o, t) && j' == j.(res := j'.res)
    ensures Pending(j', o, t)
  {
    hide Fresh, FreshWork;
  }

  /** Every step carries the trail of every batch on. */
  lemma StepTracks(c: Config, s: State, w: World, a: Action, o: nat, t: Trail)
    requires Local(c, s) && Enabled(c, s, a) && Tracked(c, s, o, t)
    ensures Tracked(c, NextState(c, s, w, a), o, Followed(c, s, w, a, o, t))
  {
    hide Conserved, Phases, Cursor, Gated, Typed, InOrder, Balanced, Flushing, Housed, Resolved, Tracked, Holding,
         EncodeResult, InGroup, CallerCan, RotatorCan, WorkerCan, CommitCan, ResolverCan, RotatorStep, WorkerStep,
         CommitStep, ResolverStep, WriteApplies, Rewritten, CallerStep;
    match a
    case ByCaller(x) => CallerTracks(c, s, x, o, t);
    case ByRotator(x) => RotatorTracks(c, s, x, o, t);
    case ByWorker(x) => WorkerTracks(c, s, w, x, o, t);
    case ByCommitter(x) => CommitTracks(c, s, w, x, o, t);
    case ByResolver(x) => ResolverTracks(c, s, x, o, t);
  }

  lemma CallerTracks(c: Config, s: State, a: CallerAction, o: nat, t: Trail)
    requires CallerCan(c, s, a) && Tracked(c, s, o, t)
    ensures Tracked(c, CallerStep(c, s, a), o, t)
  {
    hide Pending, Judged, EncodeResult, MessageCost, CostOf, Verdict;
  }

  // ---------- endings happen once ----------

  lemma UploadEndsOnce(c: Config, s: State, a: Action, o: nat, t: Trail)
    requires Enabled(c, s, a) && Pending(s.jobs, o, t) && UploadEnds(c, s, a, o).Some?
    ensures t == NOTHING
  {
    hide EncodeResult, CallerCan, RotatorCan, CommitCan, ResolverCan, OwnError;
  }

  lemma CommitEndsOnce(c: Config, s: State, w: World, a: Action, o: nat, t: Trail)
    requires Enabled(c, s, a) && Pending(s.jobs, o, t) && Typed(c, s.jobs) && CommitEnds(c, s, w, a, o).Some?
    ensures t.upload.Some? && t.commit == None
    ensures CommitEnds(c, s, w, a, o) != Some(Refused) ==> t.upload == Some(UploadedOk)
  {
    hide EncodeResult, CallerCan, RotatorCan, WorkerCan, ResolverCan, EncoderWork, UploaderWork, WriteApplies,
         Rewritten, Stored, Ordinals, ItemsOf;
    if InGroup(s.jobs.com, o) && (s.jobs.com.Reading? || s.jobs.com.Writing? || s.jobs.com.BackingOff?) {
      OutcomesAreTold(s.jobs.com, o, t, WrittenOk, None);
    }
  }

  // ---------- decided for good ----------

  /** The batch is past every step that could end its upload or its commit. */
  predicate Decided(j: Jobs, h: History, o: nat) {
    && o < |h.emitted| && Absent(j.sending, o) && Absent(j.enc, o) && Absent(j.upl, o) && Absent(j.chan, o)
    && o !in j.ready && (InCas(j.com) ==> Absent(j.com.taken, o))
  }

  lemma DecidedEndsNothing(c: Config, s: State, w: World, a: Action, o: nat)
    requires Enabled(c, s, a) && Decided(s.jobs, s.hist, o)
    ensures UploadEnds(c, s, a, o) == None && CommitEnds(c, s, w, a, o) == None
  {
    hide EncodeResult, CallerCan, RotatorCan, ResolverCan, WriteApplies, Rewritten, Stored, Ordinals, ItemsOf;
    if InGroup(s.jobs.com, o) {
      GroupIsInHand(s.jobs.com, o);
    }
  }

  lemma CommitStaysDecided(c: Config, s: State, w: World, a: CommitAction, o: nat)
    requires CommitCan(s, a) && Decided(s.jobs, s.hist, o) && forall p :: p in s.jobs.ready ==>
            s.jobs.ready[p].batch.ordinal == p
    ensures Decided(CommitStep(c, s, w, a).jobs, CommitStep(c, s, w, a).hist, o)
  {
    hide Outcomes, Rewritten, Matches, ItemsOf, Stored, Unstored, TakeCount;
    if a.Group? {
      var k := TakeCount(s.jobs.ready, s.jobs.next, c.groupSize);
      var taken := Taken(s.jobs.ready, s.jobs.next, k);
      forall i | 0 <= i < |taken|
        ensures taken[i].batch.ordinal != o
      {
        assert s.jobs.next + i in s.jobs.ready;
      }
    }
  }

  lemma StaysDecided(c: Config, s: State, w: World, a: Action, o: nat)
    requires Enabled(c, s, a) && Conserved(s.jobs, s.hist) && Decided(s.jobs, s.hist, o)
    ensures Decided(NextState(c, s, w, a).jobs, NextState(c, s, w, a).hist, o)
  {
    hide Conserved, RotatorCan, RotatorStep, WorkerCan, WorkerStep, CommitCan, CommitStep, MessageCost, CostOf,
         AckFlush, Absent;
    ReadyIsOwn(s);
    if a.ByCommitter? {
      CommitStaysDecided(c, s, w, a.committer, o);
    } else if a.ByRotator? {
      RotatorStaysDecided(c, s, a.rotator, o);
    } else if a.ByWorker? {
      WorkerStaysDecided(c, s, a.worker, o);
    }
  }

  lemma RotatorStaysDecided(c: Config, s: State, a: RotatorAction, o: nat)
    requires RotatorCan(c, s, a) && Decided(s.jobs, s.hist, o)
    ensures Decided(RotatorStep(c, s, a).jobs, RotatorStep(c, s, a).hist, o)
  {
    hide MessageCost, CostOf, Representable, AckFlush, AllResolved, FramedCost, FramingOf;
  }

  lemma WorkerStaysDecided(c: Config, s: State, a: WorkerAction, o: nat)
    requires WorkerCan(c, s, a) && Decided(s.jobs, s.hist, o)
    ensures Decided(WorkerStep(c, s, a).jobs, WorkerStep(c, s, a).hist, o)
  {
    hide EncodeWork;
  }

  /** Everything below a group is decided once the group is settled. */
  lemma SettledBelow(c: Config, s: State, s': State, o: nat)
    requires Conserved(s.jobs, s.hist) && Cursor(s.jobs, s.hist) && Phases(s.jobs) && InCas(s.jobs.com)
            && o < s.jobs.next
    requires s' == s.(jobs := s.jobs.(com := s'.jobs.com, halted := s'.jobs.halted)) && !InCas(s'.jobs.com)
    ensures Decided(s'.jobs, s'.hist, o)
  {
    hide Bag, Hand, InResolver, Unaltered, Total, Absent;
    var j := s.jobs;
    CountOnce(j, s.hist, o);
    AbsentIff(j.sending, o);
    AbsentIff(j.enc, o);
    AbsentIff(j.upl, o);
    AbsentIff(j.chan, o);
  }

  // ---------- halts and commits ----------

  predicate SaysHalted(t: Trail) {
    t.commit == Some(HaltedInHand) || t.commit == Some(Refused)
  }

  lemma CommitHalts(c: Config, s: State, w: World, a: CommitAction, o: nat)
    requires CommitCan(s, a)
    ensures s.jobs.halted ==> CommitStep(c, s, w, a).jobs.halted
    ensures SaysHalted(Trail(None, CommitEnds(c, s, w, ByCommitter(a), o))) && !a.Abandon? ==>
            CommitStep(c, s, w, a).jobs.halted
  {
    hide Outcomes, Rewritten, Matches, ItemsOf, Stored, Unstored, TakeCount, Taken, Left, Ordinals;
  }

  /** Only a halted producer says so, and it stays halted. */
  lemma HaltStays(c: Config, s: State, w: World, a: Action, o: nat, t: Trail)
    requires Enabled(c, s, a) && Phases(s.jobs) && (SaysHalted(t) ==> s.jobs.halted)
    ensures s.jobs.halted ==> NextState(c, s, w, a).jobs.halted
    ensures SaysHalted(Followed(c, s, w, a, o, t)) ==> NextState(c, s, w, a).jobs.halted
  {
    hide CommitCan, CommitStep, EncodeWork, EncodeResult, MessageCost, CostOf, Representable, AckFlush, AllResolved,
         FramedCost, FramingOf, WriteApplies, Rewritten, InGroup;
    if a.ByCommitter? {
      CommitHalts(c, s, w, a.committer, o);
      if a.committer.Abandon? {
        AbandonIsHalted(s, a.committer);
      }
    }
  }

  lemma AbandonIsHalted(s: State, a: CommitAction)
    requires Phases(s.jobs) && CommitCan(s, a) && a.Abandon?
    ensures s.jobs.halted
  {}

  /** The step that commits batch `b` leaves every smaller ordinal decided, and none of them halted. */
  lemma CommitClearsBelow(c: Config, s: State, w: World, a: Action, b: nat, o: nat, t: Trail)
    requires Local(c, s) && Enabled(c, s, a) && o < b && (SaysHalted(t) ==> s.jobs.halted)
    requires CommitEnds(c, s, w, a, b) == Some(WrittenOk)
    ensures Decided(NextState(c, s, w, a).jobs, NextState(c, s, w, a).hist, o)
    ensures !SaysHalted(Followed(c, s, w, a, o, t))
  {
    hide Conserved, Cursor, Gated, Typed, InOrder, Balanced, Flushing, Housed, Resolved, Stored, Outcomes, Rewritten,
         ItemsOf, Matches, EncodeResult, CallerCan, RotatorCan, WorkerCan, ResolverCan, Ordinals, Absent;
    var x := a.committer;
    GroupIsInHand(s.jobs.com, b);
    TakenIsBelow(s.jobs, b);
    SettledBelow(c, s, NextState(c, s, w, a), o);
  }

  lemma TakenIsBelow(j: Jobs, b: nat)
    requires Phases(j) && InCas(j.com) && !Absent(Hand(j.com), b)
    ensures b < j.next
  {
    hide Stored;
    var k :| 0 <= k < |Hand(j.com)| && Hand(j.com)[k].batch.ordinal == b;
    assert j.com.taken[k].batch.ordinal == b;
  }
}
