/** Two more runs. In the first an upload fails, and a later Flush with a batch of its own returns nil, its batch
    committed. In the second the producer halts, and a Flush still returns nil. */
module FlushExamples {
  import opened Wrappers
  import opened Bytes
  import opened ManifestCodec
  import opened ManifestLog
  import opened ObjStore
  import opened Accumulator
  import opened Committer
  import opened Pipeline
  import opened System
  import opened Examples
  import Budget

  function C(): Config { Only(PLAIN) }

  const EMPTY := World(map[], [])

  // ---------- an upload fails ----------

  lemma UploadFails()
    ensures CanReach(C(), Sent([], [Job(Sealed(), Putting(Payload(), 0))], []), EMPTY,
                     Sent([], [], [Ended(Some(Storage))]), EMPTY)
  {
    hide CanReach, Only, FramedCost, FramingOf, Payload;
    Numbers(PLAIN);
    var s0, s1 := Sent([], [Job(Sealed(), Putting(Payload(), 0))], []), Sent([], [Ended(Some(Storage))], []);
    var s2 := Sent([], [], [Ended(Some(Storage))]);
    Takes(C(), s0, EMPTY, ByWorker(PutFail(0, false)), s1, EMPTY);
    Takes(C(), s1, EMPTY, ByWorker(ReportUpload(0)), s2, EMPTY);
    Onward(C(), s0, EMPTY, s1, EMPTY, s2, EMPTY);
  }

  lemma FirstFails()
    ensures CanReach(C(), Init(C()), EMPTY, Flushed(Storage, Selecting, []), EMPTY)
  {
    hide CanReach, Init, Only, AtEncoder, Sent, Flushed, Ended, Payload;
    var s := Init(C());
    ToEncoder(PLAIN, EMPTY);
    Encodes();
    Onward(C(), s, EMPTY, AtEncoder(), EMPTY, Sent([], [Job(Sealed(), Putting(Payload(), 0))], []), EMPTY);
    UploadFails();
    Onward(C(), s, EMPTY, Sent([], [Job(Sealed(), Putting(Payload(), 0))], []), EMPTY,
           Sent([], [], [Ended(Some(Storage))]), EMPTY);
    FailsThrough(PLAIN, Storage, EMPTY);
    Onward(C(), s, EMPTY, Sent([], [], [Ended(Some(Storage))]), EMPTY, Flushed(Storage, Selecting, []), EMPTY);
  }

  // ---------- the second batch ----------

  function Second(): Message { Given().(watcher := 1) }

  function Sealed2(): Batch { Batch(1, [Second()], Some(0), FramedCost([Second()])) }

  function Front2(entering: seq<Message>, reserved: seq<Message>, acc: seq<Message>, rot: Rotator): Front {
    Front(entering, reserved, [], acc, rot, false, false)
  }

  function Jobs2(enc: seq<Job>, upl: seq<Job>, chan: seq<Job>, ready: map<nat, Job>, next: nat, com: Commit,
                 res: Resolver): Jobs {
    Jobs([], enc, upl, chan, ready, next, com, res, false, false)
  }

  const IDLE := Jobs2([], [], [], map[], 1, Receiving, Idle)

  /** Before the second batch is sealed. */
  function Early(front: Front, jobs: Jobs, batches: int, flushes: seq<Flush>, accepted: seq<Message>): State {
    State(front, jobs, Gates(1, false, 1, false), Account(0, batches, map[0 := Some(Storage)], flushes),
          History(accepted, [Some(0)], [Sealed()], {0}, 0))
  }

  /** Afterwards. */
  function Late(jobs: Jobs, watchers: Watchers, flush: Flush): State {
    State(Front2([], [], [], Selecting), jobs, Gates(1, false, 1, false),
          Account(FramingOf([Second()]), 1, watchers, [flush]),
        History([Given(), Second()], [Some(0), Some(1)], [Sealed(), Sealed2()], {0}, 0))
  }

  lemma FrontIsIdle()
    ensures CanReach(C(), Flushed(Storage, Selecting, []), EMPTY,
                     Early(Front2([], [], [], Selecting), IDLE, 0, [], [Given()]), EMPTY)
  {
    hide CanReach, Only, FramedCost, FramingOf;
    Numbers(PLAIN);
    var s0, s2 := Flushed(Storage, Selecting, []), Early(Front2([], [], [], Selecting), IDLE, 0, [], [Given()]);
    var s1 := Early(Front2([], [], [], Selecting), IDLE.(com := Grouping), 0, [], [Given()]);
    Takes(C(), s0, EMPTY, ByCommitter(CommitAction.Delivered), s1, EMPTY);
    Takes(C(), s1, EMPTY, ByCommitter(Group), s2, EMPTY);
    Onward(C(), s0, EMPTY, s1, EMPTY, s2, EMPTY);
  }

  function Asking(entering: seq<Message>, reserved: seq<Message>): State {
    Early(Front2(entering, reserved, [], Selecting), IDLE, 0, [], [Given()])
  }

  lemma SecondEnters()
    ensures CanReach(C(), Asking([], []), EMPTY, Asking([Given()], []), EMPTY)
  {
    hide CanReach, Only, FramedCost, MessageCost;
    Numbers(PLAIN);
    Takes(C(), Asking([], []), EMPTY, ByCaller(Enter(Given())), Asking([Given()], []), EMPTY);
  }

  lemma SecondReserves()
    ensures CanReach(C(), Asking([Given()], []), EMPTY, Asking([], [Given()]), EMPTY)
  {
    hide CanReach, Only, FramedCost, MessageCost;
    Numbers(PLAIN);
    Costless();
    assert Without([Given()], 0) == [];
    Takes(C(), Asking([Given()], []), EMPTY, ByCaller(Reserve(0)), Asking([], [Given()]), EMPTY);
  }

  lemma SecondCostless()
    ensures CostOf([Second()]) == 0
  {
    Costless();
    assert [Second()][..0] == [];
  }

  function Collecting(flushes: seq<Flush>): State {
    Early(Front2([], [], [Second()], Selecting), IDLE, 0, flushes, [Given(), Second()])
  }

  lemma SecondAccepted()
    ensures CanReach(C(), Asking([], [Given()]), EMPTY, Collecting([]), EMPTY)
  {
    hide CanReach, Only, FramedCost, CostOf, MessageCost;
    Numbers(PLAIN);
    SecondCostless();
    assert Without([Given()], 0) == [] && [] + [Second()] == [Second()];
    Takes(C(), Asking([], [Given()]), EMPTY, ByCaller(HandOver(0)), Collecting([]), EMPTY);
  }

  function AtRotator(rot: Rotator, batches: int, flush: Flush): State {
    Early(Front2([], [], [Second()], rot), IDLE, batches, [flush], [Given(), Second()])
  }

  lemma FlushIsCalled()
    ensures CanReach(C(), Collecting([]), EMPTY, AtRotator(Selecting, 0, Calling(2)), EMPTY)
  {
    hide CanReach, Only, FramedCost, CostOf, MessageCost;
    Numbers(PLAIN);
    Takes(C(), Collecting([]), EMPTY, ByCaller(CallFlush), AtRotator(Selecting, 0, Calling(2)), EMPTY);
  }

  lemma FlushIsTaken()
    ensures CanReach(C(), AtRotator(Selecting, 0, Calling(2)), EMPTY,
                     AtRotator(Acquiring(ByFlush(0), false), 0, Waiting(2)), EMPTY)
  {
    hide CanReach, Only, FramedCost;
    Numbers(PLAIN);
    Takes(C(), AtRotator(Selecting, 0, Calling(2)), EMPTY, ByRotator(TakeFlush(0)),
          AtRotator(Draining(0), 0, Waiting(2)), EMPTY);
    Takes(C(), AtRotator(Draining(0), 0, Waiting(2)), EMPTY, ByRotator(DrainDone),
        AtRotator(Acquiring(ByFlush(0), false), 0, Waiting(2)), EMPTY);
    Onward(C(), AtRotator(Selecting, 0, Calling(2)), EMPTY, AtRotator(Draining(0), 0, Waiting(2)), EMPTY,
           AtRotator(Acquiring(ByFlush(0), false), 0, Waiting(2)), EMPTY);
  }

  lemma SecondFits()
    ensures Representable(C(), 1, [Second()])
  {
    hide EncodedRange;
    var m, range := Second(), QueueMetadata(0, 0, []);
    assert [m][..0] == [] && [range][1..] == [];
    assert EntriesOf([m]) == [[]];
    assert RangesOf([m]) == [range];
    assert EncodedRanges([range]) == EncodedRange(range) + EncodedRanges([]);
  }

  function Job2(work: Work): Job { Job(Sealed2(), work) }

  function Told1(): Watchers { map[0 := Some(Storage)] }

  function Told2(): Watchers { map[0 := Some(Storage), 1 := None] }

  lemma SecondSent()
    ensures CanReach(C(), AtRotator(Acquiring(ByFlush(0), false), 0, Waiting(2)), EMPTY, Working([Job2(Encoding)], []),
                     EMPTY)
  {
    hide CanReach, FramedCost, FramingOf, Representable;
    SecondFits();
    var s0, s1 := AtRotator(Acquiring(ByFlush(0), false), 0, Waiting(2)),
        AtRotator(Reconciling(ByFlush(0)), 1, Waiting(2));
    var s3 := Working([Job2(Encoding)], []);
    var s2 := s3.(front := s3.front.(rot := Sending(ByFlush(0))), jobs := IDLE.(sending := [Job2(Encoding)]));
    Takes(C(), s0, EMPTY, ByRotator(Acquire), s1, EMPTY);
    Takes(C(), s1, EMPTY, ByRotator(Seal), s2, EMPTY);
    Onward(C(), s0, EMPTY, s1, EMPTY, s2, EMPTY);
    Takes(C(), s2, EMPTY, ByRotator(Send), s3, EMPTY);
    Onward(C(), s0, EMPTY, s2, EMPTY, s3, EMPTY);
  }

  lemma SecondEncodes()
    ensures EncodeResult(C(), Sealed2()) == Ok(Payload())
  {
    assert [Second()][..0] == [];
    assert EntriesOf([Second()]) == [[]];
  }

  function OneObject(): World { World(Written(map[], C().location(1), Payload()), []) }

  function Working(enc: seq<Job>, upl: seq<Job>): State {
    Late(IDLE.(enc := enc, upl := upl), Told1(), Waiting(2))
  }

  lemma SecondIsEncoded()
    ensures CanReach(C(), Working([Job2(Encoding)], []), EMPTY, Working([Job2(Encoded(Payload()))], []), EMPTY)
  {
    hide CanReach, Only, FramedCost, FramingOf, EncodeResult, Payload;
    Numbers(PLAIN);
    SecondEncodes();
    Takes(C(), Working([Job2(Encoding)], []), EMPTY, ByWorker(Encode(0)), Working([Job2(Encoded(Payload()))], []),
          EMPTY);
  }

  lemma SecondToUploader()
    ensures CanReach(C(), Working([Job2(Encoded(Payload()))], []), EMPTY, Working([], [Job2(Putting(Payload(), 0))]),
                     EMPTY)
  {
    hide CanReach, Only, FramedCost, FramingOf, Payload;
    Numbers(PLAIN);
    Takes(C(), Working([Job2(Encoded(Payload()))], []), EMPTY, ByWorker(ToUploader(0)),
          Working([], [Job2(Putting(Payload(), 0))]), EMPTY);
  }

  lemma SecondUploads()
    ensures CanReach(C(), Working([], [Job2(Putting(Payload(), 0))]), EMPTY, Working([], [Job2(Finished(None))]),
                     OneObject())
  {
    hide CanReach, Only, FramedCost, FramingOf, Payload;
    Numbers(PLAIN);
    Takes(C(), Working([], [Job2(Putting(Payload(), 0))]), EMPTY, ByWorker(PutOk(0)),
          Working([], [Job2(Finished(None))]), OneObject());
  }

  function Committing(ready: map<nat, Job>, next: nat, com: Commit): State {
    Late(Jobs2([], [], [], ready, next, com, Idle), Told1(), Waiting(2))
  }

  lemma SecondArrives()
    ensures CanReach(C(), Working([], [Job2(Finished(None))]), OneObject(),
                     Committing(map[1 := Job2(Finished(None))], 1, Grouping), OneObject())
  {
    hide CanReach, Only, FramedCost, FramingOf, Payload;
    Numbers(PLAIN);
    var w, j := OneObject(), Job2(Finished(None));
    var s0, s1 := Working([], [j]), Late(IDLE.(chan := [j]), Told1(), Waiting(2));
    var s2, s3 := Committing(map[1 := j], 1, Gathering), Committing(map[1 := j], 1, Grouping);
    assert [j][1..] == [];
    Takes(C(), s0, w, ByWorker(ReportUpload(0)), s1, w);
    Takes(C(), s1, w, ByCommitter(Recv), s2, w);
    Onward(C(), s0, w, s1, w, s2, w);
    Takes(C(), s2, w, ByCommitter(GatherEnd), s3, w);
    Onward(C(), s0, w, s2, w, s3, w);
  }

  lemma TakesSecond(j: Job)
    ensures var ready := map[1 := j];
            TakeCount(ready, 1, 1) == 1 && Taken(ready, 1, 1) == [j] && Left(ready, 1, 1) == map[]
    ensures j.work == Finished(None) ==> Stored([j]) == [j] && Unstored([j]) == []
  {
    assert [j][..0] == [];
    assert TakeCount(map[1 := j], 2, 0) == 0;
  }

  lemma NoManifestYet()
    ensures VersionOf(OneObject().objects, []) == 0
  {
    assert |C().location(1)| == 2;
  }

  lemma SecondGroups()
    ensures CanReach(C(), Committing(map[1 := Job2(Finished(None))], 1, Grouping), OneObject(),
                     Committing(map[], 2, Reading([Job2(Finished(None))], 0, 0, 0)), OneObject())
  {
    hide CanReach, Only, OneObject, FramedCost, FramingOf, TakeCount, Taken, Left, Stored, Unstored, VersionOf;
    Numbers(PLAIN);
    NoManifestYet();
    TakesSecond(Job2(Finished(None)));
    Takes(C(), Committing(map[1 := Job2(Finished(None))], 1, Grouping), OneObject(), ByCommitter(Group),
          Committing(map[], 2, Reading([Job2(Finished(None))], 0, 0, 0)), OneObject());
  }

  function Item2(): EnqueueItem { ItemOf(C(), Sealed2()) }

  function Manifest2(): Bytes {
    match Rewritten(None, [Item2()])
    case Ok(data) => data
    case Err(_) => []
  }

  function Both(): World { World(Written(OneObject().objects, [], Manifest2()), [Block(0, [1], [Item2()])]) }

  lemma SecondItemFits()
    ensures ItemsEncodable([Item2()]) && ItemsFit([Item2()])
  {
    hide EncodedRange;
    SecondFits();
    assert [Second()][..0] == [];
    assert RangesOf([Second()]) == [QueueMetadata(0, 0, [])];
  }

  lemma SecondRewrites()
    ensures Rewritten(None, [Item2()]) == Ok(Manifest2())
  {
    hide Rewritten, Holds, ItemsFit, ItemsEncodable, Extended, EmptyData, Item2;
    EmptyHolds();
    SecondItemFits();
    AppendRefinesList(EmptyData(), EMPTY_LOG, [Item2()]);
    SameAsEmpty([Item2()]);
  }

  lemma SecondItems()
    ensures ItemsOf(C(), [Job2(Finished(None))]) == [Item2()] && Ordinals([Job2(Finished(None))]) == [1]
  {}

  lemma SecondReads()
    ensures CanReach(C(), Committing(map[], 2, Reading([Job2(Finished(None))], 0, 0, 0)), OneObject(),
                     Committing(map[], 2, Writing([Job2(Finished(None))], 0, 0, 0, Manifest2(), None)), OneObject())
  {
    hide CanReach, FramedCost, FramingOf, Payload, Stored, Unstored, Rewritten, Manifest2, Item2, RangesOf;
    TakesSecond(Job2(Finished(None)));
    SecondRewrites();
    SecondItems();
    Takes(C(), Committing(map[], 2, Reading([Job2(Finished(None))], 0, 0, 0)), OneObject(),
          ByCommitter(CasRead(false)), Committing(map[], 2,
                                                  Writing([Job2(Finished(None))], 0, 0, 0, Manifest2(), None)),
        OneObject());
  }

  lemma SecondCommits()
    ensures CanReach(C(), Committing(map[], 2, Writing([Job2(Finished(None))], 0, 0, 0, Manifest2(), None)),
                     OneObject(), Committing(map[], 2, Delivering([Job2(Finished(None))], Regroup)), Both())
  {
    hide CanReach, FramedCost, FramingOf, Payload, Stored, Unstored, Rewritten, Manifest2, Item2, RangesOf;
    TakesSecond(Job2(Finished(None)));
    SecondItems();
    assert Outcomes([Job2(Finished(None))], None) == [Job2(Finished(None))];
    Takes(C(), Committing(map[], 2, Writing([Job2(Finished(None))], 0, 0, 0, Manifest2(), None)), OneObject(),
          ByCommitter(CasWrite(Truthful)), Committing(map[], 2, Delivering([Job2(Finished(None))], Regroup)), Both());
  }

  function Resolved2(res: Resolver, flush: Flush): State {
    Late(Jobs2([], [], [], map[], 2, Delivering([], Regroup), res), Told2(), flush)
  }

  lemma SecondResolves()
    ensures CanReach(C(), Committing(map[], 2, Delivering([Job2(Finished(None))], Regroup)), Both(),
                     Resolved2(Releasing(Job2(Finished(None))), Acked(2, None, Some(1))), Both())
  {
    hide CanReach, Only, FramedCost, FramingOf, Both;
    Numbers(PLAIN);
    var w, j := Both(), Job2(Finished(None));
    var s0, s1 := Committing(map[], 2, Delivering([j], Regroup)),
        Late(Jobs2([], [], [], map[], 2, Delivering([], Regroup), Resolving(j, 0)), Told1(), Waiting(2));
    var s2, s3 := Resolved2(Resolving(j, 1), Waiting(2)), Resolved2(Releasing(j), Acked(2, None, Some(1)));
    assert [j][1..] == [];
    Takes(C(), s0, w, ByCommitter(Deliver), s1, w);
    Takes(C(), s1, w, ByResolver(Resolve), s2, w);
    Onward(C(), s0, w, s1, w, s2, w);
    Takes(C(), s2, w, ByResolver(Acknowledge), s3, w);
    Onward(C(), s0, w, s2, w, s3, w);
  }

  function Returned2(flush: Flush): State {
    var s := Resolved2(Idle, flush);
    s.(acct := s.acct.(bytesUsed := 0, batchesUsed := 0), hist := s.hist.(released := {0, 1}))
  }

  lemma SecondGivenBack()
    ensures Budget.Lowered(FramingOf([Second()]), FramedCost([Second()])) == 0 && Budget.Lowered(1, 1) == 0
  {
    hide FramingOf, CostOf;
    SecondCostless();
  }

  lemma SecondReturns()
    ensures CanReach(C(), Resolved2(Releasing(Job2(Finished(None))), Acked(2, None, Some(1))), Both(),
                     Returned2(Returned(2, None, Some(1))), Both())
  {
    hide CanReach, Only, FramedCost, FramingOf, Both, Budget.Lowered;
    Numbers(PLAIN);
    SecondGivenBack();
    var w, s0 := Both(), Resolved2(Releasing(Job2(Finished(None))), Acked(2, None, Some(1)));
    assert {0} + {1} == {0, 1};
    Takes(C(), s0, w, ByResolver(Release), Returned2(Acked(2, None, Some(1))), w);
    Takes(C(), Returned2(Acked(2, None, Some(1))), w, ByCaller(FlushDrained(0)), Returned2(Returned(2, None, Some(1))),
          w);
    Onward(C(), s0, w, Returned2(Acked(2, None, Some(1))), w, Returned2(Returned(2, None, Some(1))), w);
  }

  lemma ToSecondSent()
    ensures CanReach(C(), Init(C()), EMPTY, Working([Job2(Encoding)], []), EMPTY)
  {
    hide CanReach, Init, Only, Flushed, Working;
    var c, s, w := C(), Init(C()), EMPTY;
    FirstFails();
    FrontIsIdle();
    Onward(c, s, w, Flushed(Storage, Selecting, []), w, Asking([], []), w);
    SecondEnters();
    Onward(c, s, w, Asking([], []), w, Asking([Given()], []), w);
    SecondReserves();
    Onward(c, s, w, Asking([Given()], []), w, Asking([], [Given()]), w);
    SecondAccepted();
    Onward(c, s, w, Asking([], [Given()]), w, Collecting([]), w);
    FlushIsCalled();
    Onward(c, s, w, Collecting([]), w, AtRotator(Selecting, 0, Calling(2)), w);
    FlushIsTaken();
    Onward(c, s, w, AtRotator(Selecting, 0, Calling(2)), w, AtRotator(Acquiring(ByFlush(0), false), 0, Waiting(2)), w);
    SecondSent();
    Onward(c, s, w, AtRotator(Acquiring(ByFlush(0), false), 0, Waiting(2)), w,
        Working([Job2(Encoding)], []), w);
  }

  lemma ToSecondReturned()
    ensures CanReach(C(), Init(C()), EMPTY, Returned2(Returned(2, None, Some(1))), Both())
  {
    hide CanReach, Init, Only, Working, Committing, Payload, Resolved2, Returned2, OneObject, Both, Manifest2;
    var c, s, w := C(), Init(C()), EMPTY;
    ToSecondSent();
    SecondIsEncoded();
    Onward(c, s, w, Working([Job2(Encoding)], []), w, Working([Job2(Encoded(Payload()))], []), w);
    SecondToUploader();
    Onward(c, s, w, Working([Job2(Encoded(Payload()))], []), w, Working([], [Job2(Putting(Payload(), 0))]), w);
    SecondUploads();
    Onward(c, s, w, Working([], [Job2(Putting(Payload(), 0))]), w, Working([], [Job2(Finished(None))]), OneObject());
    SecondArrives();
    Onward(c, s, w, Working([], [Job2(Finished(None))]), OneObject(),
           Committing(map[1 := Job2(Finished(None))], 1, Grouping), OneObject());
    SecondGroups();
    Onward(c, s, w, Committing(map[1 := Job2(Finished(None))], 1, Grouping), OneObject(),
           Committing(map[], 2, Reading([Job2(Finished(None))], 0, 0, 0)), OneObject());
    SecondReads();
    Onward(c, s, w, Committing(map[], 2, Reading([Job2(Finished(None))], 0, 0, 0)), OneObject(),
           Committing(map[], 2, Writing([Job2(Finished(None))], 0, 0, 0, Manifest2(), None)), OneObject());
    SecondCommits();
    Onward(c, s, w, Committing(map[], 2, Writing([Job2(Finished(None))], 0, 0, 0, Manifest2(), None)), OneObject(),
           Committing(map[], 2, Delivering([Job2(Finished(None))], Regroup)), Both());
    SecondResolves();
    Onward(c, s, w, Committing(map[], 2, Delivering([Job2(Finished(None))], Regroup)), Both(),
           Resolved2(Releasing(Job2(Finished(None))), Acked(2, None, Some(1))), Both());
    SecondReturns();
    Onward(c, s, w, Resolved2(Releasing(Job2(Finished(None))), Acked(2, None, Some(1))), Both(),
           Returned2(Returned(2, None, Some(1))), Both());
  }

  /** Message 0 is in a batch whose upload fails; message 1 is appended and Flush is called; the Flush seals message 1
      into a batch of its own, the batch is committed, and Flush returns nil. */
  lemma NilFlushWithCommittedBatch()
    ensures Cluster(map[0 := C()], []) && Start(map[0 := C()], [], EMPTY_LOG, System(map[0 := Init(C())], EMPTY))
    ensures CanReach(C(), Init(C()), EMPTY, Returned2(Returned(2, None, Some(1))), Both())
    ensures Returned2(Returned(2, None, Some(1))).acct.watchers == map[0 := Some(Storage), 1 := None]
  {
    hide CanReach, Both;
    OnlyIsValid(PLAIN);
    ToSecondReturned();
  }

  // ---------- a halted producer ----------

  function Halted(com: Commit, res: Resolver): State {
    var s := AtCommitter(map[], 1, com, res);
    s.(jobs := s.jobs.(halted := true))
  }

  const HALTED: Option<Error> := Some(ProducerHalted)

  lemma Halts()
    ensures CanReach(C(), AtCommitter(map[], 1, Reading([Ended(None)], 0, 0, 0), Idle), World(Stowed(), []),
                     Halted(Delivering([Ended(HALTED)], AbandonReady), Idle), World(Stowed(), []))
  {
    hide CanReach, FramedCost, FramingOf, Payload, Stored, Unstored, Rewritten, RangesOf;
    TakesOne(Ended(None));
    assert Outcomes([Ended(None)], HALTED) == [Ended(HALTED)];
    var w := World(Stowed(), []);
    Takes(C(), AtCommitter(map[], 1, Reading([Ended(None)], 0, 0, 0), Idle), w, ByCommitter(CasRead(true)),
          Halted(Delivering([Ended(HALTED)], AbandonReady), Idle), w);
  }

  function HaltedAfter(res: Resolver): State {
    var s := Halted(Delivering([], AbandonReady), res);
    s.(acct := s.acct.(watchers := map[0 := HALTED]))
  }

  lemma HaltIsTold(w: World)
    ensures CanReach(C(), Halted(Delivering([Ended(HALTED)], AbandonReady), Idle), w,
            HaltedAfter(Releasing(Ended(HALTED))), w)
  {
    hide CanReach, Only, FramedCost, FramingOf;
    Numbers(PLAIN);
    var s0, s1 := Halted(Delivering([Ended(HALTED)], AbandonReady), Idle),
        Halted(Delivering([], AbandonReady), Resolving(Ended(HALTED), 0));
    var s2, s3 := HaltedAfter(Resolving(Ended(HALTED), 1)), HaltedAfter(Releasing(Ended(HALTED)));
    assert [Ended(HALTED)][1..] == [];
    Takes(C(), s0, w, ByCommitter(Deliver), s1, w);
    Takes(C(), s1, w, ByResolver(Resolve), s2, w);
    Onward(C(), s0, w, s1, w, s2, w);
    Takes(C(), s2, w, ByResolver(Acknowledge), s3, w);
    Onward(C(), s0, w, s2, w, s3, w);
  }

  function HaltedFlush(rot: Rotator, flushes: seq<Flush>): State {
    var s := HaltedAfter(Idle);
    s.(front := s.front.(rot := rot), acct := s.acct.(bytesUsed := 0, batchesUsed := 0, flushes := flushes),
        hist := s.hist.(released := {0}))
  }

  lemma HaltedReleases(w: World)
    ensures CanReach(C(), HaltedAfter(Releasing(Ended(HALTED))), w, HaltedFlush(Selecting, [Calling(1)]), w)
  {
    hide CanReach, Only, FramedCost, FramingOf, Budget.Lowered;
    Numbers(PLAIN);
    GivenBack();
    Takes(C(), HaltedAfter(Releasing(Ended(HALTED))), w, ByResolver(Release), HaltedFlush(Selecting, []), w);
    Takes(C(), HaltedFlush(Selecting, []), w, ByCaller(CallFlush), HaltedFlush(Selecting, [Calling(1)]), w);
    Onward(C(), HaltedAfter(Releasing(Ended(HALTED))), w, HaltedFlush(Selecting, []), w,
           HaltedFlush(Selecting, [Calling(1)]), w);
  }

  lemma HaltedTakes(w: World)
    ensures CanReach(C(), HaltedFlush(Selecting, [Calling(1)]), w, HaltedFlush(Draining(0), [Waiting(1)]), w)
  {
    hide CanReach, Only, FramedCost, FramingOf;
    Numbers(PLAIN);
    Takes(C(), HaltedFlush(Selecting, [Calling(1)]), w, ByRotator(TakeFlush(0)),
          HaltedFlush(Draining(0), [Waiting(1)]), w);
  }

  lemma HaltedAnswers(w: World)
    ensures CanReach(C(), HaltedFlush(Draining(0), [Waiting(1)]), w, HaltedFlush(Selecting, [Returned(1, None, None)]),
                     w)
  {
    hide CanReach, Only, FramedCost, FramingOf;
    Numbers(PLAIN);
    var s1, s2 := HaltedFlush(Draining(0), [Waiting(1)]), HaltedFlush(Selecting, [Acked(1, None, None)]);
    var s3 := HaltedFlush(Selecting, [Returned(1, None, None)]);
    Takes(C(), s1, w, ByRotator(DrainDone), s2, w);
    Takes(C(), s2, w, ByCaller(FlushDrained(0)), s3, w);
    Onward(C(), s1, w, s2, w, s3, w);
  }

  lemma ToHaltedFlush()
    ensures CanReach(C(), Init(C()), EMPTY, HaltedFlush(Selecting, [Returned(1, None, None)]), World(Stowed(), []))
  {
    hide CanReach, Init, Only, AtCommitter, Stowed, Halted, HaltedAfter, HaltedFlush, Ended;
    var c, s, w, w' := C(), Init(C()), EMPTY, World(Stowed(), []);
    ToUploaded();
    Halts();
    Onward(c, s, w, AtCommitter(map[], 1, Reading([Ended(None)], 0, 0, 0), Idle), w',
        Halted(Delivering([Ended(HALTED)], AbandonReady), Idle), w');
    HaltIsTold(w');
    Onward(c, s, w, Halted(Delivering([Ended(HALTED)], AbandonReady), Idle), w',
        HaltedAfter(Releasing(Ended(HALTED))), w');
    HaltedReleases(w');
    Onward(c, s, w, HaltedAfter(Releasing(Ended(HALTED))), w', HaltedFlush(Selecting, [Calling(1)]), w');
    HaltedTakes(w');
    Onward(c, s, w, HaltedFlush(Selecting, [Calling(1)]), w', HaltedFlush(Draining(0), [Waiting(1)]), w');
    HaltedAnswers(w');
    Onward(c, s, w, HaltedFlush(Draining(0), [Waiting(1)]), w', HaltedFlush(Selecting, [Returned(1, None, None)]), w');
  }

  /** The only manifest attempt for message 0 fails, the producer halts, and a later Flush finds nothing to seal and
      returns nil. */
  lemma NilFlushOfHaltedProducer()
    ensures Cluster(map[0 := C()], []) && Start(map[0 := C()], [], EMPTY_LOG, System(map[0 := Init(C())], EMPTY))
    ensures CanReach(C(), Init(C()), EMPTY, HaltedFlush(Selecting, [Returned(1, None, None)]), World(Stowed(), []))
    ensures var s := HaltedFlush(Selecting, [Returned(1, None, None)]);
            s.jobs.halted && s.acct.watchers[0] == Some(ProducerHalted)
  {
    hide CanReach, Stowed;
    OnlyIsValid(PLAIN);
    ToHaltedFlush();
  }
}
