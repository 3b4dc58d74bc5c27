/** Two runs of one producer, step by step. In the first a message becomes durable: what the theorems about
    runs require can happen. In the second Flush returns nil although a message appended before it has failed. */
module Examples {
  import opened Wrappers
  import opened Bytes
  import opened ManifestCodec
  import opened ManifestLog
  import opened ObjStore
  import opened Accumulator
  import opened Committer
  import opened Pipeline
  import opened System
  import BatchCodec
  import Budget

  const PLAIN: byte := 0
  /** A compression byte the batch format does not know. */
  const UNKNOWN: byte := 9

  /** One of everything, one attempt each. */
  function Only(compression: byte): Config {
    Config(0, 1, 1, 1, 1, 1, 1, 1, 1, 1, compression, BatchCodec.Zstd((_: Bytes) => None, (_: Bytes) => None), [],
           (o: nat) => seq(o + 1, _ => 0))
  }

  lemma Numbers(compression: byte)
    ensures var c := Only(compression);
            && c.run == 0 && c.maxBytes == 1 && c.maxBatches == 1 && c.queueCap == 1 && c.flushSize == 1
            && c.encoders == 1 && c.uploaders == 1 && c.groupSize == 1 && c.uploadAttempts == 1
            && c.manifestAttempts == 1 && c.manifestPath == []
  {}

  ghost predicate CanReach(c: Config, s: State, w: World, s': State, w': World) {
    exists es ::
      && Possible(map[0 := c], System(map[0 := s], w), es)
      && Final(map[0 := c], System(map[0 := s], w), es) == System(map[0 := s'], w')
  }

  lemma Takes(c: Config, s: State, w: World, a: Action, s': State, w': World)
    requires Enabled(c, s, a) && NextState(c, s, w, a) == s' && NextWorld(c, s, w, a) == w'
    ensures CanReach(c, s, w, s', w')
  {
    hide Enabled, NextState, NextWorld;
    var cs, sys, es := map[0 := c], System(map[0 := s], w), [Event(0, a)];
    var sys' := Happened(cs, sys, es[0]);
    assert sys' == System(map[0 := s'], w');
    assert es[1..] == [];
    assert Possible(cs, sys', es[1..]) && Final(cs, sys', es[1..]) == sys';
    assert Possible(cs, sys, es) && Final(cs, sys, es) == sys';
  }

  lemma Onward(c: Config, s: State, w: World, s': State, w': World, s'': State, w'': World)
    requires CanReach(c, s, w, s', w') && CanReach(c, s', w', s'', w'')
    ensures CanReach(c, s, w, s'', w'')
  {
    hide Possible, Final;
    var cs, sys := map[0 := c], System(map[0 := s], w);
    var a :| Possible(cs, sys, a) && Final(cs, sys, a) == System(map[0 := s'], w');
    var b :| Possible(cs, System(map[0 := s'], w'), b)
        && Final(cs, System(map[0 := s'], w'), b) == System(map[0 := s''], w'');
    RunsJoin(cs, sys, a, b);
  }

  // ---------- the states on the way ----------

  function Given(): Message { Message([[]], [], 0, 0) }

  function Sealed(): Batch { Batch(0, [Given()], None, FramedCost([Given()])) }

  function Waits(entering: seq<Message>, reserved: seq<Message>): State {
    var s := Init(Only(PLAIN));
    s.(front := s.front.(entering := entering, reserved := reserved))
  }

  function Collected(): State {
    var s := Init(Only(PLAIN));
    s.(front := s.front.(acc := [Given()]), hist := s.hist.(accepted := [Given()]))
  }

  function Reconciled(): State {
    var s := Collected();
    s.(front := s.front.(rot := Reconciling(ByTime)), acct := s.acct.(batchesUsed := 1))
  }

  function Sent(enc: seq<Job>, upl: seq<Job>, chan: seq<Job>): State {
    var s := Init(Only(PLAIN));
    s.(jobs := s.jobs.(enc := enc, upl := upl, chan := chan),
       acct := s.acct.(batchesUsed := 1, bytesUsed := FramingOf([Given()])),
       hist := s.hist.(accepted := [Given()], home := [Some(0)], emitted := [Sealed()]))
  }

  function AtEncoder(): State { Sent([Job(Sealed(), Encoding)], [], []) }

  function Ended(err: Option<Error>): Job { Job(Sealed(), Finished(err)) }

  function AtCommitter(ready: map<nat, Job>, next: nat, com: Commit, res: Resolver): State {
    var s := Sent([], [], []);
    s.(jobs := s.jobs.(ready := ready, next := next, com := com, res := res))
  }

  function Settled(err: Option<Error>, res: Resolver): State {
    var s := AtCommitter(map[], 1, Delivering([], Regroup), res);
    s.(acct := s.acct.(watchers := map[0 := err]))
  }

  function Flushed(e: Error, rot: Rotator, flushes: seq<Flush>): State {
    var s := Settled(Some(e), Idle);
    s.(front := s.front.(rot := rot), acct := s.acct.(bytesUsed := 0, batchesUsed := 0, flushes := flushes),
        hist := s.hist.(released := {0}))
  }

  // ---------- append, rotate, send ----------

  lemma Costless()
    ensures MessageCost(Given()) == 0 && CostOf([Given()]) == 0 && CostOf([]) == 0
  {
    var none: seq<Bytes> := [];
    assert [Given()][..0] == [];
    assert Given().entries[..0] == none;
  }

  lemma Enters(comp: byte, w: World)
    ensures CanReach(Only(comp), Init(Only(comp)), w, Waits([], [Given()]), w)
  {
    hide CanReach, MessageCost, CostOf;
    Takes(Only(comp), Init(Only(comp)), w, ByCaller(Enter(Given())), Waits([Given()], []), w);
    Reserves(comp, w);
    Onward(Only(comp), Init(Only(comp)), w, Waits([Given()], []), w, Waits([], [Given()]), w);
  }

  lemma Reserves(comp: byte, w: World)
    ensures CanReach(Only(comp), Waits([Given()], []), w, Waits([], [Given()]), w)
  {
    hide CanReach, MessageCost, CostOf;
    Costless();
    assert Without([Given()], 0) == [];
    Takes(Only(comp), Waits([Given()], []), w, ByCaller(Reserve(0)), Waits([], [Given()]), w);
  }

  lemma Appends(comp: byte, w: World)
    ensures CanReach(Only(comp), Init(Only(comp)), w, Collected(), w)
  {
    hide CanReach, MessageCost, CostOf;
    Costless();
    Enters(comp, w);
    assert Without([Given()], 0) == [];
    Takes(Only(comp), Waits([], [Given()]), w, ByCaller(HandOver(0)), Collected(), w);
    Onward(Only(comp), Init(Only(comp)), w, Waits([], [Given()]), w, Collected(), w);
  }

  lemma Rotates(comp: byte, w: World)
    ensures CanReach(Only(comp), Collected(), w, Reconciled(), w)
  {
    hide CanReach;
    var s1 := Collected().(front := Collected().front.(rot := Acquiring(ByTime, false)));
    Takes(Only(comp), Collected(), w, ByRotator(Tick), s1, w);
    Takes(Only(comp), s1, w, ByRotator(Acquire), Reconciled(), w);
    Onward(Only(comp), Collected(), w, s1, w, Reconciled(), w);
  }

  lemma Fits(comp: byte)
    ensures Representable(Only(comp), 0, [Given()])
  {
    hide EncodedRange;
    var m, range := Given(), QueueMetadata(0, 0, []);
    assert [m][..0] == [] && [range][1..] == [];
    assert EntriesOf([m]) == [[]];
    assert RangesOf([m]) == [range];
    assert EncodedRanges([range]) == EncodedRange(range) + EncodedRanges([]);
  }

  lemma Sends(comp: byte, w: World)
    ensures CanReach(Only(comp), Reconciled(), w, AtEncoder(), w)
  {
    hide CanReach, Representable, FramedCost, FramingOf;
    Fits(comp);
    var s1 := RotatorStep(Only(comp), Reconciled(), Seal);
    Takes(Only(comp), Reconciled(), w, ByRotator(Seal), s1, w);
    Takes(Only(comp), s1, w, ByRotator(Send), AtEncoder(), w);
    Onward(Only(comp), Reconciled(), w, s1, w, AtEncoder(), w);
  }

  lemma ToEncoder(comp: byte, w: World)
    ensures CanReach(Only(comp), Init(Only(comp)), w, AtEncoder(), w)
  {
    hide CanReach, Init, Only, Collected, Reconciled, AtEncoder;
    Appends(comp, w);
    Rotates(comp, w);
    Onward(Only(comp), Init(Only(comp)), w, Collected(), w, Reconciled(), w);
    Sends(comp, w);
    Onward(Only(comp), Init(Only(comp)), w, Reconciled(), w, AtEncoder(), w);
  }

  /** Received and gathered, whatever its outcome. */
  lemma Receives(comp: byte, err: Option<Error>, w: World)
    ensures CanReach(Only(comp), Sent([], [], [Ended(err)]), w, AtCommitter(map[0 := Ended(err)], 0, Grouping, Idle), w)
  {
    hide CanReach, Only, FramedCost, FramingOf;
    Numbers(comp);
    var s0, s2 := Sent([], [], [Ended(err)]), AtCommitter(map[0 := Ended(err)], 0, Grouping, Idle);
    var s1 := AtCommitter(map[0 := Ended(err)], 0, Gathering, Idle);
    assert [Ended(err)][1..] == [];
    Takes(Only(comp), s0, w, ByCommitter(Recv), s1, w);
    Takes(Only(comp), s1, w, ByCommitter(GatherEnd), s2, w);
    Onward(Only(comp), s0, w, s1, w, s2, w);
  }

  lemma TakesOne(j: Job)
    ensures var ready := map[0 := j];
            TakeCount(ready, 0, 1) == 1 && Taken(ready, 0, 1) == [j] && Left(ready, 0, 1) == map[]
    ensures Stored([j]) == (if j.work == Finished(None) then [j] else [])
    ensures Unstored([j]) == (if j.work == Finished(None) then [] else [j])
  {
    assert [j][..0] == [];
    assert TakeCount(map[0 := j], 1, 0) == 0;
  }

  /** Delivered and its one watcher resolved. */
  lemma Resolves(comp: byte, err: Option<Error>, w: World)
    ensures CanReach(Only(comp), AtCommitter(map[], 1, Delivering([Ended(err)], Regroup), Idle), w,
                     Settled(err, Resolving(Ended(err), 1)), w)
  {
    hide CanReach, Only, FramedCost, FramingOf;
    Numbers(comp);
    var s0, s1 := AtCommitter(map[], 1, Delivering([Ended(err)], Regroup), Idle),
        AtCommitter(map[], 1, Delivering([], Regroup), Resolving(Ended(err), 0));
    var s2 := Settled(err, Resolving(Ended(err), 1));
    assert [Ended(err)][1..] == [];
    Takes(Only(comp), s0, w, ByCommitter(Deliver), s1, w);
    Takes(Only(comp), s1, w, ByResolver(Resolve), s2, w);
    Onward(Only(comp), s0, w, s1, w, s2, w);
  }

  // ---------- a message becomes durable ----------

  function Payload(): Bytes { BatchCodec.Records([[]]) + BatchCodec.Footer(PLAIN, 1) }

  function Stowed(): Objects { Written(map[], Only(PLAIN).location(0), Payload()) }

  function Item(): EnqueueItem { ItemOf(Only(PLAIN), Sealed()) }

  function Manifest(): Bytes {
    match Rewritten(None, [Item()])
    case Ok(data) => data
    case Err(_) => []
  }

  function Committed(): World {
    World(Written(Stowed(), [], Manifest()), [Block(0, [0], [Item()])])
  }

  lemma CanEncode()
    ensures EncodeResult(Only(PLAIN), Sealed()) == Ok(Payload())
  {
    assert [Given()][..0] == [];
    assert EntriesOf([Given()]) == [[]];
  }

  lemma Encodes()
    ensures CanReach(Only(PLAIN), AtEncoder(), World(map[], []), Sent([], [Job(Sealed(), Putting(Payload(), 0))], []),
                     World(map[], []))
  {
    hide CanReach, Only, EncodeResult, FramedCost, FramingOf, Payload;
    Numbers(PLAIN);
    CanEncode();
    var w := World(map[], []);
    var s1, s2 := Sent([Job(Sealed(), Encoded(Payload()))], [], []),
        Sent([], [Job(Sealed(), Putting(Payload(), 0))], []);
    Takes(Only(PLAIN), AtEncoder(), w, ByWorker(Encode(0)), s1, w);
    Takes(Only(PLAIN), s1, w, ByWorker(ToUploader(0)), s2, w);
    Onward(Only(PLAIN), AtEncoder(), w, s1, w, s2, w);
  }

  lemma Uploads()
    ensures CanReach(Only(PLAIN), Sent([], [Job(Sealed(), Putting(Payload(), 0))], []), World(map[], []),
                     Sent([], [], [Ended(None)]), World(Stowed(), []))
  {
    hide CanReach, FramedCost, FramingOf, Payload;
    var s0, s1, s2 := Sent([], [Job(Sealed(), Putting(Payload(), 0))], []), Sent([], [Ended(None)], []),
        Sent([], [], [Ended(None)]);
    var w, w' := World(map[], []), World(Stowed(), []);
    Takes(Only(PLAIN), s0, w, ByWorker(PutOk(0)), s1, w');
    Takes(Only(PLAIN), s1, w', ByWorker(ReportUpload(0)), s2, w');
    Onward(Only(PLAIN), s0, w, s1, w', s2, w');
  }

  lemma CanRewrite()
    ensures Rewritten(None, [Item()]) == Ok(Manifest())
  {
    hide Rewritten, Holds, ItemsFit, ItemsEncodable, Extended, EmptyData, Item;
    EmptyHolds();
    ItemFits();
    AppendRefinesList(EmptyData(), EMPTY_LOG, [Item()]);
    SameAsEmpty([Item()]);
  }

  lemma SameAsEmpty(items: seq<EnqueueItem>)
    ensures Rewritten(None, items) == Rewritten(Some(EmptyData()), items)
  {}

  lemma ItemFits()
    ensures ItemsEncodable([Item()]) && ItemsFit([Item()])
  {
    hide EncodedRange;
    Fits(PLAIN);
    assert [Given()][..0] == [];
    assert RangesOf([Given()]) == [QueueMetadata(0, 0, [])];
  }

  lemma Groups()
    ensures CanReach(Only(PLAIN), AtCommitter(map[0 := Ended(None)], 0, Grouping, Idle), World(Stowed(), []),
                     AtCommitter(map[], 1, Reading([Ended(None)], 0, 0, 0), Idle), World(Stowed(), []))
  {
    hide CanReach, FramedCost, FramingOf, Payload, TakeCount, Taken, Left, Stored, Unstored;
    TakesOne(Ended(None));
    var w := World(Stowed(), []);
    Takes(Only(PLAIN), AtCommitter(map[0 := Ended(None)], 0, Grouping, Idle), w, ByCommitter(Group),
          AtCommitter(map[], 1, Reading([Ended(None)], 0, 0, 0), Idle), w);
  }

  lemma Commits()
    ensures CanReach(Only(PLAIN), AtCommitter(map[], 1, Reading([Ended(None)], 0, 0, 0), Idle), World(Stowed(), []),
                     AtCommitter(map[], 1, Delivering([Ended(None)], Regroup), Idle), Committed())
  {
    hide CanReach, FramedCost, FramingOf, Payload, Stored, Unstored, Rewritten, Manifest, Item, RangesOf;
    TakesOne(Ended(None));
    CanRewrite();
    ItemsOfOne();
    var w := World(Stowed(), []);
    var s0, s1, s2 := AtCommitter(map[], 1, Reading([Ended(None)], 0, 0, 0), Idle),
                      AtCommitter(map[], 1, Writing([Ended(None)], 0, 0, 0, Manifest(), None), Idle),
                          AtCommitter(map[], 1, Delivering([Ended(None)], Regroup), Idle);
    Takes(Only(PLAIN), s0, w, ByCommitter(CasRead(false)), s1, w);
    CasGoesThrough();
    Onward(Only(PLAIN), s0, w, s1, w, s2, Committed());
  }

  lemma ItemsOfOne()
    ensures ItemsOf(Only(PLAIN), [Ended(None)]) == [Item()] && Ordinals([Ended(None)]) == [0]
  {}

  lemma CasGoesThrough()
    ensures CanReach(Only(PLAIN), AtCommitter(map[], 1, Writing([Ended(None)], 0, 0, 0, Manifest(), None), Idle),
                     World(Stowed(), []), AtCommitter(map[], 1, Delivering([Ended(None)], Regroup), Idle), Committed())
  {
    hide CanReach, FramedCost, FramingOf, Payload, Stored, Unstored, Rewritten, Manifest, Item, RangesOf;
    TakesOne(Ended(None));
    ItemsOfOne();
    assert Outcomes([Ended(None)], None) == [Ended(None)];
    Takes(Only(PLAIN), AtCommitter(map[], 1, Writing([Ended(None)], 0, 0, 0, Manifest(), None), Idle),
          World(Stowed(), []), ByCommitter(CasWrite(Truthful)),
        AtCommitter(map[], 1, Delivering([Ended(None)], Regroup), Idle), Committed());
  }

  lemma OnlyIsValid(comp: byte)
    ensures ValidConfig(Only(comp))
  {
    var c := Only(comp);
    forall o: nat
      ensures c.location(o) != c.manifestPath && |c.location(o)| == o + 1
    {}
  }

  lemma ToUploaded()
    ensures CanReach(Only(PLAIN), Init(Only(PLAIN)), World(map[], []),
                     AtCommitter(map[], 1, Reading([Ended(None)], 0, 0, 0), Idle), World(Stowed(), []))
  {
    hide CanReach, Init, Only, AtEncoder, Sent, AtCommitter, Stowed, Ended, Payload;
    var c, s, w, w' := Only(PLAIN), Init(Only(PLAIN)), World(map[], []), World(Stowed(), []);
    ToEncoder(PLAIN, w);
    Encodes();
    Onward(c, s, w, AtEncoder(), w, Sent([], [Job(Sealed(), Putting(Payload(), 0))], []), w);
    Uploads();
    Onward(c, s, w, Sent([], [Job(Sealed(), Putting(Payload(), 0))], []), w, Sent([], [], [Ended(None)]), w');
    Receives(PLAIN, None, w');
    Onward(c, s, w, Sent([], [], [Ended(None)]), w', AtCommitter(map[0 := Ended(None)], 0, Grouping, Idle), w');
    Groups();
    Onward(c, s, w, AtCommitter(map[0 := Ended(None)], 0, Grouping, Idle), w',
           AtCommitter(map[], 1, Reading([Ended(None)], 0, 0, 0), Idle), w');
  }

  lemma CommitJourney()
    ensures CanReach(Only(PLAIN), Init(Only(PLAIN)), World(map[], []), Settled(None, Resolving(Ended(None), 1)),
                     Committed())
  {
    hide CanReach, Init, Only, AtCommitter, Settled, Stowed, Committed, Ended;
    var c, s, w, w' := Only(PLAIN), Init(Only(PLAIN)), World(map[], []), World(Stowed(), []);
    ToUploaded();
    Commits();
    Onward(c, s, w, AtCommitter(map[], 1, Reading([Ended(None)], 0, 0, 0), Idle), w',
           AtCommitter(map[], 1, Delivering([Ended(None)], Regroup), Idle), Committed());
    Resolves(PLAIN, None, Committed());
    Onward(c, s, w, AtCommitter(map[], 1, Delivering([Ended(None)], Regroup), Idle), Committed(),
           Settled(None, Resolving(Ended(None), 1)), Committed());
  }

  /** From an empty store, a producer appends a message, and its watcher is resolved with nil. */
  lemma AMessageBecomesDurable()
    ensures Cluster(map[0 := Only(PLAIN)], [])
    ensures Start(map[0 := Only(PLAIN)], [], EMPTY_LOG, System(map[0 := Init(Only(PLAIN))], World(map[], [])))
    ensures CanReach(Only(PLAIN), Init(Only(PLAIN)), World(map[], []), Settled(None, Resolving(Ended(None), 1)),
                     Committed())
    ensures Settled(None, Resolving(Ended(None), 1)).acct.watchers[0] == None
  {
    hide CanReach, Committed;
    OnlyIsValid(PLAIN);
    CommitJourney();
  }

  // ---------- a nil Flush after a failure ----------

  lemma CannotEncode()
    ensures EncodeResult(Only(UNKNOWN), Sealed()) == Err(Serialization)
  {
    assert [Given()][..0] == [];
    assert EntriesOf([Given()]) == [[]];
  }

  lemma Fails(w: World)
    ensures CanReach(Only(UNKNOWN), AtEncoder(), w, Sent([], [], [Ended(Some(Serialization))]), w)
  {
    hide CanReach, Only, EncodeResult, FramedCost, FramingOf;
    Numbers(UNKNOWN);
    CannotEncode();
    var s1, s2 := Sent([Ended(Some(Serialization))], [], []), Sent([], [], [Ended(Some(Serialization))]);
    Takes(Only(UNKNOWN), AtEncoder(), w, ByWorker(Encode(0)), s1, w);
    Takes(Only(UNKNOWN), s1, w, ByWorker(ReportEncode(0)), s2, w);
    Onward(Only(UNKNOWN), AtEncoder(), w, s1, w, s2, w);
  }

  /** A failed batch is taken out of `ready` without a manifest write. */
  lemma Skips(comp: byte, e: Error, w: World)
    ensures var j := Ended(Some(e));
            CanReach(Only(comp), AtCommitter(map[0 := j], 0, Grouping, Idle), w,
                     AtCommitter(map[], 1, Delivering([j], Regroup), Idle), w)
  {
    hide CanReach, Only, FramedCost, FramingOf, TakeCount, Taken, Left, Stored, Unstored;
    Numbers(comp);
    var j := Ended(Some(e));
    TakesOne(j);
    Takes(Only(comp), AtCommitter(map[0 := j], 0, Grouping, Idle), w, ByCommitter(Group),
          AtCommitter(map[], 1, Delivering([j], Regroup), Idle), w);
  }

  lemma GivenBack()
    ensures Budget.Lowered(FramingOf([Given()]), FramedCost([Given()])) == 0 && Budget.Lowered(1, 1) == 0
  {
    hide FramingOf, CostOf;
    Costless();
  }

  lemma Acknowledges(comp: byte, e: Error, w: World)
    ensures CanReach(Only(comp), Settled(Some(e), Resolving(Ended(Some(e)), 1)), w,
                     Settled(Some(e), Releasing(Ended(Some(e)))), w)
  {
    hide CanReach, Only, FramingOf, FramedCost, CostOf;
    Numbers(comp);
    Takes(Only(comp), Settled(Some(e), Resolving(Ended(Some(e)), 1)), w, ByResolver(Acknowledge),
          Settled(Some(e), Releasing(Ended(Some(e)))), w);
  }

  lemma GivesBack(comp: byte, e: Error, w: World)
    ensures CanReach(Only(comp), Settled(Some(e), Releasing(Ended(Some(e)))), w, Flushed(e, Selecting, []), w)
  {
    hide CanReach, Only, FramingOf, FramedCost, CostOf, Budget.Lowered;
    Numbers(comp);
    GivenBack();
    var s := Settled(Some(e), Releasing(Ended(Some(e))));
    Takes(Only(comp), s, w, ByResolver(Release), Flushed(e, Selecting, []), w);
  }

  lemma Releases(comp: byte, e: Error, w: World)
    ensures CanReach(Only(comp), Settled(Some(e), Resolving(Ended(Some(e)), 1)), w, Flushed(e, Selecting, []), w)
  {
    hide CanReach, Only, FramingOf, FramedCost, CostOf, Budget.Lowered, Settled, Flushed;
    var err := Some(e);
    var s1 := Settled(err, Releasing(Ended(err)));
    Acknowledges(comp, e, w);
    GivesBack(comp, e, w);
    Onward(Only(comp), Settled(err, Resolving(Ended(err), 1)), w, s1, w, Flushed(e, Selecting, []), w);
  }

  /** From a completion with an error to the released batch. */
  lemma FailsThrough(comp: byte, e: Error, w: World)
    ensures CanReach(Only(comp), Sent([], [], [Ended(Some(e))]), w, Flushed(e, Selecting, []), w)
  {
    hide CanReach, Only, Sent, AtCommitter, Settled, Flushed, Ended;
    var c, s, err := Only(comp), Sent([], [], [Ended(Some(e))]), Some(e);
    Receives(comp, err, w);
    Skips(comp, e, w);
    Onward(c, s, w, AtCommitter(map[0 := Ended(err)], 0, Grouping, Idle), w,
           AtCommitter(map[], 1, Delivering([Ended(err)], Regroup), Idle), w);
    Resolves(comp, err, w);
    Onward(c, s, w, AtCommitter(map[], 1, Delivering([Ended(err)], Regroup), Idle), w,
           Settled(err, Resolving(Ended(err), 1)), w);
    Releases(comp, e, w);
    Onward(c, s, w, Settled(err, Resolving(Ended(err), 1)), w, Flushed(e, Selecting, []), w);
  }

  lemma TakesFlush(w: World)
    ensures CanReach(Only(UNKNOWN), Flushed(Serialization, Selecting, []), w,
                     Flushed(Serialization, Draining(0), [Waiting(1)]), w)
  {
    hide CanReach, Only, FramedCost, FramingOf;
    Numbers(UNKNOWN);
    var s0, s1, s2 := Flushed(Serialization, Selecting, []), Flushed(Serialization, Selecting, [Calling(1)]),
        Flushed(Serialization, Draining(0), [Waiting(1)]);
    Takes(Only(UNKNOWN), s0, w, ByCaller(CallFlush), s1, w);
    Takes(Only(UNKNOWN), s1, w, ByRotator(TakeFlush(0)), s2, w);
    Onward(Only(UNKNOWN), s0, w, s1, w, s2, w);
  }

  lemma ReturnsFlush(w: World)
    ensures CanReach(Only(UNKNOWN), Flushed(Serialization, Draining(0), [Waiting(1)]), w,
                     Flushed(Serialization, Selecting, [Returned(1, None, None)]), w)
  {
    hide CanReach, Only, FramedCost, FramingOf;
    Numbers(UNKNOWN);
    var s2, s3, s4 := Flushed(Serialization, Draining(0), [Waiting(1)]),
        Flushed(Serialization, Selecting, [Acked(1, None, None)]),
        Flushed(Serialization, Selecting, [Returned(1, None, None)]);
    Takes(Only(UNKNOWN), s2, w, ByRotator(DrainDone), s3, w);
    Takes(Only(UNKNOWN), s3, w, ByCaller(FlushDrained(0)), s4, w);
    Onward(Only(UNKNOWN), s2, w, s3, w, s4, w);
  }

  lemma FlushJourney(w: World)
    ensures CanReach(Only(UNKNOWN), Init(Only(UNKNOWN)), w,
                     Flushed(Serialization, Selecting, [Returned(1, None, None)]), w)
  {
    hide CanReach, Init, Only, AtEncoder, Sent, AtCommitter, Settled, Flushed, Ended;
    var c, s, err := Only(UNKNOWN), Init(Only(UNKNOWN)), Some(Serialization);
    ToEncoder(UNKNOWN, w);
    Fails(w);
    Onward(c, s, w, AtEncoder(), w, Sent([], [], [Ended(err)]), w);
    FailsThrough(UNKNOWN, Serialization, w);
    Onward(c, s, w, Sent([], [], [Ended(err)]), w, Flushed(Serialization, Selecting, []), w);
    TakesFlush(w);
    Onward(c, s, w, Flushed(Serialization, Selecting, []), w, Flushed(Serialization, Draining(0), [Waiting(1)]), w);
    ReturnsFlush(w);
    Onward(c, s, w, Flushed(Serialization, Draining(0), [Waiting(1)]), w,
           Flushed(Serialization, Selecting, [Returned(1, None, None)]), w);
  }

  /** A message is appended and its batch cannot be encoded, and a Flush called after the append gets past both
      waits with a nil result: message 0 was covered by it and has failed. */
  lemma NilFlushAfterFailure()
    ensures Cluster(map[0 := Only(UNKNOWN)], [])
    ensures Start(map[0 := Only(UNKNOWN)], [], EMPTY_LOG, System(map[0 := Init(Only(UNKNOWN))], World(map[], [])))
    ensures CanReach(Only(UNKNOWN), Init(Only(UNKNOWN)), World(map[], []),
                     Flushed(Serialization, Selecting, [Returned(1, None, None)]), World(map[], []))
    ensures Flushed(Serialization, Selecting, [Returned(1, None, None)]).acct.watchers[0] == Some(Serialization)
  {
    hide CanReach;
    OnlyIsValid(UNKNOWN);
    FlushJourney(World(map[], []));
  }
}
