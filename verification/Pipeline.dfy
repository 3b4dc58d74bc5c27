/** One producer of buffer/producer.go as a state machine: callers, rotator, encoder pool, uploader
    pool, manifest committer, watcher resolver, Flush and Close. One action is one atomic step of one
    goroutine; store faults, timers, cancellations and scheduling are choices of the action. */
module Pipeline {
  import opened Wrappers
  import opened Bytes
  import opened ManifestCodec
  import opened ManifestLog
  import opened ObjStore
  import opened Accumulator
  import opened Committer
  import BatchCodec
  import Budget

  // ---------- configuration and data ----------

  datatype Config = Config(
    run: nat,
    maxBytes: nat, maxBatches: nat, queueCap: nat, flushSize: int,
    encoders: nat, uploaders: nat, groupSize: nat, uploadAttempts: nat, manifestAttempts: nat,
    compression: byte, zstd: BatchCodec.Zstd,
    manifestPath: Path, location: nat -> Path)

  /** What `NewProducer` and the stages make of a configuration (every count at least 1), and the path
      assumptions: an ordinal names one data object, and no data object is the manifest. */
  ghost predicate ValidConfig(c: Config) {
    && c.maxBytes >= 1 && c.maxBatches >= 1 && c.encoders >= 1 && c.uploaders >= 1
    && c.groupSize >= 1 && c.uploadAttempts >= 1 && c.manifestAttempts >= 1
    && BatchCodec.Lossless(c.zstd)
    && (forall o :: c.location(o) != c.manifestPath)
    && (forall o, p :: c.location(o) == c.location(p) ==> o == p)
  }

  datatype Batch = Batch(ordinal: nat, messages: seq<Message>, flush: Option<nat>, byteCost: nat)

  datatype Work =
    | Encoding
    | Encoded(payload: Bytes)
    | Putting(payload: Bytes, attempt: nat)
    | Finished(err: Option<Error>)

  datatype Job = Job(batch: Batch, work: Work)

  datatype Reason = BySize | ByTime | ByFlush(flush: nat) | ByClose

  datatype Rotator =
    | Selecting
    | Draining(flush: nat)
    | Acquiring(reason: Reason, parked: bool)
    | Reconciling(reason: Reason)
    | Sending(reason: Reason)
    | Stopped

  datatype Then = Regroup | AbandonReady | ReceiveNext

  /** Where the committer goroutine stands. `taken` is the group in hand, failed uploads included. */
  datatype Commit =
    | Receiving
    | Gathering
    | Grouping
    | Reading(taken: seq<Job>, attempt: nat, conflicts: nat, startVersion: nat)
    | Writing(taken: seq<Job>, attempt: nat, conflicts: nat, startVersion: nat, data: Bytes, version: Option<nat>)
    | BackingOff(taken: seq<Job>, attempt: nat)
    | Delivering(out: seq<Job>, next: Then)
    | Abandoning
    | Done

  datatype Resolver = Idle | Resolving(job: Job, done: nat) | Releasing(job: Job)

  /** `snap` counts the messages accepted when Flush was called. */
  datatype Flush =
    | Calling(snap: nat)
    | Waiting(snap: nat)
    | Acked(snap: nat, err: Option<Error>, batch: Option<nat>)
    | Returned(snap: nat, err: Option<Error>, batch: Option<nat>)
    | GaveUp

  datatype Front = Front(entering: seq<Message>, reserved: seq<Message>, queue: seq<Message>,
                         acc: seq<Message>, rot: Rotator, closing: bool, shutdown: bool)

  datatype Jobs = Jobs(sending: seq<Job>, enc: seq<Job>, upl: seq<Job>, chan: seq<Job>,
                       ready: map<nat, Job>, next: nat, com: Commit, res: Resolver, halted: bool, sawClose: bool)

  /** Worker counts and closed channels. */
  datatype Gates = Gates(encLive: nat, encodedClosed: bool, uplLive: nat, completionClosed: bool)

  /** The durability outcomes given so far, per watcher. */
  type Watchers = map<nat, Option<Error>>

  datatype Account = Account(bytesUsed: int, batchesUsed: int, watchers: Watchers, flushes: seq<Flush>)

  /** History: read by no guard. Messages are numbered in the order they are accepted, and that number is
      the message's watcher. `home[i]` is the ordinal of the batch message `i` was sealed into, or None
      if the rotator dropped it on shutdown. */
  datatype History = History(accepted: seq<Message>, home: seq<Option<nat>>, emitted: seq<Batch>,
                             released: set<nat>, biggest: nat)

  datatype State = State(front: Front, jobs: Jobs, gates: Gates, acct: Account, hist: History)

  /** A manifest write that took effect: by whom, which ordinals, which items. */
  datatype Block = Block(run: nat, ordinals: seq<nat>, items: seq<EnqueueItem>)

  /** The shared store, and the history of manifest writes. */
  datatype World = World(objects: Objects, blocks: seq<Block>)

  function Init(c: Config): State {
    State(Front([], [], [], [], Selecting, false, false),
          Jobs([], [], [], [], map[], 0, Receiving, Idle, false, false),
          Gates(c.encoders, false, c.uploaders, false),
          Account(0, 0, map[], []),
          History([], [], [], {}, 0))
  }

  // ---------- helpers ----------

  function Without<T>(s: seq<T>, i: nat): seq<T>
    requires i < |s|
  {
    s[..i] + s[i + 1..]
  }

  /** Jobs whose data object was stored, in order. */
  function Stored(js: seq<Job>): seq<Job> {
    if js == [] then []
    else Stored(js[..|js| - 1]) + if js[|js| - 1].work == Finished(None) then [js[|js| - 1]] else []
  }

  function Unstored(js: seq<Job>): seq<Job> {
    if js == [] then []
    else Unstored(js[..|js| - 1]) + if js[|js| - 1].work == Finished(None) then [] else [js[|js| - 1]]
  }

  function Stamped(js: seq<Job>, err: Option<Error>): (r: seq<Job>)
    ensures |r| == |js|
  {
    seq(|js|, i requires 0 <= i < |js| => Job(js[i].batch, Finished(err)))
  }

  function ItemOf(c: Config, b: Batch): EnqueueItem {
    EnqueueItem(c.location(b.ordinal), RangesOf(b.messages))
  }

  function ItemsOf(c: Config, js: seq<Job>): seq<EnqueueItem> {
    seq(|js|, i requires 0 <= i < |js| => ItemOf(c, js[i].batch))
  }

  function Ordinals(js: seq<Job>): seq<nat> {
    seq(|js|, i requires 0 <= i < |js| => js[i].batch.ordinal)
  }

  /** Assumed of every sealed batch, and unchecked by the code: the record count and the start indices
      fit 32 bits, and so does the length of its manifest entry. */
  predicate Representable(c: Config, ordinal: nat, messages: seq<Message>) {
    && |EntriesOf(messages)| < U32_LIMIT
    && BodyFits(c.location(ordinal), RangesOf(messages))
  }

  // ---------- callers ----------

  function Absorbed(c: Config, f: Front, m: Message): Front {
    var acc := f.acc + [m];
    f.(acc := acc, rot := if f.rot == Selecting && CostOf(acc) >= c.flushSize then Acquiring(BySize, false) else f.rot)
  }

  function WithNumber(h: History, m: Message): Message {
    m.(watcher := |h.accepted|)
  }

  function DoReserve(s: State, i: nat): State
    requires i < |s.front.entering|
  {
    var m := s.front.entering[i];
    s.(front := s.front.(entering := Without(s.front.entering, i), reserved := s.front.reserved + [m]),
       acct := s.acct.(bytesUsed := s.acct.bytesUsed + MessageCost(m)),
       hist := s.hist.(biggest := if s.hist.biggest < MessageCost(m) then MessageCost(m) else s.hist.biggest))
  }

  function DoWithdraw(s: State, i: nat): State
    requires i < |s.front.reserved|
  {
    s.(front := s.front.(reserved := Without(s.front.reserved, i)),
       acct := s.acct.(bytesUsed := Budget.Lowered(s.acct.bytesUsed, MessageCost(s.front.reserved[i]))))
  }

  function DoAccept(s: State, i: nat): State
    requires i < |s.front.reserved|
  {
    var m := WithNumber(s.hist, s.front.reserved[i]);
    s.(front := s.front.(reserved := Without(s.front.reserved, i), queue := s.front.queue + [m]),
       hist := s.hist.(accepted := s.hist.accepted + [m]))
  }

  function DoHandOver(c: Config, s: State, i: nat): State
    requires i < |s.front.reserved|
  {
    var m := WithNumber(s.hist, s.front.reserved[i]);
    s.(front := Absorbed(c, s.front.(reserved := Without(s.front.reserved, i)), m),
       hist := s.hist.(accepted := s.hist.accepted + [m]))
  }

  // ---------- rotator ----------

  function DoReceive(c: Config, s: State): State
    requires s.front.queue != []
  {
    s.(front := Absorbed(c, s.front.(queue := s.front.queue[1..]), s.front.queue[0]))
  }

  function AckFlush(flushes: seq<Flush>, flush: Option<nat>, err: Option<Error>, batch: Option<nat>): seq<Flush> {
    if flush.Some? && flush.value < |flushes| && flushes[flush.value].Waiting? then
      flushes[flush.value := Acked(flushes[flush.value].snap, err, batch)]
    else flushes
  }

  function FlushOf(r: Reason): Option<nat> {
    if r.ByFlush? then Some(r.flush) else None
  }

  function AfterEmit(r: Reason): Rotator {
    if r.ByClose? then Stopped else Selecting
  }

  function DoTakeFlush(s: State, f: nat): State
    requires f < |s.acct.flushes| && s.acct.flushes[f].Calling?
  {
    s.(front := s.front.(rot := Draining(f)),
       acct := s.acct.(flushes := s.acct.flushes[f := Waiting(s.acct.flushes[f].snap)]))
  }

  function DoDrainDone(s: State): State
    requires s.front.rot.Draining?
  {
    var f := s.front.rot.flush;
    if s.front.acc == [] then
      s.(front := s.front.(rot := Selecting),
         acct := s.acct.(flushes := AckFlush(s.acct.flushes, Some(f), None, None)))
    else s.(front := s.front.(rot := Acquiring(ByFlush(f), false)))
  }

  function DoSeeClose(s: State): State {
    s.(front := s.front.(rot := if s.front.acc == [] then Stopped else Acquiring(ByClose, false)))
  }

  /** A rotator that found no slot is parked; once woken it looks again, and may find the shutdown instead. */
  function DoAcquire(s: State): State
    requires s.front.rot.Acquiring?
  {
    s.(front := s.front.(rot := Reconciling(s.front.rot.reason)),
       acct := s.acct.(batchesUsed := s.acct.batchesUsed + 1))
  }

  function AllResolved(watchers: Watchers, ms: seq<Message>, err: Option<Error>): Watchers {
    if ms == [] then watchers
    else WatcherResolved(AllResolved(watchers, ms[..|ms| - 1], err), ms[|ms| - 1].watcher, err)
  }

  /** `DurabilityWatcher.resolve`: only the first outcome counts. */
  function WatcherResolved(watchers: Watchers, w: nat, err: Option<Error>): Watchers {
    if w in watchers then watchers else watchers[w := err]
  }

  function DoDrop(s: State): State
    requires s.front.rot.Acquiring?
  {
    var r := s.front.rot.reason;
    s.(front := s.front.(acc := [], rot := AfterEmit(r)),
       acct := s.acct.(bytesUsed := Budget.Lowered(s.acct.bytesUsed, CostOf(s.front.acc)),
                       watchers := AllResolved(s.acct.watchers, s.front.acc, Some(Shutdown)),
                       flushes := AckFlush(s.acct.flushes, FlushOf(r), Some(Shutdown), None)),
       hist := s.hist.(home := s.hist.home + seq(|s.front.acc|, _ => None)))
  }

  function SealedBatch(s: State): Batch
    requires s.front.rot.Reconciling?
  {
    Batch(|s.hist.emitted|, s.front.acc, FlushOf(s.front.rot.reason), FramedCost(s.front.acc))
  }

  function DoSeal(s: State): State
    requires s.front.rot.Reconciling?
  {
    var b := SealedBatch(s);
    s.(front := s.front.(acc := [], rot := Sending(s.front.rot.reason)),
       jobs := s.jobs.(sending := [Job(b, Encoding)]),
       acct := s.acct.(bytesUsed := s.acct.bytesUsed + FramingOf(s.front.acc)),
       hist := s.hist.(home := s.hist.home + seq(|s.front.acc|, _ => Some(b.ordinal)), emitted := s.hist.emitted + [b]))
  }

  function DoSend(s: State): State
    requires s.front.rot.Sending? && |s.jobs.sending| == 1
  {
    s.(front := s.front.(rot := AfterEmit(s.front.rot.reason)),
       jobs := s.jobs.(sending := [], enc := s.jobs.enc + s.jobs.sending))
  }

  // ---------- encoders and uploaders ----------

  function EncodeResult(c: Config, b: Batch): Result<Bytes> {
    BatchCodec.Encoded(c.zstd, EntriesOf(b.messages), c.compression)
  }

  function EncodeWork(c: Config, b: Batch): Work {
    match EncodeResult(c, b)
    case Ok(payload) => Encoded(payload)
    case Err(e) => Finished(Some(e))
  }

  function WithEnc(s: State, i: nat, work: Work): State
    requires i < |s.jobs.enc|
  {
    s.(jobs := s.jobs.(enc := s.jobs.enc[i := s.jobs.enc[i].(work := work)]))
  }

  function WithUpl(s: State, i: nat, work: Work): State
    requires i < |s.jobs.upl|
  {
    s.(jobs := s.jobs.(upl := s.jobs.upl[i := s.jobs.upl[i].(work := work)]))
  }

  function DoToUploader(s: State, i: nat): State
    requires i < |s.jobs.enc| && s.jobs.enc[i].work.Encoded?
  {
    var j := s.jobs.enc[i];
    s.(jobs := s.jobs.(enc := Without(s.jobs.enc, i), upl := s.jobs.upl + [j.(work := Putting(j.work.payload, 0))]))
  }

  function DoReportEncode(s: State, i: nat): State
    requires i < |s.jobs.enc|
  {
    s.(jobs := s.jobs.(enc := Without(s.jobs.enc, i), chan := s.jobs.chan + [s.jobs.enc[i]]))
  }

  function DoReportUpload(s: State, i: nat): State
    requires i < |s.jobs.upl|
  {
    s.(jobs := s.jobs.(upl := Without(s.jobs.upl, i), chan := s.jobs.chan + [s.jobs.upl[i]]))
  }

  function PutAt(c: Config, w: World, j: Job): World
    requires j.work.Putting?
  {
    w.(objects := Written(w.objects, c.location(j.batch.ordinal), j.work.payload))
  }

  /** What a failed attempt leads to. */
  function AfterFailedPut(c: Config, work: Work): Work
    requires work.Putting?
  {
    if work.attempt + 1 < c.uploadAttempts then Putting(work.payload, work.attempt + 1) else Finished(Some(Storage))
  }

  // ---------- committer ----------

  function DoRecv(s: State): State
    requires s.jobs.chan != []
  {
    var j := s.jobs.chan[0];
    if s.jobs.halted then
      s.(jobs := s.jobs.(chan := s.jobs.chan[1..], com := Delivering(Stamped([j], Some(ProducerHalted)), ReceiveNext)))
    else
      s.(jobs := s.jobs.(chan := s.jobs.chan[1..], ready := s.jobs.ready[j.batch.ordinal := j], com := Gathering))
  }

  function DoRecvClosed(s: State): State {
    if s.jobs.halted then s.(jobs := s.jobs.(com := Done))
    else s.(jobs := s.jobs.(com := Grouping, sawClose := true))
  }

  function DoGather(s: State): State
    requires s.jobs.chan != []
  {
    var j := s.jobs.chan[0];
    s.(jobs := s.jobs.(chan := s.jobs.chan[1..], ready := s.jobs.ready[j.batch.ordinal := j]))
  }

  function DoGatherEnd(s: State): State {
    s.(jobs := s.jobs.(com := Grouping, sawClose := s.gates.completionClosed))
  }

  function AfterDrain(sawClose: bool): Commit {
    if sawClose then Done else Receiving
  }

  function DoGroup(c: Config, s: State, w: World): State {
    var k := TakeCount(s.jobs.ready, s.jobs.next, c.groupSize);
    if k == 0 then s.(jobs := s.jobs.(com := AfterDrain(s.jobs.sawClose)))
    else
      var taken := Taken(s.jobs.ready, s.jobs.next, k);
      s.(jobs := s.jobs.(ready := Left(s.jobs.ready, s.jobs.next, k), next := s.jobs.next + k,
                         com := if Stored(taken) == [] then Delivering(Unstored(taken), Regroup)
                                else Reading(taken, 0, 0, VersionOf(w.objects, c.manifestPath))))
  }

  /** Group first, then the failed uploads with their own errors. */
  function Outcomes(taken: seq<Job>, groupErr: Option<Error>): seq<Job> {
    Stamped(Stored(taken), groupErr) + Unstored(taken)
  }

  /** An `enqueueBatch` call that ended in an error other than a conflict. */
  function AfterCasError(c: Config, s: State, taken: seq<Job>, attempt: nat): State {
    if attempt + 1 < c.manifestAttempts then s.(jobs := s.jobs.(com := BackingOff(taken, attempt)))
    else s.(jobs := s.jobs.(halted := true, com := Delivering(Outcomes(taken, Some(ProducerHalted)), AbandonReady)))
  }

  function DoCasRead(c: Config, s: State, w: World, fault: bool): State
    requires s.jobs.com.Reading?
  {
    var r := s.jobs.com;
    match Rewritten(DataAt(w.objects, c.manifestPath), ItemsOf(c, Stored(r.taken)))
    case Ok(data) =>
      if fault then AfterCasError(c, s, r.taken, r.attempt)
      else s.(jobs := s.jobs.(com := Writing(r.taken, r.attempt, r.conflicts, r.startVersion, data,
                                             VersionRead(w.objects, c.manifestPath))))
    case Err(_) => AfterCasError(c, s, r.taken, r.attempt)
  }

  /** How a conditional write can answer: as specified, with an error and no effect, or with an error
      although it took effect. */
  datatype Answer = Truthful | Lost | LostAnswer

  function WriteApplies(c: Config, s: State, w: World, answer: Answer): bool
    requires s.jobs.com.Writing?
  {
    answer != Lost && Matches(w.objects, c.manifestPath, s.jobs.com.version)
  }

  function DoCasWrite(c: Config, s: State, w: World, answer: Answer): State
    requires s.jobs.com.Writing?
  {
    var m := s.jobs.com;
    if answer != Truthful then AfterCasError(c, s, m.taken, m.attempt)
    else if WriteApplies(c, s, w, answer) then s.(jobs := s.jobs.(com := Delivering(Outcomes(m.taken, None), Regroup)))
    else s.(jobs := s.jobs.(com := Reading(m.taken, m.attempt, m.conflicts + 1, m.startVersion)))
  }

  function CasWritten(c: Config, s: State, w: World, answer: Answer): World
    requires s.jobs.com.Writing?
  {
    var m := s.jobs.com;
    if WriteApplies(c, s, w, answer) then
      World(Written(w.objects, c.manifestPath, m.data),
            w.blocks + [Block(c.run, Ordinals(Stored(m.taken)), ItemsOf(c, Stored(m.taken)))])
    else w
  }

  function DoCasRetry(c: Config, s: State, w: World): State
    requires s.jobs.com.BackingOff?
  {
    var b := s.jobs.com;
    s.(jobs := s.jobs.(com := Reading(b.taken, b.attempt + 1, 0, VersionOf(w.objects, c.manifestPath))))
  }

  function DoCasAbort(s: State): State
    requires s.jobs.com.BackingOff?
  {
    s.(jobs := s.jobs.(com := Delivering(Outcomes(s.jobs.com.taken, Some(Shutdown)), Regroup)))
  }

  function DoDeliver(s: State): State
    requires s.jobs.com.Delivering? && s.jobs.com.out != []
  {
    s.(jobs := s.jobs.(com := s.jobs.com.(out := s.jobs.com.out[1..]), res := Resolving(s.jobs.com.out[0], 0)))
  }

  function DoDelivered(s: State): State
    requires s.jobs.com.Delivering?
  {
    s.(jobs := s.jobs.(com := match s.jobs.com.next
                              case Regroup => Grouping
                              case AbandonReady => Abandoning
                              case ReceiveNext => Receiving))
  }

  function DoAbandon(s: State, o: nat): State
    requires o in s.jobs.ready
  {
    s.(jobs := s.jobs.(ready := s.jobs.ready - {o},
                       res := Resolving(s.jobs.ready[o].(work := Finished(Some(ProducerHalted))), 0)))
  }

  function DoAbandoned(s: State): State {
    s.(jobs := s.jobs.(com := AfterDrain(s.jobs.sawClose)))
  }

  // ---------- resolver ----------

  function JobError(j: Job): Option<Error> {
    if j.work.Finished? then j.work.err else None
  }

  function DoResolve(s: State): State
    requires s.jobs.res.Resolving? && s.jobs.res.done < |s.jobs.res.job.batch.messages|
  {
    var r := s.jobs.res;
    s.(jobs := s.jobs.(res := Resolving(r.job, r.done + 1)),
       acct := s.acct.(watchers := WatcherResolved(s.acct.watchers, r.job.batch.messages[r.done].watcher,
                                                   JobError(r.job))))
  }

  function DoAcknowledge(s: State): State
    requires s.jobs.res.Resolving?
  {
    var j := s.jobs.res.job;
    s.(jobs := s.jobs.(res := Releasing(j)),
       acct := s.acct.(flushes := AckFlush(s.acct.flushes, j.batch.flush, JobError(j), Some(j.batch.ordinal))))
  }

  function DoRelease(s: State): State
    requires s.jobs.res.Releasing?
  {
    var b := s.jobs.res.job.batch;
    s.(jobs := s.jobs.(res := Idle),
       acct := s.acct.(bytesUsed := Budget.Lowered(s.acct.bytesUsed, b.byteCost),
                       batchesUsed := Budget.Lowered(s.acct.batchesUsed, 1)),
       hist := s.hist.(released := s.hist.released + {b.ordinal}))
  }

  // ---------- the machine ----------

  datatype CallerAction =
    | Enter(m: Message) | GiveUp(i: nat) | Reserve(i: nat) | Withdraw(i: nat) | Accept(i: nat) | HandOver(i: nat)
    | CallFlush | FlushDrained(f: nat) | FlushGiveUp(f: nat) | CloseAppend | FireShutdown

  predicate CallerCan(c: Config, s: State, a: CallerAction) {
    var f := s.front;
    match a
    case Enter(m) => !s.jobs.halted && !f.closing && m.entries != []
    case GiveUp(i) => i < |f.entering|
    case Reserve(i) => i < |f.entering| && Budget.CanReserve(s.acct.bytesUsed, c.maxBytes, MessageCost(f.entering[i]))
    case Withdraw(i) => i < |f.reserved|
    case Accept(i) => i < |f.reserved| && |f.queue| < c.queueCap
    case HandOver(i) => i < |f.reserved| && f.queue == [] && (f.rot.Selecting? || f.rot.Draining?)
    case CallFlush => true
    case FlushDrained(n) => n < |s.acct.flushes| && s.acct.flushes[n].Acked? && s.acct.batchesUsed == 0
    case FlushGiveUp(n) => n < |s.acct.flushes| && !s.acct.flushes[n].Returned?
    case CloseAppend => !f.closing && f.entering == [] && f.reserved == []
    case FireShutdown => f.closing
  }

  function WithFlush(s: State, f: nat, fl: Flush): State
    requires f < |s.acct.flushes|
  {
    s.(acct := s.acct.(flushes := s.acct.flushes[f := fl]))
  }

  function CallerStep(c: Config, s: State, a: CallerAction): State
    requires CallerCan(c, s, a)
  {
    match a
    case Enter(m) => s.(front := s.front.(entering := s.front.entering + [m]))
    case GiveUp(i) => s.(front := s.front.(entering := Without(s.front.entering, i)))
    case Reserve(i) => DoReserve(s, i)
    case Withdraw(i) => DoWithdraw(s, i)
    case Accept(i) => DoAccept(s, i)
    case HandOver(i) => DoHandOver(c, s, i)
    case CallFlush => s.(acct := s.acct.(flushes := s.acct.flushes + [Calling(|s.hist.accepted|)]))
    case FlushDrained(f) =>
      WithFlush(s, f, Returned(s.acct.flushes[f].snap, s.acct.flushes[f].err, s.acct.flushes[f].batch))
    case FlushGiveUp(f) => WithFlush(s, f, GaveUp)
    case CloseAppend => s.(front := s.front.(closing := true))
    case FireShutdown => s.(front := s.front.(shutdown := true))
  }

  datatype RotatorAction =
    | Receive | Tick | TakeFlush(f: nat) | DrainDone | SeeClose | Park | Acquire | Drop | Seal | Send

  predicate RotatorCan(c: Config, s: State, a: RotatorAction) {
    var f := s.front;
    match a
    case Receive => f.queue != [] && (f.rot.Selecting? || f.rot.Draining?)
    case Tick => f.rot.Selecting? && f.acc != []
    case TakeFlush(n) => f.rot.Selecting? && n < |s.acct.flushes| && s.acct.flushes[n].Calling?
    case DrainDone => f.rot.Draining? && f.queue == []
    case SeeClose => f.rot.Selecting? && f.closing && f.queue == []
    case Acquire => f.rot.Acquiring? && s.acct.batchesUsed < c.maxBatches
    case Park => f.rot.Acquiring? && !f.rot.parked && s.acct.batchesUsed >= c.maxBatches
    case Drop => f.rot.Acquiring? && f.rot.parked && f.shutdown
    case Seal => f.rot.Reconciling? && s.jobs.sending == [] && Representable(c, |s.hist.emitted|, f.acc)
    case Send => f.rot.Sending? && |s.jobs.sending| == 1 && |s.jobs.enc| < s.gates.encLive
  }

  function RotatorStep(c: Config, s: State, a: RotatorAction): State
    requires RotatorCan(c, s, a)
  {
    match a
    case Receive => DoReceive(c, s)
    case Tick => s.(front := s.front.(rot := Acquiring(ByTime, false)))
    case TakeFlush(f) => DoTakeFlush(s, f)
    case DrainDone => DoDrainDone(s)
    case SeeClose => DoSeeClose(s)
    case Park => s.(front := s.front.(rot := s.front.rot.(parked := true)))
    case Acquire => DoAcquire(s)
    case Drop => DoDrop(s)
    case Seal => DoSeal(s)
    case Send => DoSend(s)
  }

  datatype WorkerAction =
    | Encode(i: nat) | ToUploader(i: nat) | ReportEncode(i: nat) | EncoderExit | CloseEncoded
    | PutOk(i: nat) | PutFail(i: nat, applied: bool) | PutAbort(i: nat) | ReportUpload(i: nat)
    | UploaderExit | CloseCompletion

  predicate WorkerCan(c: Config, s: State, a: WorkerAction) {
    var j, g := s.jobs, s.gates;
    match a
    case Encode(i) => i < |j.enc| && j.enc[i].work.Encoding?
    case ToUploader(i) => i < |j.enc| && j.enc[i].work.Encoded? && |j.upl| < g.uplLive
    case ReportEncode(i) => i < |j.enc| && j.enc[i].work.Finished? && |j.chan| < c.maxBatches
    case EncoderExit => s.front.rot.Stopped? && |j.enc| < g.encLive
    case CloseEncoded => g.encLive == 0 && !g.encodedClosed
    case PutOk(i) => i < |j.upl| && j.upl[i].work.Putting?
    case PutFail(i, _) => i < |j.upl| && j.upl[i].work.Putting?
    case PutAbort(i) => i < |j.upl| && j.upl[i].work.Putting? && j.upl[i].work.attempt > 0 && s.front.shutdown
    case ReportUpload(i) => i < |j.upl| && j.upl[i].work.Finished? && |j.chan| < c.maxBatches
    case UploaderExit => g.encodedClosed && |j.upl| < g.uplLive
    case CloseCompletion => g.uplLive == 0 && !g.completionClosed
  }

  function WorkerStep(c: Config, s: State, a: WorkerAction): State
    requires WorkerCan(c, s, a)
  {
    match a
    case Encode(i) => WithEnc(s, i, EncodeWork(c, s.jobs.enc[i].batch))
    case ToUploader(i) => DoToUploader(s, i)
    case ReportEncode(i) => DoReportEncode(s, i)
    case EncoderExit => s.(gates := s.gates.(encLive := s.gates.encLive - 1))
    case CloseEncoded => s.(gates := s.gates.(encodedClosed := true))
    case PutOk(i) => WithUpl(s, i, Finished(None))
    case PutFail(i, _) => WithUpl(s, i, AfterFailedPut(c, s.jobs.upl[i].work))
    case PutAbort(i) => WithUpl(s, i, Finished(Some(Shutdown)))
    case ReportUpload(i) => DoReportUpload(s, i)
    case UploaderExit => s.(gates := s.gates.(uplLive := s.gates.uplLive - 1))
    case CloseCompletion => s.(gates := s.gates.(completionClosed := true))
  }

  function WorkerWorld(c: Config, s: State, w: World, a: WorkerAction): World
    requires WorkerCan(c, s, a)
  {
    match a
    case PutOk(i) => PutAt(c, w, s.jobs.upl[i])
    case PutFail(i, applied) => if applied then PutAt(c, w, s.jobs.upl[i]) else w
    case _ => w
  }

  datatype CommitAction =
    | Recv | RecvClosed | Gather | GatherEnd | Group
    | CasRead(fault: bool) | CasWrite(answer: Answer) | CasRetry | CasAbort
    | Deliver | Delivered | Abandon(o: nat) | Abandoned

  predicate CommitCan(s: State, a: CommitAction) {
    var j := s.jobs;
    match a
    case Recv => j.com.Receiving? && j.chan != []
    case RecvClosed => j.com.Receiving? && j.chan == [] && s.gates.completionClosed
    case Gather => j.com.Gathering? && j.chan != []
    case GatherEnd => j.com.Gathering? && j.chan == []
    case Group => j.com.Grouping?
    case CasRead(_) => j.com.Reading?
    case CasWrite(_) => j.com.Writing?
    case CasRetry => j.com.BackingOff?
    case CasAbort => j.com.BackingOff? && s.front.shutdown
    case Deliver => j.com.Delivering? && j.com.out != [] && j.res.Idle?
    case Delivered => j.com.Delivering? && j.com.out == []
    case Abandon(o) => j.com.Abandoning? && o in j.ready && j.res.Idle?
    case Abandoned => j.com.Abandoning? && j.ready == map[]
  }

  function CommitStep(c: Config, s: State, w: World, a: CommitAction): State
    requires CommitCan(s, a)
  {
    match a
    case Recv => DoRecv(s)
    case RecvClosed => DoRecvClosed(s)
    case Gather => DoGather(s)
    case GatherEnd => DoGatherEnd(s)
    case Group => DoGroup(c, s, w)
    case CasRead(fault) => DoCasRead(c, s, w, fault)
    case CasWrite(answer) => DoCasWrite(c, s, w, answer)
    case CasRetry => DoCasRetry(c, s, w)
    case CasAbort => DoCasAbort(s)
    case Deliver => DoDeliver(s)
    case Delivered => DoDelivered(s)
    case Abandon(o) => DoAbandon(s, o)
    case Abandoned => DoAbandoned(s)
  }

  datatype ResolverAction = Resolve | Acknowledge | Release

  predicate ResolverCan(s: State, a: ResolverAction) {
    var r := s.jobs.res;
    match a
    case Resolve => r.Resolving? && r.done < |r.job.batch.messages|
    case Acknowledge => r.Resolving? && r.done == |r.job.batch.messages|
    case Release => r.Releasing?
  }

  function ResolverStep(s: State, a: ResolverAction): State
    requires ResolverCan(s, a)
  {
    match a
    case Resolve => DoResolve(s)
    case Acknowledge => DoAcknowledge(s)
    case Release => DoRelease(s)
  }

  datatype Action =
    | ByCaller(caller: CallerAction)
    | ByRotator(rotator: RotatorAction)
    | ByWorker(worker: WorkerAction)
    | ByCommitter(committer: CommitAction)
    | ByResolver(resolver: ResolverAction)

  predicate Enabled(c: Config, s: State, a: Action) {
    match a
    case ByCaller(x) => CallerCan(c, s, x)
    case ByRotator(x) => RotatorCan(c, s, x)
    case ByWorker(x) => WorkerCan(c, s, x)
    case ByCommitter(x) => CommitCan(s, x)
    case ByResolver(x) => ResolverCan(s, x)
  }

  function NextState(c: Config, s: State, w: World, a: Action): State
    requires Enabled(c, s, a)
  {
    match a
    case ByCaller(x) => CallerStep(c, s, x)
    case ByRotator(x) => RotatorStep(c, s, x)
    case ByWorker(x) => WorkerStep(c, s, x)
    case ByCommitter(x) => CommitStep(c, s, w, x)
    case ByResolver(x) => ResolverStep(s, x)
  }

  /** What the action does to the shared store. */
  function NextWorld(c: Config, s: State, w: World, a: Action): World
    requires Enabled(c, s, a)
  {
    match a
    case ByWorker(x) => WorkerWorld(c, s, w, x)
    case ByCommitter(CasWrite(answer)) => CasWritten(c, s, w, answer)
    case _ => w
  }
}
