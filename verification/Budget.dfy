/** The in-flight budget of buffer/budget.go: its critical sections, and who may sleep on which
    channel between them. */
module Budget {
  import opened Wrappers

  // ---------- arithmetic shared with the pipeline ----------

  /** The reservation rule, with the oversize-when-empty exception. */
  predicate CanReserve(used: int, limit: int, n: int) {
    used == 0 || used + n <= limit
  }

  /** `x -= n`, clamped at zero. */
  function Lowered(used: int, n: int): int {
    if used - n < 0 then 0 else used - n
  }

  // ---------- the struct ----------

  type Chan = nat

  /** The fields of `producerBudget`, the channels closed so far and the next channel to allocate. */
  datatype Fields = Fields(bytesUsed: int, batchesUsed: int, maxBytes: int, maxBatches: int,
                           waiter: Option<Chan>, drainCh: Option<Chan>, closed: set<Chan>, nextChan: Chan)

  function WithWaiter(b: Fields): Fields {
    if b.waiter.Some? then b else b.(waiter := Some(b.nextChan), nextChan := b.nextChan + 1)
  }

  function WithDrainCh(b: Fields): Fields {
    if b.drainCh.Some? then b else b.(drainCh := Some(b.nextChan), nextChan := b.nextChan + 1)
  }

  /** Closing the waiter channel wakes everyone parked on it. */
  function Woken(b: Fields): Fields {
    match b.waiter
    case Some(ch) => b.(closed := b.closed + {ch}, waiter := None)
    case None => b
  }

  function Released(b: Fields, bytes: int, batches: int): Fields {
    var lowered := Woken(b.(bytesUsed := Lowered(b.bytesUsed, bytes), batchesUsed := Lowered(b.batchesUsed, batches)));
    match lowered.drainCh
    case Some(ch) =>
      if lowered.batchesUsed == 0 then lowered.(closed := lowered.closed + {ch}, drainCh := None) else lowered
    case None => lowered
  }

  function Charged(b: Fields, extra: int): Fields {
    Woken(b.(bytesUsed := if b.bytesUsed + extra < 0 then 0 else b.bytesUsed + extra))
  }

  class ProducerBudget {
    var bytesUsed: int
    var batchesUsed: int
    const maxBytes: int
    const maxBatches: int
    var waiter: Option<Chan>
    var drainCh: Option<Chan>
    var closed: set<Chan>
    var nextChan: Chan

    function View(): Fields
      reads this
    {
      Fields(bytesUsed, batchesUsed, maxBytes, maxBatches, waiter, drainCh, closed, nextChan)
    }

    constructor (maxBytes: int, maxBatches: int)
      ensures View() == Fields(0, 0, if maxBytes < 1 then 1 else maxBytes, if maxBatches < 1 then 1 else maxBatches,
                               None, None, {}, 0)
    {
      bytesUsed, batchesUsed := 0, 0;
      this.maxBytes := if maxBytes < 1 then 1 else maxBytes;
      this.maxBatches := if maxBatches < 1 then 1 else maxBatches;
      waiter, drainCh, closed, nextChan := None, None, {}, 0;
    }

    method EnsureWaiter() returns (ch: Chan)
      modifies this
      ensures View() == WithWaiter(old(View())) && waiter == Some(ch)
    {
      if waiter == None {
        waiter := Some(nextChan);
        nextChan := nextChan + 1;
      }
      ch := waiter.value;
    }

    /** One pass of `reserveBytes`: either the bytes are taken, or `ch` is the channel to sleep on. */
    method TryReserveBytes(n: int) returns (taken: bool, ch: Chan)
      modifies this
      ensures taken <==> old(bytesUsed) == 0 || old(bytesUsed) + n <= maxBytes
      ensures taken ==> View() == old(View()).(bytesUsed := old(bytesUsed) + n)
      ensures !taken ==> View() == WithWaiter(old(View())) && waiter == Some(ch)
    {
      if bytesUsed == 0 || bytesUsed + n <= maxBytes {
        bytesUsed := bytesUsed + n;
        return true, 0;
      }
      ch := EnsureWaiter();
      taken := false;
    }

    /** One pass of `acquireBatchSlot`. */
    method TryAcquireSlot() returns (taken: bool, ch: Chan)
      modifies this
      ensures taken <==> old(batchesUsed) < maxBatches
      ensures taken ==> View() == old(View()).(batchesUsed := old(batchesUsed) + 1)
      ensures !taken ==> View() == WithWaiter(old(View())) && waiter == Some(ch)
    {
      if batchesUsed < maxBatches {
        batchesUsed := batchesUsed + 1;
        return true, 0;
      }
      ch := EnsureWaiter();
      taken := false;
    }

    /** One pass of `waitDrained`. */
    method TryDrained() returns (drained: bool, ch: Chan)
      modifies this
      ensures drained <==> old(batchesUsed) == 0
      ensures drained ==> View() == old(View())
      ensures !drained ==> View() == WithDrainCh(old(View())) && drainCh == Some(ch)
    {
      if batchesUsed == 0 {
        return true, 0;
      }
      if drainCh == None {
        drainCh := Some(nextChan);
        nextChan := nextChan + 1;
      }
      return false, drainCh.value;
    }

    method Release(bytes: int, batches: int)
      modifies this
      ensures View() == Released(old(View()), bytes, batches)
      ensures bytesUsed == (if old(bytesUsed) < bytes then 0 else old(bytesUsed) - bytes)
      ensures batchesUsed == (if old(batchesUsed) < batches then 0 else old(batchesUsed) - batches)
      ensures waiter == None && (old(waiter).Some? ==> old(waiter).value in closed)
      ensures batchesUsed == 0 ==> drainCh == None && (old(drainCh).Some? ==> old(drainCh).value in closed)
    {
      bytesUsed := bytesUsed - bytes;
      if bytesUsed < 0 {
        bytesUsed := 0;
      }
      batchesUsed := batchesUsed - batches;
      if batchesUsed < 0 {
        batchesUsed := 0;
      }
      if waiter.Some? {
        closed := closed + {waiter.value};
        waiter := None;
      }
      if batchesUsed == 0 && drainCh.Some? {
        closed := closed + {drainCh.value};
        drainCh := None;
      }
    }

    method AddReservation(extra: int)
      modifies this
      ensures View() == Charged(old(View()), extra)
      ensures bytesUsed == (if old(bytesUsed) + extra < 0 then 0 else old(bytesUsed) + extra)
      ensures waiter == None && (old(waiter).Some? ==> old(waiter).value in closed)
    {
      bytesUsed := bytesUsed + extra;
      if bytesUsed < 0 {
        bytesUsed := 0;
      }
      if waiter.Some? {
        closed := closed + {waiter.value};
        waiter := None;
      }
    }
  }

  // ---------- goroutines around the lock ----------

  /** A goroutine that uses the budget: the rotator, an Append by its arrival number, or a Flush. */
  datatype Thread = OfRotator | OfCaller(ticket: nat) | OfFlush(n: nat)

  /** What a goroutine outside the lock is asleep for. */
  datatype Need = ForBytes(n: nat) | ForSlot | ForDrain
  datatype Sleeper = Sleeper(need: Need, ch: Chan)

  datatype Scene = Scene(budget: Fields, asleep: map<Thread, Sleeper>)

  /** Each step is one critical section, or one goroutine leaving its `select`. */
  datatype Step =
    | Ask(thread: Thread, need: Need)
    | Wake(thread: Thread)
    | Leave(thread: Thread)
    | DoRelease(bytes: nat, batches: nat)
    | DoCharge(extra: nat)

  predicate Granted(b: Fields, need: Need) {
    match need
    case ForBytes(n) => CanReserve(b.bytesUsed, b.maxBytes, n)
    case ForSlot => b.batchesUsed < b.maxBatches
    case ForDrain => b.batchesUsed == 0
  }

  function AfterGrant(b: Fields, need: Need): Fields {
    match need
    case ForBytes(n) => b.(bytesUsed := b.bytesUsed + n)
    case ForSlot => b.(batchesUsed := b.batchesUsed + 1)
    case ForDrain => b
  }

  predicate Possible(s: Scene, step: Step) {
    match step
    case Ask(t, _) => t !in s.asleep
    case Wake(t) => t in s.asleep && s.asleep[t].ch in s.budget.closed
    case Leave(t) => t in s.asleep
    case DoRelease(_, _) => true
    case DoCharge(_) => true
  }

  function Stepped(s: Scene, step: Step): Scene
    requires Possible(s, step)
  {
    match step
    case Ask(t, need) =>
      if Granted(s.budget, need) then s.(budget := AfterGrant(s.budget, need))
      else if need.ForDrain? then
        var b := WithDrainCh(s.budget);
        Scene(b, s.asleep[t := Sleeper(need, b.drainCh.value)])
      else
        var b := WithWaiter(s.budget);
        Scene(b, s.asleep[t := Sleeper(need, b.waiter.value)])
    case Wake(t) => s.(asleep := s.asleep - {t})
    case Leave(t) => s.(asleep := s.asleep - {t})
    case DoRelease(bytes, batches) => s.(budget := Released(s.budget, bytes, batches))
    case DoCharge(extra) => s.(budget := Charged(s.budget, extra))
  }

  predicate Sound(b: Fields) {
    && b.bytesUsed >= 0 && 0 <= b.batchesUsed <= b.maxBatches && 1 <= b.maxBatches
    && (forall ch :: ch in b.closed ==> ch < b.nextChan)
    && (b.waiter.Some? ==> b.waiter.value < b.nextChan && b.waiter.value !in b.closed)
    && (b.drainCh.Some? ==> b.drainCh.value < b.nextChan && b.drainCh.value !in b.closed && b.batchesUsed > 0)
    && (b.waiter.Some? ==> b.waiter != b.drainCh)
  }

  /** A sleeper whose channel is still open sleeps on the channel the next release will close, and
      what it waits for is not available. */
  predicate RightlyAsleep(b: Fields, sl: Sleeper) {
    sl.ch < b.nextChan
    && (sl.ch !in b.closed ==>
          !Granted(b, sl.need) && (if sl.need.ForDrain? then b.drainCh else b.waiter) == Some(sl.ch))
  }

  predicate NoLostWakeup(s: Scene) {
    Sound(s.budget) && forall t :: t in s.asleep ==> RightlyAsleep(s.budget, s.asleep[t])
  }

  lemma GrantKeeps(b: Fields, need: Need, sl: Sleeper)
    requires Sound(b) && Granted(b, need) && RightlyAsleep(b, sl)
    ensures Sound(AfterGrant(b, need)) && RightlyAsleep(AfterGrant(b, need), sl)
  {}

  lemma StepKeepsWakeups(s: Scene, step: Step)
    requires NoLostWakeup(s) && Possible(s, step)
    ensures NoLostWakeup(Stepped(s, step))
  {
    var s' := Stepped(s, step);
    forall t | t in s'.asleep
      ensures RightlyAsleep(s'.budget, s'.asleep[t])
    {
      if step.Ask? && Granted(s.budget, step.need) {
        GrantKeeps(s.budget, step.need, s.asleep[t]);
      }
    }
    if step.Ask? && Granted(s.budget, step.need) && !step.need.ForDrain? {
      GrantKeepsSound(s.budget, step.need);
    }
  }

  lemma GrantKeepsSound(b: Fields, need: Need)
    requires Sound(b) && Granted(b, need)
    ensures Sound(AfterGrant(b, need))
  {}

  function Ran(s: Scene, steps: seq<Step>): Option<Scene> {
    if steps == [] then Some(s)
    else
      match Ran(s, steps[..|steps| - 1])
      case Some(before) =>
        if Possible(before, steps[|steps| - 1]) then Some(Stepped(before, steps[|steps| - 1])) else None
      case None => None
  }

  lemma {:induction false} RunKeepsWakeups(s: Scene, steps: seq<Step>)
    requires NoLostWakeup(s)
    ensures Ran(s, steps).Some? ==> NoLostWakeup(Ran(s, steps).value)
  {
    if steps == [] {
    } else {
      RunKeepsWakeups(s, steps[..|steps| - 1]);
      var before := Ran(s, steps[..|steps| - 1]);
      if before.Some? && Possible(before.value, steps[|steps| - 1]) {
        StepKeepsWakeups(before.value, steps[|steps| - 1]);
      }
    }
  }

  function Fresh(maxBytes: int, maxBatches: int): Scene {
    Scene(Fields(0, 0, maxBytes, maxBatches, None, None, {}, 0), map[])
  }

  /** In every interleaving: nobody sleeps through a wakeup. A goroutine parked on a channel that is
      still open wants something that is not to be had at that moment; and a drain channel exists
      only while some batch is in flight. */
  lemma NoWakeupIsLost(maxBytes: int, maxBatches: int, steps: seq<Step>)
    requires maxBytes >= 1 && maxBatches >= 1
    ensures match Ran(Fresh(maxBytes, maxBatches), steps)
            case None => true
            case Some(s) =>
              && (forall t :: t in s.asleep && s.asleep[t].ch !in s.budget.closed ==>
                  !Granted(s.budget, s.asleep[t].need))
              && (s.budget.drainCh.Some? ==> s.budget.batchesUsed > 0)
              && NoLostWakeup(s)
  {
    RunKeepsWakeups(Fresh(maxBytes, maxBatches), steps);
  }
}
