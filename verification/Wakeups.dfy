/** The pipeline machine joined with the sleepers of its budget: a goroutine asleep in the budget is the machine's
    rotator, one of its Appends or one of its Flushes, and once its guard is true its wakeup is pending. */
module Wakeups {
  import opened Wrappers
  import opened Accumulator
  import opened Pipeline
  import opened Budget
  import opened ProducerInv
  import opened FlushRuns
  import opened Progress

  // ---------- the joint machine ----------

  /** `tickets[i]` is the arrival number of the Append with the message `p.front.entering[i]`. */
  datatype Joint = Joint(p: State, scene: Scene, tickets: seq<nat>, arrivals: nat)

  /** A step of the machine, in whatever world it finds; a goroutine that asks in vain and goes to sleep; or one
      that is woken. */
  datatype JointEvent = Act(a: Action, w: World) | Sleep(t: Thread) | WakeUp(t: Thread)

  function LeaveIfAsleep(scene: Scene, t: Thread): seq<Step> {
    if t in scene.asleep then [Leave(t)] else []
  }

  /** The critical sections of the budget a machine step passes through. */
  function Sections(c: Config, j: Joint, a: Action): seq<Step>
    requires Enabled(c, j.p, a) && |j.tickets| == |j.p.front.entering|
  {
    var f := j.p.front;
    match a
    case ByCaller(GiveUp(i)) => LeaveIfAsleep(j.scene, OfCaller(j.tickets[i]))
    case ByCaller(Reserve(i)) => [Ask(OfCaller(j.tickets[i]), ForBytes(MessageCost(f.entering[i])))]
    case ByCaller(Withdraw(i)) => [Step.DoRelease(MessageCost(f.reserved[i]), 0)]
    case ByCaller(FlushDrained(n)) => [Ask(OfFlush(n), ForDrain)]
    case ByCaller(FlushGiveUp(n)) => LeaveIfAsleep(j.scene, OfFlush(n))
    case ByRotator(Park) => [Ask(OfRotator, ForSlot)]
    case ByRotator(Acquire) => [Ask(OfRotator, ForSlot)]
    case ByRotator(Drop) => [Leave(OfRotator), Step.DoRelease(CostOf(f.acc), 0)]
    case ByRotator(Seal) => [DoCharge(FramingOf(f.acc))]
    case ByResolver(Release) => [Step.DoRelease(j.p.jobs.res.job.batch.byteCost, 1)]
    case _ => []
  }

  function TicketsAfter(j: Joint, a: Action): seq<nat> {
    match a
    case ByCaller(Enter(_)) => j.tickets + [j.arrivals]
    case ByCaller(GiveUp(i)) => if i < |j.tickets| then Without(j.tickets, i) else j.tickets
    case ByCaller(Reserve(i)) => if i < |j.tickets| then Without(j.tickets, i) else j.tickets
    case _ => j.tickets
  }

  /** What thread `t` would ask the budget for, outside the machine's own steps. */
  function Wants(j: Joint, t: Thread): Option<Need> {
    match t
    case OfRotator => if j.p.front.rot.Acquiring? && j.p.front.rot.parked then Some(ForSlot) else None
    case OfFlush(n) =>
      if n < |j.p.acct.flushes| && j.p.acct.flushes[n].Acked? then Some(ForDrain) else None
    case OfCaller(k) =>
      match Find(j.tickets, k)
      case Some(i) => if i < |j.p.front.entering| then Some(ForBytes(MessageCost(j.p.front.entering[i]))) else None
      case None => None
  }

  function Find(tickets: seq<nat>, k: nat): (i: Option<nat>)
    ensures i.Some? ==> i.value < |tickets| && tickets[i.value] == k
    ensures i == None ==> k !in tickets
  {
    if tickets == [] then None
    else if tickets[|tickets| - 1] == k then Some(|tickets| - 1)
    else Find(tickets[..|tickets| - 1], k)
  }

  predicate JointCan(c: Config, j: Joint, e: JointEvent) {
    match e
    case Act(a, _) =>
      && Enabled(c, j.p, a) && |j.tickets| == |j.p.front.entering| && Ran(j.scene, Sections(c, j, a)).Some?
    case Sleep(t) =>
      t !in j.scene.asleep && Wants(j, t).Some? && !Granted(j.scene.budget, Wants(j, t).value)
    case WakeUp(t) => Budget.Possible(j.scene, Wake(t))
  }

  function JointStep(c: Config, j: Joint, e: JointEvent): Joint
    requires JointCan(c, j, e)
  {
    match e
    case Act(a, w) =>
      Joint(NextState(c, j.p, w, a), Ran(j.scene, Sections(c, j, a)).value, TicketsAfter(j, a),
            j.arrivals + if a.ByCaller? && a.caller.Enter? then 1 else 0)
    case Sleep(t) => j.(scene := Stepped(j.scene, Ask(t, Wants(j, t).value)))
    case WakeUp(t) => j.(scene := Stepped(j.scene, Wake(t)))
  }

  predicate JointRun(c: Config, j: Joint, es: seq<JointEvent>)
    decreases |es|
  {
    es == [] || (JointCan(c, j, es[0]) && JointRun(c, JointStep(c, j, es[0]), es[1..]))
  }

  function JointEnd(c: Config, j: Joint, es: seq<JointEvent>): Joint
    requires JointRun(c, j, es)
    decreases |es|
  {
    if es == [] then j else JointEnd(c, JointStep(c, j, es[0]), es[1..])
  }

  function JointStart(c: Config): Joint {
    Joint(Init(c), Fresh(c.maxBytes, c.maxBatches), [], 0)
  }

  // ---------- the joint invariant ----------

  /** The machine's account is the budget's. */
  predicate Agrees(c: Config, acct: Account, b: Fields) {
    && b.bytesUsed == acct.bytesUsed && b.batchesUsed == acct.batchesUsed
    && b.maxBytes == c.maxBytes && b.maxBatches == c.maxBatches
  }

  predicate Ticketed(j: Joint) {
    && |j.tickets| == |j.p.front.entering|
    && (forall i, k :: 0 <= i < k < |j.tickets| ==> j.tickets[i] != j.tickets[k])
    && (forall i :: 0 <= i < |j.tickets| ==> j.tickets[i] < j.arrivals)
  }

  /** Whoever is asleep waits in the machine for exactly that. */
  predicate Placed(j: Joint) {
    forall t :: t in j.scene.asleep ==> Wants(j, t) == Some(j.scene.asleep[t].need)
  }

  ghost predicate JointOk(c: Config, j: Joint) {
    Local(c, j.p) && NoLostWakeup(j.scene) && Agrees(c, j.p.acct, j.scene.budget) && Ticketed(j) && Placed(j)
  }

  // ---------- steps of the budget ----------

  lemma RanOne(s: Scene, x: Step)
    ensures Ran(s, [x]) == if Budget.Possible(s, x) then Some(Stepped(s, x)) else None
  {
    hide Stepped, Budget.Possible;
    assert [x][..0] == [];
  }

  lemma RanTwo(s: Scene, x: Step, y: Step)
    ensures Ran(s, [x, y]).Some? <==> Budget.Possible(s, x) && Budget.Possible(Stepped(s, x), y)
    ensures Ran(s, [x, y]).Some? ==> Ran(s, [x, y]).value == Stepped(Stepped(s, x), y)
  {
    hide Stepped, Budget.Possible;
    assert [x, y][..1] == [x];
    RanOne(s, x);
  }

  // ---------- tickets ----------

  lemma {:induction false} FindAt(tickets: seq<nat>, i: nat)
    requires i < |tickets| && forall x, y :: 0 <= x < y < |tickets| ==> tickets[x] != tickets[y]
    ensures Find(tickets, tickets[i]) == Some(i)
  {
    var last := |tickets| - 1;
    if i == last {
    } else {
      assert tickets[i] != tickets[last];
      assert tickets[..last][i] == tickets[i];
      FindAt(tickets[..last], i);
    }
  }

  lemma WithoutDistinct(tickets: seq<nat>, i: nat)
    requires i < |tickets| && forall x, y :: 0 <= x < y < |tickets| ==> tickets[x] != tickets[y]
    ensures var rest := Without(tickets, i);
            forall x, y :: 0 <= x < y < |rest| ==> rest[x] != rest[y]
  {}

  /** One Append leaves the line; the others keep what they ask for. */
  lemma WantsWithout(j: Joint, j': Joint, i: nat, k: nat)
    requires Ticketed(j) && i < |j.tickets| && k != j.tickets[i] && k in j.tickets
    requires j'.tickets == Without(j.tickets, i) && j'.p.front.entering == Without(j.p.front.entering, i)
    ensures Wants(j', OfCaller(k)) == Wants(j, OfCaller(k))
  {
    hide MessageCost, Find;
    var x :| 0 <= x < |j.tickets| && j.tickets[x] == k;
    FindAt(j.tickets, x);
    var x' := if x < i then x else x - 1;
    assert j'.tickets[x'] == k && j'.p.front.entering[x'] == j.p.front.entering[x];
    WithoutDistinct(j.tickets, i);
    FindAt(j'.tickets, x');
  }

  /** One Append joins the line. */
  lemma WantsWith(j: Joint, j': Joint, m: Message, k: nat)
    requires Ticketed(j) && k in j.tickets
    requires j'.tickets == j.tickets + [j.arrivals] && j'.p.front.entering == j.p.front.entering + [m]
    ensures Wants(j', OfCaller(k)) == Wants(j, OfCaller(k))
  {
    hide MessageCost, Find;
    var x :| 0 <= x < |j.tickets| && j.tickets[x] == k;
    FindAt(j.tickets, x);
    assert j'.tickets[x] == k && j'.p.front.entering[x] == j.p.front.entering[x];
    FindAt(j'.tickets, x);
  }

  // ---------- every joint step keeps it ----------

  predicate Kept(c: Config, j: Joint) {
    Agrees(c, j.p.acct, j.scene.budget) && Ticketed(j) && Placed(j)
  }

  lemma EnterKeeps(c: Config, j: Joint, m: Message, w: World)
    requires Kept(c, j) && JointCan(c, j, Act(ByCaller(Enter(m)), w))
    ensures Kept(c, JointStep(c, j, Act(ByCaller(Enter(m)), w)))
  {
    hide Find;
    var j' := JointStep(c, j, Act(ByCaller(Enter(m)), w));
    forall t | t in j'.scene.asleep
      ensures Wants(j', t) == Some(j'.scene.asleep[t].need)
    {
      if t.OfCaller? {
        WantsWith(j, j', m, t.ticket);
      }
    }
  }

  lemma GiveUpKeeps(c: Config, j: Joint, i: nat, w: World)
    requires Kept(c, j) && JointCan(c, j, Act(ByCaller(GiveUp(i)), w))
    ensures Kept(c, JointStep(c, j, Act(ByCaller(GiveUp(i)), w)))
  {
    hide Find, Ran;
    var j' := JointStep(c, j, Act(ByCaller(GiveUp(i)), w));
    var own := OfCaller(j.tickets[i]);
    if own in j.scene.asleep {
      RanOne(j.scene, Leave(own));
    } else {
      RanNothing(j.scene);
    }
    WithoutDistinct(j.tickets, i);
    forall t | t in j'.scene.asleep
      ensures Wants(j', t) == Some(j'.scene.asleep[t].need)
    {
      if t.OfCaller? {
        WantsWithout(j, j', i, t.ticket);
      }
    }
  }

  lemma RanNothing(s: Scene)
    ensures Ran(s, []) == Some(s)
  {}

  lemma ReserveKeeps(c: Config, j: Joint, i: nat, w: World)
    requires Kept(c, j) && JointCan(c, j, Act(ByCaller(Reserve(i)), w))
    ensures Kept(c, JointStep(c, j, Act(ByCaller(Reserve(i)), w)))
  {
    hide Find, Ran, MessageCost;
    var j' := JointStep(c, j, Act(ByCaller(Reserve(i)), w));
    RanOne(j.scene, Ask(OfCaller(j.tickets[i]), ForBytes(MessageCost(j.p.front.entering[i]))));
    WithoutDistinct(j.tickets, i);
    forall t | t in j'.scene.asleep
      ensures Wants(j', t) == Some(j'.scene.asleep[t].need)
    {
      if t.OfCaller? {
        WantsWithout(j, j', i, t.ticket);
      }
    }
  }

  lemma CallerKeeps(c: Config, j: Joint, a: CallerAction, w: World)
    requires Kept(c, j) && Sound(j.scene.budget) && JointCan(c, j, Act(ByCaller(a), w))
    requires !a.Enter? && !a.GiveUp? && !a.Reserve? && !a.FlushDrained? && !a.FlushGiveUp?
    ensures Kept(c, JointStep(c, j, Act(ByCaller(a), w)))
  {
    hide Find, Ran, MessageCost, CostOf;
    if a.Withdraw? {
      RanOne(j.scene, Step.DoRelease(MessageCost(j.p.front.reserved[a.i]), 0));
    } else {
      RanNothing(j.scene);
    }
  }

  lemma FlushKeeps(c: Config, j: Joint, a: CallerAction, w: World)
    requires Kept(c, j) && JointCan(c, j, Act(ByCaller(a), w)) && (a.FlushDrained? || a.FlushGiveUp?)
    ensures Kept(c, JointStep(c, j, Act(ByCaller(a), w)))
  {
    hide Find, Ran;
    if a.FlushDrained? {
      RanOne(j.scene, Ask(OfFlush(a.f), ForDrain));
    } else if OfFlush(a.f) in j.scene.asleep {
      RanOne(j.scene, Leave(OfFlush(a.f)));
    } else {
      RanNothing(j.scene);
    }
  }

  /** The rotator at the budget. */
  lemma SlotKeeps(c: Config, j: Joint, a: RotatorAction, w: World)
    requires Kept(c, j) && JointCan(c, j, Act(ByRotator(a), w)) && (a.Park? || a.Acquire?)
    ensures Kept(c, JointStep(c, j, Act(ByRotator(a), w)))
  {
    hide Find, Ran;
    RanOne(j.scene, Ask(OfRotator, ForSlot));
  }

  lemma EmitKeeps(c: Config, j: Joint, a: RotatorAction, w: World)
    requires Kept(c, j) && Sound(j.scene.budget) && JointCan(c, j, Act(ByRotator(a), w)) && (a.Drop? || a.Seal?)
    ensures Kept(c, JointStep(c, j, Act(ByRotator(a), w)))
  {
    hide Find, Ran, CostOf, FramingOf, FramedCost, AllResolved, Representable;
    if a.Drop? {
      RanTwo(j.scene, Leave(OfRotator), Step.DoRelease(CostOf(j.p.front.acc), 0));
    } else {
      RanOne(j.scene, DoCharge(FramingOf(j.p.front.acc)));
    }
  }

  lemma SelectKeeps(c: Config, j: Joint, a: RotatorAction, w: World)
    requires Kept(c, j) && JointCan(c, j, Act(ByRotator(a), w)) && !a.Park? && !a.Acquire? && !a.Drop? && !a.Seal?
    ensures Kept(c, JointStep(c, j, Act(ByRotator(a), w)))
  {
    hide Find, Ran, CostOf;
    RanNothing(j.scene);
  }

  lemma StagesKeep(c: Config, j: Joint, a: Action, w: World)
    requires Kept(c, j) && JointCan(c, j, Act(a, w)) && (a.ByWorker? || a.ByCommitter?)
    ensures Kept(c, JointStep(c, j, Act(a, w)))
  {
    hide Find, Ran, WorkerCan, WorkerStep, CommitCan, CommitStep;
    RanNothing(j.scene);
    StagesFrame(c, j.p, w, a);
  }

  lemma ResolverKeeps(c: Config, j: Joint, a: ResolverAction, w: World)
    requires Kept(c, j) && JointCan(c, j, Act(ByResolver(a), w))
    ensures Kept(c, JointStep(c, j, Act(ByResolver(a), w)))
  {
    hide Find, Ran;
    if a == Release {
      RanOne(j.scene, Step.DoRelease(j.p.jobs.res.job.batch.byteCost, 1));
    } else {
      RanNothing(j.scene);
    }
  }

  lemma ActKeeps(c: Config, j: Joint, a: Action, w: World)
    requires Kept(c, j) && Sound(j.scene.budget) && JointCan(c, j, Act(a, w))
    ensures Kept(c, JointStep(c, j, Act(a, w)))
  {
    hide Kept, Sound, JointCan, JointStep;
    match a
    case ByCaller(x) =>
      match x {
        case Enter(m) => EnterKeeps(c, j, m, w);
        case GiveUp(i) => GiveUpKeeps(c, j, i, w);
        case Reserve(i) => ReserveKeeps(c, j, i, w);
        case FlushDrained(_) => FlushKeeps(c, j, x, w);
        case FlushGiveUp(_) => FlushKeeps(c, j, x, w);
        case _ => CallerKeeps(c, j, x, w);
      }
    case ByRotator(x) =>
      if x.Park? || x.Acquire? {
        SlotKeeps(c, j, x, w);
      } else if x.Drop? || x.Seal? {
        EmitKeeps(c, j, x, w);
      } else {
        SelectKeeps(c, j, x, w);
      }
    case ByResolver(x) => ResolverKeeps(c, j, x, w);
    case _ => StagesKeep(c, j, a, w);
  }

  /** Going to sleep and waking up. */
  lemma NapKeeps(c: Config, j: Joint, e: JointEvent)
    requires Kept(c, j) && JointCan(c, j, e) && !e.Act?
    ensures Kept(c, JointStep(c, j, e))
  {
    hide Find, MessageCost;
    var j' := JointStep(c, j, e);
    forall t | t in j'.scene.asleep
      ensures Wants(j', t) == Some(j'.scene.asleep[t].need)
    {
      assert Wants(j', t) == Wants(j, t);
    }
  }

  lemma StepKeepsJoint(c: Config, j: Joint, e: JointEvent)
    requires ValidConfig(c) && JointOk(c, j) && JointCan(c, j, e)
    ensures JointOk(c, JointStep(c, j, e))
  {
    hide ValidConfig, Local, Sound, Agrees, Ticketed, Placed, Ran, Enabled, NextState, Sections, TicketsAfter, Wants,
         Stepped;
    match e
    case Act(a, w) =>
      StepKeepsLocal(c, j.p, w, a);
      ActKeeps(c, j, a, w);
      RunKeepsWakeups(j.scene, Sections(c, j, a));
    case Sleep(t) =>
      NapKeeps(c, j, e);
      StepKeepsWakeups(j.scene, Ask(t, Wants(j, t).value));
    case WakeUp(t) =>
      NapKeeps(c, j, e);
      StepKeepsWakeups(j.scene, Wake(t));
  }

  lemma {:induction false} RunKeepsJoint(c: Config, j: Joint, es: seq<JointEvent>)
    requires ValidConfig(c) && JointOk(c, j) && JointRun(c, j, es)
    ensures JointOk(c, JointEnd(c, j, es))
    decreases |es|
  {
    hide ValidConfig, JointOk, JointCan, JointStep;
    if es == [] {
    } else {
      StepKeepsJoint(c, j, es[0]);
      RunKeepsJoint(c, JointStep(c, j, es[0]), es[1..]);
    }
  }

  lemma StartsJoint(c: Config)
    requires ValidConfig(c)
    ensures JointOk(c, JointStart(c))
  {
    hide Local;
    StartsLocal(c);
  }

  // ---------- a true guard is a pending wakeup ----------

  /** The goroutine that waits in the budget for the guard of this step. */
  function WaitsFor(j: Joint, a: Action): Option<Thread> {
    match a
    case ByCaller(Reserve(i)) => if i < |j.tickets| then Some(OfCaller(j.tickets[i])) else None
    case ByCaller(FlushDrained(n)) => Some(OfFlush(n))
    case ByRotator(Acquire) => Some(OfRotator)
    case _ => None
  }

  /** The step can be taken now, or after its goroutine has been woken, which is possible now. */
  predicate Pending(c: Config, j: Joint, a: Action, w: World) {
    var t := WaitsFor(j, a);
    if t.Some? && t.value in j.scene.asleep then
      JointCan(c, j, WakeUp(t.value)) && JointCan(c, JointStep(c, j, WakeUp(t.value)), Act(a, w))
    else JointCan(c, j, Act(a, w))
  }

  lemma ReservePends(c: Config, j: Joint, i: nat, w: World)
    requires JointOk(c, j) && Enabled(c, j.p, ByCaller(Reserve(i)))
    ensures Pending(c, j, ByCaller(Reserve(i)), w)
  {
    hide Local, Find, Ran, MessageCost;
    var t := OfCaller(j.tickets[i]);
    FindAt(j.tickets, i);
    var ask := Ask(t, ForBytes(MessageCost(j.p.front.entering[i])));
    if t in j.scene.asleep {
      RanOne(Stepped(j.scene, Wake(t)), ask);
    } else {
      RanOne(j.scene, ask);
    }
  }

  lemma DrainPends(c: Config, j: Joint, n: nat, w: World)
    requires JointOk(c, j) && Enabled(c, j.p, ByCaller(FlushDrained(n)))
    ensures Pending(c, j, ByCaller(FlushDrained(n)), w)
  {
    hide Local, Find, Ran;
    var t := OfFlush(n);
    if t in j.scene.asleep {
      RanOne(Stepped(j.scene, Wake(t)), Ask(t, ForDrain));
    } else {
      RanOne(j.scene, Ask(t, ForDrain));
    }
  }

  lemma AcquirePends(c: Config, j: Joint, w: World)
    requires JointOk(c, j) && Enabled(c, j.p, ByRotator(Acquire))
    ensures Pending(c, j, ByRotator(Acquire), w)
  {
    hide Local, Find, Ran;
    if OfRotator in j.scene.asleep {
      RanOne(Stepped(j.scene, Wake(OfRotator)), Ask(OfRotator, ForSlot));
    } else {
      RanOne(j.scene, Ask(OfRotator, ForSlot));
    }
  }

  /** Steps that no goroutine waits for in the budget. */
  lemma OtherPends(c: Config, j: Joint, a: Action, w: World)
    requires JointOk(c, j) && Enabled(c, j.p, a) && WaitsFor(j, a) == None && a != ByRotator(Drop)
    ensures JointCan(c, j, Act(a, w))
  {
    hide Local, Find, Ran, Stepped, MessageCost, CostOf, FramingOf, WorkerCan, CommitCan, Representable;
    var steps := Sections(c, j, a);
    if steps == [] {
      RanNothing(j.scene);
    } else {
      assert steps == [steps[0]];
      RanOne(j.scene, steps[0]);
    }
  }

  lemma StepPends(c: Config, j: Joint, a: Action, w: World)
    requires JointOk(c, j) && Enabled(c, j.p, a) && a != ByRotator(Drop)
    ensures Pending(c, j, a, w)
  {
    hide JointOk, Enabled, JointCan, JointStep;
    match a
    case ByCaller(Reserve(i)) => ReservePends(c, j, i, w);
    case ByCaller(FlushDrained(n)) => DrainPends(c, j, n, w);
    case ByRotator(Acquire) => AcquirePends(c, j, w);
    case _ => OtherPends(c, j, a, w);
  }

  /** In every run of machine and sleepers together: the machine's account is the budget's, whoever is asleep waits
      in the machine for exactly that, and no true guard is slept through. A step the machine allows can be taken,
      if need be after waking its goroutine, whose channel is then closed. Giving up at shutdown is apart: the
      rotator does that from its sleep. */
  lemma NoGuardIsSleptThrough(c: Config, es: seq<JointEvent>, a: Action, w: World)
    requires ValidConfig(c) && JointRun(c, JointStart(c), es)
    ensures var j := JointEnd(c, JointStart(c), es);
            && Agrees(c, j.p.acct, j.scene.budget) && Placed(j)
            && (Enabled(c, j.p, a) && a != ByRotator(Drop) ==> Pending(c, j, a, w))
            && (a == ByRotator(Drop) && Enabled(c, j.p, a) && OfRotator in j.scene.asleep ==>
                  JointCan(c, j, Act(a, w)))
  {
    hide ValidConfig, Local, JointRun, JointEnd, Agrees, NoLostWakeup, Ticketed, Placed, Enabled, Pending, Ran, Stepped;
    StartsJoint(c);
    RunKeepsJoint(c, JointStart(c), es);
    var j := JointEnd(c, JointStart(c), es);
    if Enabled(c, j.p, a) && a != ByRotator(Drop) {
      StepPends(c, j, a, w);
    }
    if a == ByRotator(Drop) && Enabled(c, j.p, a) && OfRotator in j.scene.asleep {
      DropFromSleep(c, j, w);
    }
  }

  lemma DropFromSleep(c: Config, j: Joint, w: World)
    requires JointOk(c, j) && Enabled(c, j.p, ByRotator(Drop)) && OfRotator in j.scene.asleep
    ensures JointCan(c, j, Act(ByRotator(Drop), w))
  {
    hide Local, Find, Ran, CostOf;
    RanTwo(j.scene, Leave(OfRotator), Step.DoRelease(CostOf(j.p.front.acc), 0));
  }

  /** In every such run, while an accepted message is unresolved, the rotator or a stage can take a step or the
      rotator can be woken; a batch outside the formats is the exception. */
  lemma NoMessageSleeps(c: Config, es: seq<JointEvent>, i: nat, w: World) returns (e: JointEvent)
    requires ValidConfig(c) && JointRun(c, JointStart(c), es)
    requires var p := JointEnd(c, JointStart(c), es).p; i < |p.hist.accepted| && i !in p.acct.watchers
    ensures var j := JointEnd(c, JointStart(c), es);
            || (JointCan(c, j, e) && (e == WakeUp(OfRotator) || (e.Act? && (Internal(e.a) || e.a.ByRotator?))))
            || TooBig(c, j.p)
  {
    hide ValidConfig, Local, JointRun, JointEnd, Agrees, NoLostWakeup, Ticketed, Placed, Enabled, Ran, Stepped, TooBig,
         Sections, TicketsAfter, JointStep;
    StartsJoint(c);
    RunKeepsJoint(c, JointStart(c), es);
    var j := JointEnd(c, JointStart(c), es);
    var a := NoMessageIsStuck(c, j.p, i);
    if !TooBig(c, j.p) {
      StepPends(c, j, a, w);
    }
    e := if a == ByRotator(Acquire) && OfRotator in j.scene.asleep then WakeUp(OfRotator) else Act(a, w);
  }
}
