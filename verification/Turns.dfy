/** The machine's committer and the committer class do the same: one turn of the machine, from taking a group to
    having delivered it, is `Turned`. */
module Turns {
  import opened Wrappers
  import opened Bytes
  import opened ObjStore
  import opened Committer
  import opened Pipeline
  import opened JobsInv
  import opened FlowInv
  import opened GatesInv
  import opened System
  import opened Accumulator
  import Fates
  import ManifestLog
  import ProducerInv
  import MessagesInv
  import LedgerInv
  import FlushInv

  // ---------- jobs as completions ----------

  function Seen(c: Config, j: Job): Completion {
    Completion(j.batch.ordinal, c.location(j.batch.ordinal), JobError(j))
  }

  function SeenAll(c: Config, js: seq<Job>): (cs: seq<Completion>)
    ensures |cs| == |js|
  {
    seq(|js|, i requires 0 <= i < |js| => Seen(c, js[i]))
  }

  function SeenMap(c: Config, ready: map<nat, Job>): map<nat, Completion> {
    map o | o in ready :: Seen(c, ready[o])
  }

  lemma SeenInit(c: Config, js: seq<Job>)
    requires js != []
    ensures SeenAll(c, js)[..|js| - 1] == SeenAll(c, js[..|js| - 1])
            && SeenAll(c, js)[|js| - 1] == Seen(c, js[|js| - 1])
  {}

  /** Stored and unstored jobs are the uploaded and failed completions. */
  lemma {:induction false} SameSplit(c: Config, js: seq<Job>)
    requires AllFinished(js)
    ensures Uploaded(SeenAll(c, js)) == SeenAll(c, Stored(js)) && Failed(SeenAll(c, js)) == SeenAll(c, Unstored(js))
  {
    hide Seen;
    if js == [] {
    } else {
      var earlier, last := js[..|js| - 1], js[|js| - 1];
      SameSplit(c, earlier);
      SeenInit(c, js);
      assert (Seen(c, last).err == None) == (last.work == Finished(None)) by {
        SeenError(c, last);
      }
    }
  }

  lemma SeenError(c: Config, j: Job)
    requires j.work.Finished?
    ensures (Seen(c, j).err == None) == (j.work == Finished(None))
  {}

  lemma SameTaken(c: Config, ready: map<nat, Job>, next: nat, k: nat)
    requires forall o :: next <= o < next + k ==> o in ready
    ensures Taken(SeenMap(c, ready), next, k) == SeenAll(c, Taken(ready, next, k))
    ensures Left(SeenMap(c, ready), next, k) == SeenMap(c, Left(ready, next, k))
  {
    hide Seen;
  }

  // ---------- settling ----------

  /** Results after the jobs of `js` have gone to the resolver, in order. */
  function Given(results: Results, js: seq<Job>): Results {
    if js == [] then results else Given(results, js[..|js| - 1])[js[|js| - 1].batch.ordinal := JobError(js[|js| - 1])]
  }

  lemma {:induction false} GivenConcat(results: Results, a: seq<Job>, b: seq<Job>)
    ensures Given(results, a + b) == Given(Given(results, a), b)
    decreases |b|
  {
    if b == [] {
      assert a + b == a;
    } else {
      GivenConcat(results, a, b[..|b| - 1]);
      assert (a + b)[..|a + b| - 1] == a + b[..|b| - 1];
    }
  }

  lemma {:induction false} GivenStamped(c: Config, results: Results, js: seq<Job>, err: Option<Error>)
    ensures Given(results, Stamped(js, err)) == Settled(results, SeenAll(c, js), err)
  {
    if js == [] {
    } else {
      GivenStamped(c, results, js[..|js| - 1], err);
      assert Stamped(js, err)[..|js| - 1] == Stamped(js[..|js| - 1], err);
      SeenInit(c, js);
    }
  }

  lemma {:induction false} GivenOwn(c: Config, results: Results, js: seq<Job>)
    ensures Given(results, js) == SettledOwn(results, SeenAll(c, js))
  {
    if js == [] {
    } else {
      GivenOwn(c, results, js[..|js| - 1]);
      SeenInit(c, js);
    }
  }

  lemma GivenOutcomes(c: Config, results: Results, js: seq<Job>, err: Option<Error>)
    requires AllFinished(js)
    ensures Given(results, Outcomes(js, err))
         == SettledOwn(Settled(results, Uploaded(SeenAll(c, js)), err), Failed(SeenAll(c, js)))
  {
    hide Given, Settled, SettledOwn, Stored, Unstored, Uploaded, Failed, SeenAll;
    GivenConcat(results, Stamped(Stored(js), err), Unstored(js));
    GivenStamped(c, results, Stored(js), err);
    GivenOwn(c, Settled(results, SeenAll(c, Stored(js)), err), Unstored(js));
    SameSplit(c, js);
  }

  // ---------- one turn ----------

  /** What the class keeps in fields and the machine in its history: locations appended, results handed to the
      resolver, CAS calls made. */
  datatype Book = Book(log: seq<Bytes>, results: Results, calls: nat)

  function Viewed(c: Config, j: Jobs, b: Book): View {
    View(j.next, SeenMap(c, j.ready), j.halted, b.log, b.results, b.calls)
  }

  function NextBook(c: Config, s: State, w: World, a: Action, b: Book): Book {
    var j := s.jobs;
    match a
    case ByCommitter(Group) =>
      var k := TakeCount(j.ready, j.next, c.groupSize);
      if Stored(Taken(j.ready, j.next, k)) == [] then b else b.(calls := b.calls + 1)
    case ByCommitter(CasWrite(answer)) =>
      if j.com.Writing? && answer == Truthful && WriteApplies(c, s, w, answer) then
        b.(log := b.log + Locations(SeenAll(c, Stored(j.com.taken))))
      else b
    case ByCommitter(Deliver) =>
      if j.com.Delivering? && j.com.out != [] then
        b.(results := b.results[j.com.out[0].batch.ordinal := JobError(j.com.out[0])])
      else b
    case ByCommitter(Abandon(o)) => b.(results := b.results[o := Some(ProducerHalted)])
    case _ => b
  }

  /** A turn under way: the view it began with, the group, how its CAS ended, and how many jobs were delivered. */
  datatype Turn = Turn(v: View, js: seq<Job>, err: Option<Error>, done: nat)

  predicate Begun(c: Config, j: Jobs, b: Book, t: Turn) {
    && t.js != [] && AllFinished(t.js) && !t.v.halted
    && (forall o :: t.v.next <= o < t.v.next + |t.js| ==> o in t.v.ready)
    && SeenAll(c, t.js) == Taken(t.v.ready, t.v.next, |t.js|)
    && j.next == t.v.next + |t.js|
    && b.calls == t.v.calls + if Stored(t.js) == [] then 0 else 1
  }

  predicate AtCas(c: Config, j: Jobs, b: Book, t: Turn) {
    && InCas(j.com) && j.com.taken == t.js && !j.halted && Stored(t.js) != []
    && SeenMap(c, j.ready) == Left(t.v.ready, t.v.next, |t.js|) && b.log == t.v.log && b.results == t.v.results
  }

  predicate AtDelivery(c: Config, j: Jobs, b: Book, t: Turn) {
    var all := Outcomes(t.js, t.err);
    && j.com.Delivering? && j.com.next != ReceiveNext
    && t.done <= |all| && j.com.out == all[t.done..] && b.results == Given(t.v.results, all[..t.done])
    && SeenMap(c, j.ready) == Left(t.v.ready, t.v.next, |t.js|)
    && b.log == (if t.err == None then t.v.log + Locations(SeenAll(c, Stored(t.js))) else t.v.log)
    && (Stored(t.js) == [] ==> t.err == None)
    && (if j.com.next == Regroup then !j.halted && (t.err == None || t.err == Some(Shutdown))
        else j.halted && t.err == Some(ProducerHalted))
  }

  function Abandoned(left: map<nat, Completion>, ready: map<nat, Job>): Results {
    map o | o in left && o !in ready :: Some(ProducerHalted)
  }

  predicate AtAbandoning(c: Config, j: Jobs, b: Book, t: Turn) {
    var left := Left(t.v.ready, t.v.next, |t.js|);
    && j.com.Abandoning? && j.halted && t.err == Some(ProducerHalted) && Stored(t.js) != [] && b.log == t.v.log
    && j.ready.Keys <= left.Keys
    && b.results == Given(t.v.results, Outcomes(t.js, t.err)) + Abandoned(left, j.ready)
  }

  predicate Mid(c: Config, j: Jobs, b: Book, t: Turn) {
    Begun(c, j, b, t) && (AtCas(c, j, b, t) || AtDelivery(c, j, b, t) || AtAbandoning(c, j, b, t))
  }

  predicate InTurn(com: Commit) {
    InCas(com) || com.Delivering? || com.Abandoning?
  }

  /** Taking a group begins a turn. */
  lemma TurnBegins(c: Config, s: State, w: World, b: Book) returns (t: Turn)
    requires Typed(c, s.jobs) && s.jobs.com.Grouping? && !s.jobs.halted
            && TakeCount(s.jobs.ready, s.jobs.next, c.groupSize) > 0
    ensures t.v == Viewed(c, s.jobs, b) && |t.js| == TakeCount(s.jobs.ready, s.jobs.next, c.groupSize)
    ensures Mid(c, DoGroup(c, s, w).jobs, NextBook(c, s, w, ByCommitter(Group), b), t)
  {
    hide Seen, TakeCount, Taken, Left, Stored, Unstored, EncoderWork, UploaderWork, Given, Locations, SeenMap;
    var j, k := s.jobs, TakeCount(s.jobs.ready, s.jobs.next, c.groupSize);
    var js := Taken(j.ready, j.next, k);
    t := Turn(Viewed(c, j, b), js, None, 0);
    Fates.TakenIsFinished(j.ready, j.next, k);
    SameTaken(c, j.ready, j.next, k);
    SameKeys(c, j.ready);
    assert Given(b.results, []) == b.results && Locations([]) == [] by {
      NothingGiven(b.results);
    }
    if Stored(js) == [] {
      assert Outcomes(js, None) == Unstored(js);
      assert Outcomes(js, None)[..0] == [];
      assert b.log + [] == b.log;
    }
  }

  lemma SameKeys(c: Config, ready: map<nat, Job>)
    ensures SeenMap(c, ready).Keys == ready.Keys
  {}

  lemma NothingGiven(results: Results)
    ensures Given(results, []) == results && Locations([]) == []
  {}

  /** A CAS step keeps the group or settles it. */
  lemma CasGoesOn(c: Config, s: State, w: World, a: CommitAction, b: Book, t: Turn) returns (t': Turn)
    requires CommitCan(s, a) && (a.CasRead? || a.CasWrite? || a.CasRetry? || a.CasAbort?) && Mid(c, s.jobs, b, t)
    ensures t'.v == t.v && t'.js == t.js
    ensures Mid(c, CommitStep(c, s, w, a).jobs, NextBook(c, s, w, ByCommitter(a), b), t')
  {
    hide Outcomes, ManifestLog.Rewritten, Matches, ItemsOf, Stored, Given, Locations, SeenMap, SeenAll, Left,
         AllFinished, Taken;
    NothingGiven(b.results);
    var err: Option<Error> := if a.CasAbort? then Some(Shutdown) else if a ==
        CasWrite(Truthful) then None else Some(ProducerHalted);
    t' := t.(err := err, done := 0);
    assert Outcomes(t.js, err)[0..] == Outcomes(t.js, err) && Outcomes(t.js, err)[..0] == [];
  }

  lemma DeliverGoesOn(c: Config, s: State, w: World, b: Book, t: Turn) returns (t': Turn)
    requires CommitCan(s, Deliver) && Mid(c, s.jobs, b, t)
    ensures t'.v == t.v && t'.js == t.js
    ensures Mid(c, DoDeliver(s).jobs, NextBook(c, s, w, ByCommitter(Deliver), b), t')
  {
    hide Outcomes, Stored, Locations, SeenMap, SeenAll, Left, AllFinished, Taken;
    var all := Outcomes(t.js, t.err);
    t' := t.(done := t.done + 1);
    assert all[t.done..][1..] == all[t.done + 1..];
    assert all[..t.done + 1][..t.done] == all[..t.done];
  }

  lemma AbandonGoesOn(c: Config, s: State, w: World, o: nat, b: Book, t: Turn)
    requires CommitCan(s, Abandon(o)) && Mid(c, s.jobs, b, t)
    ensures Mid(c, DoAbandon(s, o).jobs, NextBook(c, s, w, ByCommitter(Abandon(o)), b), t)
  {
    hide Outcomes, Stored, Locations, SeenMap, SeenAll, Left, AllFinished, Taken, Given;
    var left := Left(t.v.ready, t.v.next, |t.js|);
    assert Abandoned(left, s.jobs.ready - {o}) == Abandoned(left, s.jobs.ready)[o := Some(ProducerHalted)];
  }

  /** Everything delivered: the turn is over, or the halted committer goes on to what it had waiting. */
  lemma DeliveredEnds(c: Config, s: State, b: Book, t: Turn)
    requires CommitCan(s, Delivered) && Mid(c, s.jobs, b, t)
    ensures var j' := DoDelivered(s).jobs;
            if InTurn(j'.com) then Mid(c, j', b, t)
            else j'.com.Grouping? && Viewed(c, j', b) == Turned(t.v, |t.js|, t.err)
  {
    hide Outcomes, Stored, Unstored, SeenMap, Left, Taken, Given, Uploaded, Failed, Settled, SettledOwn, Seen;
    var all := Outcomes(t.js, t.err);
    assert t.done == |all| && all[..|all|] == all;
    GivenOutcomes(c, t.v.results, t.js, t.err);
    SameSplit(c, t.js);
    assert Locations([]) == [] by {
      NothingGiven(b.results);
    }
    assert Stored(t.js) == [] ==> t.v.log + [] == t.v.log;
    if s.jobs.com.next == AbandonReady {
      SameKeys(c, s.jobs.ready);
      var left := Left(t.v.ready, t.v.next, |t.js|);
      assert Abandoned(left, s.jobs.ready) == map[];
      assert b.results + map[] == b.results;
    }
  }

  lemma AbandonedEnds(c: Config, s: State, b: Book, t: Turn)
    requires CommitCan(s, CommitAction.Abandoned) && Mid(c, s.jobs, b, t)
    ensures Viewed(c, DoAbandoned(s).jobs, b) == Turned(t.v, |t.js|, t.err) && !InTurn(DoAbandoned(s).jobs.com)
  {
    hide Begun, AtAbandoning, AtDelivery, Turned;
    assert AtAbandoning(c, s.jobs, b, t) by {
      OnlyAbandoning(c, s.jobs, b, t);
    }
    AllAbandoned(c, s.jobs, b, t);
  }

  lemma OnlyAbandoning(c: Config, j: Jobs, b: Book, t: Turn)
    requires Mid(c, j, b, t) && j.com.Abandoning?
    ensures AtAbandoning(c, j, b, t)
  {}

  lemma AllAbandoned(c: Config, j: Jobs, b: Book, t: Turn)
    requires Begun(c, j, b, t) && AtAbandoning(c, j, b, t) && j.ready == map[]
    ensures Viewed(c, j, b) == Turned(t.v, |t.js|, t.err)
  {
    hide Outcomes, Stored, Unstored, Left, Taken, Given, Uploaded, Failed, Settled, SettledOwn, Seen, Locations;
    GivenOutcomes(c, t.v.results, t.js, t.err);
    SameSplit(c, t.js);
    var left := Left(t.v.ready, t.v.next, |t.js|);
    assert Abandoned(left, map[]) == map o | o in left :: Some(ProducerHalted);
  }

  /** Every step of the committer carries the turn on or ends it. */
  lemma TurnGoesOn(c: Config, s: State, w: World, a: CommitAction, b: Book, t: Turn) returns (t': Turn)
    requires CommitCan(s, a) && Mid(c, s.jobs, b, t)
    ensures t'.v == t.v && t'.js == t.js
    ensures var j', b' := CommitStep(c, s, w, a).jobs, NextBook(c, s, w, ByCommitter(a), b);
            if InTurn(j'.com) then Mid(c, j', b', t') else Viewed(c, j', b') == Turned(t.v, |t.js|, t'.err)
  {
    hide Begun, AtDelivery, Turned, DoCasRead, DoCasWrite, DoDeliver, DoDelivered, DoAbandon, DoAbandoned, WriteApplies,
         SeenMap;
    MidIsInTurn(c, s.jobs, b, t);
    if a.CasRead? || a.CasWrite? || a.CasRetry? || a.CasAbort? {
      t' := CasGoesOn(c, s, w, a, b, t);
      MidIsInTurn(c, CommitStep(c, s, w, a).jobs, NextBook(c, s, w, ByCommitter(a), b), t');
    } else if a.Deliver? {
      t' := DeliverGoesOn(c, s, w, b, t);
      MidIsInTurn(c, CommitStep(c, s, w, a).jobs, NextBook(c, s, w, ByCommitter(a), b), t');
    } else {
      t' := t;
      if a.Delivered? {
        DeliveredEnds(c, s, b, t);
      } else if a.Abandon? {
        AbandonGoesOn(c, s, w, a.o, b, t);
        MidIsInTurn(c, CommitStep(c, s, w, a).jobs, NextBook(c, s, w, ByCommitter(a), b), t);
      } else {
        AbandonedEnds(c, s, b, t);
      }
    }
  }

  lemma MidIsInTurn(c: Config, j: Jobs, b: Book, t: Turn)
    requires Mid(c, j, b, t)
    ensures InTurn(j.com)
  {
    hide Begun;
  }

  // ---------- turns in runs ----------

  function BookOf(cs: Configs, s: System, es: seq<Event>, r: nat, b: Book): Book
    requires Possible(cs, s, es)
    decreases |es|
  {
    if es == [] then b
    else
      var e := es[0];
      BookOf(cs, Happened(cs, s, e), es[1..], r, if e.run ==
          r then NextBook(cs[r], s.states[r], s.world, e.action, b) else b)
  }

  /** Before each event of `es` the committer of `r` is inside a turn. */
  predicate StaysInTurn(cs: Configs, s: System, es: seq<Event>, r: nat)
    requires Possible(cs, s, es)
    decreases |es|
  {
    es == [] || (r in s.states && InTurn(s.states[r].jobs.com) && StaysInTurn(cs, Happened(cs, s, es[0]), es[1..], r))
  }

  /** The committer stands where it stood. */
  predicate SameStand(j: Jobs, j': Jobs) {
    j'.com == j.com && j'.ready == j.ready && j'.next == j.next && j'.halted == j.halted
  }

  lemma WorkersLeaveTurn(c: Config, s: State, a: WorkerAction)
    requires WorkerCan(c, s, a)
    ensures SameStand(s.jobs, WorkerStep(c, s, a).jobs)
  {
    hide EncodeWork;
  }

  lemma RotatorLeavesTurn(c: Config, s: State, a: RotatorAction)
    requires RotatorCan(c, s, a)
    ensures SameStand(s.jobs, RotatorStep(c, s, a).jobs)
  {
    hide CostOf, Representable, AckFlush, AllResolved, FramedCost, FramingOf;
  }

  lemma OthersLeaveTurn(c: Config, s: State, w: World, a: Action, b: Book)
    requires Enabled(c, s, a) && !a.ByCommitter?
    ensures SameStand(s.jobs, NextState(c, s, w, a).jobs)
    ensures NextBook(c, s, w, a, b) == b
  {
    hide MessageCost, CostOf, AckFlush, RotatorCan, RotatorStep, WorkerCan, WorkerStep, WriteApplies, TakeCount, Taken,
         Stored, SeenAll;
    if a.ByWorker? {
      WorkersLeaveTurn(c, s, a.worker);
    } else if a.ByRotator? {
      RotatorLeavesTurn(c, s, a.rotator);
    }
  }

  lemma MidFrame(c: Config, j: Jobs, j': Jobs, b: Book, t: Turn)
    requires Mid(c, j, b, t) && SameStand(j, j')
    ensures Mid(c, j', b, t)
  {
    hide SeenMap, SeenAll, Left, Taken, Outcomes, Given, Stored;
  }

  lemma EventInTurn(cs: Configs, s: System, e: Event, r: nat, b: Book, t: Turn) returns (t': Turn)
    requires CanHappen(cs, s, e) && r in cs && r in s.states && Mid(cs[r], s.states[r].jobs, b, t)
    ensures t'.v == t.v && t'.js == t.js && r in Happened(cs, s, e).states
    ensures var j', b' := Happened(cs, s, e).states[r].jobs, if e.run ==
            r then NextBook(cs[r], s.states[r], s.world, e.action, b) else b;
            if InTurn(j'.com) then Mid(cs[r], j', b', t') else Viewed(cs[r], j', b') == Turned(t.v, |t.js|, t'.err)
  {
    hide Mid, Turned, NextBook, CommitStep, CallerStep, RotatorStep, WorkerStep, ResolverStep, CallerCan, RotatorCan,
         WorkerCan, CommitCan, ResolverCan, SeenMap, NextWorld;
    t' := t;
    MidIsInTurn(cs[r], s.states[r].jobs, b, t);
    if e.run == r {
      if e.action.ByCommitter? {
        t' := TurnGoesOn(cs[r], s.states[r], s.world, e.action.committer, b, t);
      } else {
        OthersLeaveTurn(cs[r], s.states[r], s.world, e.action, b);
        MidFrame(cs[r], s.states[r].jobs, Happened(cs, s, e).states[r].jobs, b, t);
      }
    }
  }

  lemma {:induction false} RunInTurn(cs: Configs, s: System, es: seq<Event>, r: nat, b: Book,
                                     t: Turn) returns (err: Option<Error>)
    requires Possible(cs, s, es) && r in cs && r in s.states && StaysInTurn(cs, s, es, r)
            && Mid(cs[r], s.states[r].jobs, b, t)
    requires r in Final(cs, s, es).states && !InTurn(Final(cs, s, es).states[r].jobs.com)
    ensures Viewed(cs[r], Final(cs, s, es).states[r].jobs, BookOf(cs, s, es, r, b)) == Turned(t.v, |t.js|, err)
    decreases |es|
  {
    hide Mid, Turned, NextBook, SeenMap, CanHappen, Happened;
    MidIsInTurn(cs[r], s.states[r].jobs, b, t);
    var e := es[0];
    var t' := EventInTurn(cs, s, e, r, b, t);
    var b' := if e.run == r then NextBook(cs[r], s.states[r], s.world, e.action, b) else b;
    var s' := Happened(cs, s, e);
    if InTurn(s'.states[r].jobs.com) {
      err := RunInTurn(cs, s', es[1..], r, b', t');
    } else {
      err := t'.err;
    }
  }

  /** Producer `r` takes a group in `now`, and `more` is all that happens until its committer has left the turn. */
  predicate WholeTurn(cs: Configs, now: System, more: seq<Event>, r: nat) {
    && CanHappen(cs, now, Event(r, ByCommitter(Group)))
    && TakeCount(now.states[r].jobs.ready, now.states[r].jobs.next, cs[r].groupSize) > 0
    && var s1 := Happened(cs, now, Event(r, ByCommitter(Group)));
       && Possible(cs, s1, more) && StaysInTurn(cs, s1, more, r)
       && r in Final(cs, s1, more).states && !InTurn(Final(cs, s1, more).states[r].jobs.com)
  }

  /** What the committer of `r` stands at when the turn is over. */
  function AfterTurn(cs: Configs, now: System, more: seq<Event>, r: nat, b: Book): View
    requires WholeTurn(cs, now, more, r)
  {
    var s1 := Happened(cs, now, Event(r, ByCommitter(Group)));
    var b1 := NextBook(cs[r], now.states[r], now.world, ByCommitter(Group), b);
    Viewed(cs[r], Final(cs, s1, more).states[r].jobs, BookOf(cs, s1, more, r, b1))
  }

  lemma TurnRuns(cs: Configs, now: System, more: seq<Event>, r: nat, b: Book) returns (err: Option<Error>)
    requires WholeTurn(cs, now, more, r) && Typed(cs[r], now.states[r].jobs) && !now.states[r].jobs.halted
    ensures AfterTurn(cs, now, more, r, b)
         == Turned(Viewed(cs[r], now.states[r].jobs, b),
                   TakeCount(now.states[r].jobs.ready, now.states[r].jobs.next, cs[r].groupSize), err)
  {
    hide Possible, Final, Mid, Turned, NextBook, SeenMap, StaysInTurn, BookOf, TakeCount, DoGroup, Typed;
    var t := TurnBegins(cs[r], now.states[r], now.world, b);
    var s1 := Happened(cs, now, Event(r, ByCommitter(Group)));
    err := RunInTurn(cs, s1, more, r, NextBook(cs[r], now.states[r], now.world, ByCommitter(Group), b), t);
  }

  /** In every run, from any reachable state in which producer `r` is about to take a group of `k` ordinals, through all
      the steps of everyone until its committer has left the turn: what the committer then stands at is
      one turn of the committer class, with the CAS ending in `err`. */
  lemma MachineTurnIsTurned(cs: Configs, path: Path, base: ManifestLog.Log, start: System, es: seq<Event>,
                            more: seq<Event>, r: nat, b: Book)
    returns (err: Option<Error>)
    requires Cluster(cs, path) && Start(cs, path, base, start) && Possible(cs, start, es)
    requires WholeTurn(cs, Final(cs, start, es), more, r)
    ensures var now := Final(cs, start, es);
            AfterTurn(cs, now, more, r, b)
            == Turned(Viewed(cs[r], now.states[r].jobs, b),
                      TakeCount(now.states[r].jobs.ready, now.states[r].jobs.next, cs[r].groupSize), err)
  {
    hide Cluster, Start, Possible, Final, Good, StaysInTurn, InTurn, AfterTurn, Turned, SeenMap, TakeCount, Typed,
         ProducerInv.Local;
    var now := Final(cs, start, es);
    ReachableIsGood(cs, path, base, start, es);
    LocalOf(cs, path, base, now, r);
    ReadyToGroup(cs[r], now.states[r]);
    err := TurnRuns(cs, now, more, r, b);
  }

  lemma ReadyToGroup(c: Config, s: State)
    requires ProducerInv.Local(c, s) && s.jobs.com.Grouping?
    ensures Typed(c, s.jobs) && !s.jobs.halted
  {
    hide Conserved, Cursor, Gated, Typed, MessagesInv.InOrder, MessagesInv.Housed, MessagesInv.Resolved,
         LedgerInv.Balanced, FlushInv.Flushing;
  }

  // ---------- the order of delivery ----------

  /** Its upload succeeded. */
  predicate WasStored(taken: seq<Job>, o: nat) {
    exists i :: 0 <= i < |taken| && taken[i].batch.ordinal == o && taken[i].work == Finished(None)
  }

  predicate Rising(js: seq<Job>) {
    forall i, k :: 0 <= i < k < |js| ==> js[i].batch.ordinal < js[k].batch.ordinal
  }

  /** `js` is some of `taken`, in order, all of them stored or all of them not. */
  predicate Picked(js: seq<Job>, taken: seq<Job>, stored: bool) {
    Rising(js) && forall i :: 0 <= i < |js| ==> js[i] in taken && (js[i].work == Finished(None) <==> stored)
  }

  lemma PickLast(js: seq<Job>, taken: seq<Job>, stored: bool)
    requires taken != [] && Rising(taken) && Picked(js, taken[..|taken| - 1], stored)
    ensures Picked(js, taken, stored)
    ensures (taken[|taken| - 1].work == Finished(None) <==> stored) ==> Picked(js + [taken[|taken| - 1]], taken, stored)
  {
    var init := taken[..|taken| - 1];
    forall i | 0 <= i < |js|
      ensures js[i] in taken && js[i].batch.ordinal < taken[|taken| - 1].batch.ordinal
    {
      var k :| 0 <= k < |init| && init[k] == js[i];
      assert taken[k] == js[i];
    }
  }

  lemma {:induction false} SplitRises(taken: seq<Job>)
    requires Rising(taken)
    ensures Picked(Stored(taken), taken, true) && Picked(Unstored(taken), taken, false)
  {
    hide Picked;
    if taken == [] {
      NothingPicked();
    } else {
      var init := taken[..|taken| - 1];
      SplitRises(init);
      PickLast(Stored(init), taken, true);
      PickLast(Unstored(init), taken, false);
      assert Stored(init) + [] == Stored(init) && Unstored(init) + [] == Unstored(init);
    }
  }

  lemma NothingPicked()
    ensures Picked([], [], true) && Picked([], [], false)
  {}

  lemma StoredIff(taken: seq<Job>, j: Job)
    requires Rising(taken) && j in taken
    ensures WasStored(taken, j.batch.ordinal) <==> j.work == Finished(None)
  {
    var k :| 0 <= k < |taken| && taken[k] == j;
    if WasStored(taken, j.batch.ordinal) {
      var i :| 0 <= i < |taken| && taken[i].batch.ordinal == j.batch.ordinal && taken[i].work == Finished(None);
      assert i == k;
    }
  }

  /** The batches of a group are handed to the resolver with those that were uploaded first, told of the group's
      outcome, and then the failed ones with their own errors, each in ordinal order. */
  lemma DeliveryOrder(taken: seq<Job>, err: Option<Error>, x: nat, y: nat)
    requires Rising(taken) && x < y < |Outcomes(taken, err)|
    ensures var a, b := Outcomes(taken, err)[x], Outcomes(taken, err)[y];
            && (WasStored(taken, b.batch.ordinal) ==> WasStored(taken, a.batch.ordinal))
            && (WasStored(taken, a.batch.ordinal) == WasStored(taken, b.batch.ordinal) ==>
                  a.batch.ordinal < b.batch.ordinal)
            && (WasStored(taken, a.batch.ordinal) ==> a.work == Finished(err))
            && (!WasStored(taken, a.batch.ordinal) ==> a in taken)
  {
    hide Stored, Unstored, WasStored;
    SplitRises(taken);
    var stored, failed := Stored(taken), Unstored(taken);
    forall i | 0 <= i < |stored|
      ensures WasStored(taken, stored[i].batch.ordinal)
    {
      StoredIff(taken, stored[i]);
    }
    forall i | 0 <= i < |failed|
      ensures !WasStored(taken, failed[i].batch.ordinal)
    {
      StoredIff(taken, failed[i]);
    }
  }
}
