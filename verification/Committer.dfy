/** The ordinal-ordered group commit of buffer/producer.go, `manifestCommitter`. */
module Committer {
  import opened Wrappers
  import opened Bytes

  // ---------- building one commit group ----------

  /** How many ordinals from `next` on are ready, up to `room`. */
  function TakeCount<T>(ready: map<nat, T>, next: nat, room: nat): (k: nat)
    ensures k <= room
    ensures forall o :: next <= o < next + k ==> o in ready
    ensures k < room ==> next + k !in ready
    decreases room
  {
    if room == 0 || next !in ready then 0 else 1 + TakeCount(ready, next + 1, room - 1)
  }

  function Taken<T>(ready: map<nat, T>, next: nat, k: nat): (ts: seq<T>)
    requires forall o :: next <= o < next + k ==> o in ready
    ensures |ts| == k
  {
    seq(k, i requires 0 <= i < k => ready[next + i])
  }

  function Left<T>(ready: map<nat, T>, next: nat, k: nat): map<nat, T> {
    map o | o in ready && !(next <= o < next + k) :: ready[o]
  }

  // ---------- the committer's state ----------

  /** An upload or encode outcome, as the committer receives it. */
  datatype Completion = Completion(ordinal: nat, location: Bytes, err: Option<Error>)

  /** The outcome handed to the resolver, per ordinal. */
  type Results = map<nat, Option<Error>>

  datatype View = View(next: nat, ready: map<nat, Completion>, halted: bool,
                       log: seq<Bytes>, results: Results, calls: nat)

  function Uploaded(cs: seq<Completion>): seq<Completion> {
    if cs == [] then []
    else Uploaded(cs[..|cs| - 1]) + if cs[|cs| - 1].err == None then [cs[|cs| - 1]] else []
  }

  function Failed(cs: seq<Completion>): seq<Completion> {
    if cs == [] then []
    else Failed(cs[..|cs| - 1]) + if cs[|cs| - 1].err == None then [] else [cs[|cs| - 1]]
  }

  function Locations(cs: seq<Completion>): seq<Bytes> {
    if cs == [] then [] else Locations(cs[..|cs| - 1]) + [cs[|cs| - 1].location]
  }

  /** `resolve(uc, err)` for each of `cs`. */
  function Settled(results: Results, cs: seq<Completion>, err: Option<Error>): Results {
    if cs == [] then results else Settled(results, cs[..|cs| - 1], err)[cs[|cs| - 1].ordinal := err]
  }

  /** `resolve(uc, uc.putError)` for each of `cs`. */
  function SettledOwn(results: Results, cs: seq<Completion>): Results {
    if cs == [] then results else SettledOwn(results, cs[..|cs| - 1])[cs[|cs| - 1].ordinal := cs[|cs| - 1].err]
  }

  /** One turn of the drain loop over a group of `k > 0` ordinals, with `casErr` the outcome of its CAS. */
  function Turned(v: View, k: nat, casErr: Option<Error>): View
    requires k > 0 && forall o :: v.next <= o < v.next + k ==> o in v.ready
  {
    var taken := Taken(v.ready, v.next, k);
    var left := Left(v.ready, v.next, k);
    var group := Uploaded(taken);
    var calls := if group == [] then v.calls else v.calls + 1;
    if group != [] && casErr.Some? && casErr != Some(Shutdown) then
      var settled := SettledOwn(Settled(v.results, group, Some(ProducerHalted)), Failed(taken));
      v.(next := v.next + k, ready := map[], halted := true, calls := calls,
         results := settled + (map o | o in left :: Some(ProducerHalted)))
    else
      var err := if group == [] then None else casErr;
      v.(next := v.next + k, ready := left, calls := calls,
         log := if err == None then v.log + Locations(group) else v.log,
         results := SettledOwn(Settled(v.results, group, err), Failed(taken)))
  }

  /** `cas(n)` is the outcome of the n-th `casWithRetry`. */
  function Drained(v: View, batchSize: nat, cas: nat -> Option<Error>): View
    requires batchSize >= 1
    decreases |v.ready|
  {
    var k := TakeCount(v.ready, v.next, batchSize);
    if k == 0 then v
    else
      var t := Turned(v, k, cas(v.calls));
      TurnedLeaves(v, k, cas(v.calls));
      if t.halted then t else Drained(t, batchSize, cas)
  }

  lemma LeftShrinks<T>(ready: map<nat, T>, next: nat, k: nat)
    requires k > 0 && forall o :: next <= o < next + k ==> o in ready
    ensures |Left(ready, next, k)| < |ready|
  {
    var left := Left(ready, next, k);
    assert next in ready && next !in left;
    assert left.Keys <= ready.Keys - {next};
    CardinalityBelow(left.Keys, ready.Keys - {next});
  }

  lemma {:induction false} CardinalityBelow<T>(a: set<T>, b: set<T>)
    requires a <= b
    ensures |a| <= |b|
  {
    if a == {} {
    } else {
      var x :| x in a;
      CardinalityBelow(a - {x}, b - {x});
    }
  }

  // ---------- the goroutine's own loops ----------

  datatype Received = Got(uc: Completion) | ChannelClosed | NothingYet

  /** `uploadCompletionCh`: sent completions wait in order, and a closed channel still gives out what it holds. */
  class CompletionChannel {
    var buffer: seq<Completion>
    var closed: bool

    /** A `select` on the receive with a default branch. */
    method TryReceive() returns (r: Received)
      modifies `buffer
      ensures r == if old(buffer) != [] then Got(old(buffer)[0]) else if closed then ChannelClosed else NothingYet
      ensures buffer == if old(buffer) != [] then old(buffer)[1..] else []
    {
      if buffer != [] {
        r := Got(buffer[0]);
        buffer := buffer[1..];
      } else {
        r := if closed then ChannelClosed else NothingYet;
      }
    }
  }

  class ManifestCommitter {
    var next: nat
    var ready: map<nat, Completion>
    var halted: bool
    /** Locations this producer has appended to the manifest. */
    var log: seq<Bytes>
    var results: Results
    var calls: nat
    const batchSize: nat

    function State(): View
      reads this
    {
      View(next, ready, halted, log, results, calls)
    }

    constructor (batchSize: int)
      ensures State() == View(0, map[], false, [], map[], 0)
      ensures this.batchSize == if batchSize < 1 then 1 else batchSize
    {
      next, ready, halted, log, results, calls := 0, map[], false, [], map[], 0;
      this.batchSize := if batchSize < 1 then 1 else batchSize;
    }

    /** The inner loop: contiguous ready ordinals, split by upload outcome. */
    method TakeGroup() returns (group: seq<Completion>, failed: seq<Completion>)
      modifies `next, `ready
      ensures var k := TakeCount(old(ready), old(next), batchSize);
              && next == old(next) + k
              && ready == Left(old(ready), old(next), k)
              && group == Uploaded(Taken(old(ready), old(next), k))
              && failed == Failed(Taken(old(ready), old(next), k))
              && |group| + |failed| == k
    {
      hide Uploaded, Failed, Taken, Left, TakeCount;
      group, failed := [], [];
      ghost var k := 0;
      ghost var ready0, next0 := ready, next;
      NothingTaken(ready, next);
      while |group| + |failed| < batchSize
        invariant k == |group| + |failed| <= batchSize
        invariant forall o :: next0 <= o < next0 + k ==> o in ready0
        invariant next == next0 + k && ready == Left(ready0, next0, k)
        invariant group == Uploaded(Taken(ready0, next0, k)) && failed == Failed(Taken(ready0, next0, k))
        invariant TakeCount(ready0, next0, batchSize) == k + TakeCount(ready0, next, batchSize - k)
        decreases batchSize - k
      {
        LeftAtNext(ready0, next0, k);
        TakeStep(ready0, next, batchSize - k);
        if next !in ready {
          break;
        }
        var uc := ready[next];
        TakenGrows(ready0, next0, k);
        ready := ready - {next};
        next := next + 1;
        k := k + 1;
        if uc.err != None {
          failed := failed + [uc];
        } else {
          group := group + [uc];
        }
      }
      if |group| + |failed| == batchSize {
        TakeStep(ready0, next, 0);
      }
    }

    method Resolve(cs: seq<Completion>, err: Option<Error>)
      modifies `results
      ensures results == Settled(old(results), cs, err)
    {
      for i := 0 to |cs|
        invariant results == Settled(old(results), cs[..i], err)
      {
        assert cs[..i + 1][..i] == cs[..i];
        results := results[cs[i].ordinal := err];
      }
      assert cs[..|cs|] == cs;
    }

    method ResolveFailed(cs: seq<Completion>)
      modifies `results
      ensures results == SettledOwn(old(results), cs)
    {
      for i := 0 to |cs|
        invariant results == SettledOwn(old(results), cs[..i])
      {
        assert cs[..i + 1][..i] == cs[..i];
        results := results[cs[i].ordinal := cs[i].err];
      }
      assert cs[..|cs|] == cs;
    }

    /** Every batch still in `ready`, in the map's own order. */
    method ResolveReady()
      modifies `results
      ensures results == old(results) + (map o | o in ready :: Some(ProducerHalted))
    {
      hide HaltedBut;
      var rest := ready.Keys;
      NothingHalted(old(results), ready);
      while rest != {}
        invariant rest <= ready.Keys
        invariant results == HaltedBut(old(results), ready, rest)
        decreases |rest|
      {
        var o :| o in rest;
        OneMoreHalted(old(results), ready, rest, o);
        results := results[o := Some(ProducerHalted)];
        rest := rest - {o};
      }
      AllHalted(old(results), ready);
    }

    /** One turn of the drain loop. */
    method Turn(cas: nat -> Option<Error>) returns (done: bool)
      requires batchSize >= 1 && !halted
      modifies this
      ensures var k := TakeCount(old(ready), old(next), batchSize);
              && (k == 0 ==> done && State() == old(State()))
              && (k > 0 ==> State() == Turned(old(State()), k, cas(old(calls))) && done == halted)
    {
      hide Uploaded, Failed, Taken, Settled, SettledOwn, Locations;
      ghost var k := TakeCount(ready, next, batchSize);
      NothingTaken(ready, next);
      var group, failed := TakeGroup();
      if |group| == 0 && |failed| == 0 {
        return true;
      }
      var casErr: Option<Error> := None;
      if |group| > 0 {
        casErr := cas(calls);
        calls := calls + 1;
      }
      if casErr != None && casErr != Some(Shutdown) {
        halted := true;
        Resolve(group, Some(ProducerHalted));
        ResolveFailed(failed);
        ResolveReady();
        ready := map[];
        return true;
      }
      if casErr == None {
        AppendLocations(group);
      }
      Resolve(group, casErr);
      ResolveFailed(failed);
      if |group| == 0 {
        NoLocations();
      }
      return false;
    }

    method Drain(cas: nat -> Option<Error>)
      requires batchSize >= 1 && !halted
      modifies this
      ensures State() == Drained(old(State()), batchSize, cas)
    {
      hide Turned, Left;
      var done := false;
      while !done
        invariant !done ==> !halted
        invariant Drained(old(State()), batchSize, cas) == if done then State() else Drained(State(), batchSize, cas)
        decreases !done, |ready|
      {
        ghost var before := State();
        ghost var k := TakeCount(ready, next, batchSize);
        done := Turn(cas);
        if k > 0 {
          TurnedLeaves(before, k, cas(before.calls));
        }
      }
    }

    /** The effect of a CAS that went through. */
    method AppendLocations(group: seq<Completion>)
      modifies `log
      ensures log == old(log) + Locations(group)
    {
      for i := 0 to |group|
        invariant log == old(log) + Locations(group[..i])
      {
        assert group[..i + 1][..i] == group[..i];
        log := log + [group[i].location];
      }
      assert group[..|group|] == group;
    }

    /** `gather`: receives until the channel has nothing to give, and reports whether that was because it is closed. */
    method Gather(ch: CompletionChannel) returns (closed: bool)
      modifies `ready, ch`buffer
      ensures ready == Gathered(old(ready), old(ch.buffer)) && ch.buffer == []
      ensures closed == ch.closed
    {
      ghost var sent := ch.buffer;
      ghost var i := 0;
      assert sent[..0] == [];
      while true
        invariant i <= |sent| && ch.buffer == sent[i..]
        invariant ready == Gathered(old(ready), sent[..i])
        decreases |ch.buffer|
      {
        var more := ch.TryReceive();
        match more
        case Got(uc) =>
          assert sent[..i + 1][..i] == sent[..i];
          ready := ready[uc.ordinal := uc];
          i := i + 1;
        case ChannelClosed =>
          assert sent[..i] == sent;
          return true;
        case NothingYet =>
          assert sent[..i] == sent;
          return false;
      }
    }
  }

  function Gathered(ready: map<nat, Completion>, arrived: seq<Completion>): map<nat, Completion> {
    if arrived == [] then ready
    else Gathered(ready, arrived[..|arrived| - 1])[arrived[|arrived| - 1].ordinal := arrived[|arrived| - 1]]
  }

  /** Halt errors for the batches of `ready` that are not in `rest`. */
  function HaltedBut(results: Results, ready: map<nat, Completion>, rest: set<nat>): Results {
    results + map o | o in ready && o !in rest :: Some(ProducerHalted)
  }

  lemma NothingHalted(results: Results, ready: map<nat, Completion>)
    ensures HaltedBut(results, ready, ready.Keys) == results
  {}

  lemma OneMoreHalted(results: Results, ready: map<nat, Completion>, rest: set<nat>, o: nat)
    requires o in rest && o in ready
    ensures HaltedBut(results, ready, rest - {o}) == HaltedBut(results, ready, rest)[o := Some(ProducerHalted)]
  {}

  lemma AllHalted(results: Results, ready: map<nat, Completion>)
    ensures HaltedBut(results, ready, {}) == results + (map o | o in ready :: Some(ProducerHalted))
  {}

  lemma NothingTaken(ready: map<nat, Completion>, next: nat)
    ensures Left(ready, next, 0) == ready && Taken(ready, next, 0) == []
    ensures Uploaded([]) == [] && Failed([]) == []
  {}

  lemma NoLocations()
    ensures Locations([]) == []
  {}

  lemma TakeStep(ready: map<nat, Completion>, next: nat, room: nat)
    ensures TakeCount(ready, next, room) == if room == 0
            || next !in ready then 0 else 1 + TakeCount(ready, next + 1, room - 1)
  {}

  lemma LeftAtNext(ready: map<nat, Completion>, next: nat, k: nat)
    ensures next + k in Left(ready, next, k) <==> next + k in ready
    ensures next + k in ready ==> Left(ready, next, k)[next + k] == ready[next + k]
  {}

  lemma TurnedLeaves(v: View, k: nat, casErr: Option<Error>)
    requires k > 0 && forall o :: v.next <= o < v.next + k ==> o in v.ready
    ensures |Turned(v, k, casErr).ready| < |v.ready|
  {
    hide Uploaded, Failed, Taken, Settled, SettledOwn, Locations;
    LeftShrinks(v.ready, v.next, k);
  }

  lemma TakenGrows(ready: map<nat, Completion>, next: nat, k: nat)
    requires forall o :: next <= o < next + k + 1 ==> o in ready
    ensures Taken(ready, next, k + 1) == Taken(ready, next, k) + [ready[next + k]]
    ensures Uploaded(Taken(ready, next, k + 1))
         == Uploaded(Taken(ready, next, k)) + if ready[next + k].err == None then [ready[next + k]] else []
    ensures Failed(Taken(ready, next, k + 1))
         == Failed(Taken(ready, next, k)) + if ready[next + k].err == None then [] else [ready[next + k]]
    ensures Left(ready, next, k + 1) == Left(ready, next, k) - {next + k}
  {
    var ts := Taken(ready, next, k + 1);
    assert ts == Taken(ready, next, k) + [ready[next + k]];
    assert ts[..|ts| - 1] == Taken(ready, next, k);
  }
}
