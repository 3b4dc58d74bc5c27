/** `manifestEnqueuer.enqueueBatch` of buffer/manifest.go: read, append, conditional write, and
    again on a conflict. Rival producers write the manifest between the read and the write. */
module Enqueuer {
  import opened Wrappers
  import opened Bytes
  import opened ManifestCodec
  import opened ManifestLog
  import opened ObjStore

  /** The store after one successful enqueue of `items`; unchanged if the call fails. */
  function Enqueued(objects: Objects, path: Path, items: seq<EnqueueItem>): Objects {
    match Rewritten(DataAt(objects, path), items)
    case Ok(data) => if items == [] then objects else Written(objects, path, data)
    case Err(_) => objects
  }

  /** The store after a list of enqueues, by whichever producers. */
  function AllEnqueued(objects: Objects, path: Path, calls: seq<seq<EnqueueItem>>): Objects
    decreases |calls|
  {
    if calls == [] then objects
    else Enqueued(AllEnqueued(objects, path, calls[..|calls| - 1]), path, calls[|calls| - 1])
  }

  function Flattened<T>(xss: seq<seq<T>>): seq<T> {
    if xss == [] then [] else Flattened(xss[..|xss| - 1]) + xss[|xss| - 1]
  }

  lemma {:induction false} AllEnqueuedConcat(objects: Objects, path: Path, a: seq<seq<EnqueueItem>>,
                                             b: seq<seq<EnqueueItem>>)
    ensures AllEnqueued(objects, path, a + b) == AllEnqueued(AllEnqueued(objects, path, a), path, b)
    decreases |b|
  {
    hide Enqueued;
    if b == [] {
      assert a + b == a;
    } else {
      AllEnqueuedConcat(objects, path, a, b[..|b| - 1]);
      assert (a + b)[..|a + b| - 1] == a + b[..|b| - 1];
    }
  }

  lemma {:induction false} AllEnqueuedGrows(objects: Objects, path: Path, calls: seq<seq<EnqueueItem>>)
    ensures VersionOf(objects, path) <= VersionOf(AllEnqueued(objects, path, calls), path)
    ensures path in objects ==> path in AllEnqueued(objects, path, calls)
    ensures VersionOf(objects, path) == VersionOf(AllEnqueued(objects, path, calls), path)
        ==> AllEnqueued(objects, path, calls) == objects
    decreases |calls|
  {
    hide Rewritten;
    if calls == [] {
    } else {
      AllEnqueuedGrows(objects, path, calls[..|calls| - 1]);
    }
  }

  /** One enqueue after the other on the manifest at `path`: what the others do while this call
      is between its read and its write. */
  method Interfere(store: InMemory, path: Path, calls: seq<seq<EnqueueItem>>)
    modifies store
    ensures store.objects == AllEnqueued(old(store.objects), path, calls)
  {
    hide Rewritten;
    for k := 0 to |calls|
      invariant store.objects == AllEnqueued(old(store.objects), path, calls[..k])
    {
      assert calls[..k + 1][..k] == calls[..k];
      var objects := store.objects;
      if calls[k] != [] {
        match Rewritten(DataAt(objects, path), calls[k]) {
          case Ok(data) => store.Put(path, data);
          case Err(_) =>
        }
      }
    }
    assert calls[..|calls|] == calls;
  }

  /** How one round of `enqueueBatch` meets the store: as specified, the read fails, the write fails without
      effect, or the write does what it would have done and its answer is lost. */
  datatype Fault = NoFault | GetFails | PutFails | AnswerLost

  method ReadManifest(store: InMemory, path: Path, fault: Fault) returns (r: Result<Manifest>, version: Option<nat>)
    ensures fault == GetFails ==> r == Err(Storage)
    ensures fault != GetFails ==> version == VersionRead(store.objects, path)
    ensures r.Ok? ==> fresh(r.value)
    ensures fault != GetFails ==>
              var data := DataAt(store.objects, path);
              match Loaded(if data.Some? then data.value else EmptyData())
              case Ok(f) => r.Ok? && r.value.View() == f
              case Err(e) => r == Err(e)
  {
    hide Loaded;
    if fault == GetFails {
      return Err(Storage), None;
    }
    var got := store.Get(path);
    if got.Err? {
      var m := new Manifest.Empty();
      return Ok(m), None;
    }
    r := Manifest.FromBytes(got.value.0);
    version := Some(got.value.1);
  }

  /** `m.append` for every item, stopping at the first error. */
  method AppendItems(m: Manifest, items: seq<EnqueueItem>) returns (err: Option<Error>)
    modifies m
    ensures match AppendedAll(old(m.View()), items)
            case Ok(f) => err == None && m.View() == f
            case Err(e) => err == Some(e)
  {
    hide AppendedOne;
    ghost var all := AppendedAll(m.View(), items);
    assert items[0..] == items;
    for i := 0 to |items|
      invariant all == AppendedAll(m.View(), items[i..])
    {
      err := m.Append(items[i]);
      assert items[i..][0] == items[i] && items[i..][1..] == items[i + 1..];
      if err != None {
        return;
      }
    }
    return None;
  }

  /** The rival enqueues between the k-th read of a call and its write. */
  function Round(rivals: seq<seq<seq<EnqueueItem>>>, k: nat): seq<seq<EnqueueItem>> {
    if k < |rivals| then rivals[k] else []
  }

  /** The store a call that gave up in its round with `before` at the read and `after` at the write leaves behind:
      its items are there only if an answer was lost. */
  predicate GaveUp(before: Objects, after: Objects, path: Path, items: seq<EnqueueItem>, fault: Fault, err: Error,
                   objects: Objects) {
    if fault == GetFails then err == Storage && objects == before
    else
      match Rewritten(DataAt(before, path), items)
      case Err(e) => err == e && objects == before
      case Ok(_) =>
        && err == Storage
        && match fault
           case NoFault => false
           case GetFails => false
           case PutFails => objects == after
           case AnswerLost => objects == if after == before then Enqueued(before, path, items) else after
  }

  datatype Attempted = Succeeded | Conflicted | Stopped(err: Error)

  /** One round: read, append, and write unless `round` changed the manifest in between. */
  method Attempt(store: InMemory, path: Path, items: seq<EnqueueItem>, round: seq<seq<EnqueueItem>>, fault: Fault)
    returns (r: Attempted, put: bool)
    requires items != []
    modifies store
    ensures r == Succeeded ==>
              && Rewritten(DataAt(old(store.objects), path), items).Ok?
              && store.objects == Enqueued(old(store.objects), path, items)
    ensures r == Conflicted ==>
              && round != [] && store.objects == AllEnqueued(old(store.objects), path, round)
              && VersionOf(store.objects, path) > VersionOf(old(store.objects), path)
    ensures r.Stopped? ==>
              GaveUp(old(store.objects), AllEnqueued(old(store.objects), path, round), path, items, fault, r.err,
                     store.objects)
    ensures r == Succeeded || r == Conflicted ==> put
  {
    hide Rewritten, AllEnqueued, Enqueued, Written, Matches, VersionOf, GaveUp;
    ghost var before := store.objects;
    WaysToGiveUp(before, AllEnqueued(before, path, round), path, items);
    EnqueuedIs(before, path, items);
    var read, version := ReadManifest(store, path, fault);
    if fault == GetFails {
      return Stopped(Storage), false;
    }
    var rewritten := Rewrite(read, items, DataAt(before, path));
    if rewritten.Err? {
      return Stopped(rewritten.error), false;
    }
    Interfere(store, path, round);
    RoundFacts(before, path, round);
    if fault == PutFails {
      return Stopped(Storage), true;
    }
    var err := store.PutIfMatch(path, rewritten.value, version);
    if fault == AnswerLost {
      return Stopped(Storage), true;
    }
    return if err == None then Succeeded else Conflicted, true;
  }

  /** `Round(rivals, k)` are the enqueues others complete between the k-th read of this call and its write, and
      `faults(k)` is how its k-th round meets the store. A call that succeeds leaves the manifest of all
      rivals so far with its own items behind them, as one block. Every conflict is charged to a round
      in which a rival wrote, so `k` rival writes cost at most `k` conflicts and `k + 1` puts. */
  method EnqueueBatch(store: InMemory, path: Path, items: seq<EnqueueItem>, rivals: seq<seq<seq<EnqueueItem>>>,
                      faults: nat -> Fault)
    returns (conflicts: nat, puts: nat, err: Option<Error>)
    modifies store
    ensures conflicts <= |rivals|
    ensures puts <= conflicts + 1
    ensures var before := AllEnqueued(old(store.objects), path, Flattened(rivals[..conflicts]));
            && conflicts <= VersionOf(before, path) - VersionOf(old(store.objects), path)
            && (err == None ==>
                  && (items == [] || Rewritten(DataAt(before, path), items).Ok?)
                  && store.objects == Enqueued(before, path, items))
            && (err.Some? ==>
                  && items != []
                  && GaveUp(before, AllEnqueued(before, path, Round(rivals, conflicts)), path, items,
                            faults(conflicts), err.value, store.objects))
  {
    hide Rewritten, AllEnqueued, Flattened, Enqueued, VersionOf, GaveUp;
    conflicts, puts := 0, 0;
    EmptyCalls(store.objects, path);
    assert rivals[..0] == [];
    if |items| == 0 {
      RewriteNothing(store.objects, path);
      return 0, 0, None;
    }
    while true
      invariant conflicts <= |rivals| && puts == conflicts
      invariant store.objects == AllEnqueued(old(store.objects), path, Flattened(rivals[..conflicts]))
      invariant conflicts <= VersionOf(store.objects, path) - VersionOf(old(store.objects), path)
      decreases |rivals| - conflicts
    {
      var r, put := Attempt(store, path, items, Round(rivals, conflicts), faults(conflicts));
      puts := if put then puts + 1 else puts;
      match r {
        case Succeeded => return conflicts, puts, None;
        case Stopped(e) => return conflicts, puts, Some(e);
        case Conflicted =>
          RoundJoins(old(store.objects), path, rivals, conflicts);
          conflicts := conflicts + 1;
      }
    }
  }

  /** The append loop and `toBytes` on the manifest just read. */
  method Rewrite(read: Result<Manifest>, items: seq<EnqueueItem>,
      ghost stored: Option<Bytes>) returns (r: Result<Bytes>)
    requires match Loaded(if stored.Some? then stored.value else EmptyData())
             case Ok(f) => read.Ok? && read.value.View() == f
             case Err(e) => read == Err(e)
    modifies if read.Ok? then {read.value} else {}
    ensures r == Rewritten(stored, items)
  {
    match read {
      case Err(e) => return Err(e);
      case Ok(m) =>
        AppendedAllKeepsBase(m.View(), items);
        var err := AppendItems(m, items);
        match err {
          case Some(e) => return Err(e);
          case None => r := m.ToBytes();
        }
    }
  }

  lemma EmptyCalls(objects: Objects, path: Path)
    ensures Flattened<seq<EnqueueItem>>([]) == [] && AllEnqueued(objects, path, []) == objects
  {}

  /** The four ways to give up. */
  lemma WaysToGiveUp(before: Objects, after: Objects, path: Path, items: seq<EnqueueItem>)
    ensures GaveUp(before, after, path, items, GetFails, Storage, before)
    ensures match Rewritten(DataAt(before, path), items)
            case Err(e) => forall fault :: fault != GetFails ==> GaveUp(before, after, path, items, fault, e, before)
            case Ok(_) =>
              && GaveUp(before, after, path, items, PutFails, Storage, after)
              && GaveUp(before, after, path, items, AnswerLost, Storage,
                        if after == before then Enqueued(before, path, items) else after)
  {
    hide Rewritten, Enqueued;
  }

  lemma EnqueuedIs(objects: Objects, path: Path, items: seq<EnqueueItem>)
    requires items != []
    ensures match Rewritten(DataAt(objects, path), items)
            case Ok(data) => Enqueued(objects, path, items) == Written(objects, path, data)
            case Err(_) => Enqueued(objects, path, items) == objects
  {}

  lemma RewriteNothing(objects: Objects, path: Path)
    ensures Enqueued(objects, path, []) == objects
  {}

  /** The conditional write goes through exactly when the round changed nothing. */
  lemma RoundFacts(before: Objects, path: Path, round: seq<seq<EnqueueItem>>)
    ensures var after := AllEnqueued(before, path, round);
            && (Matches(after, path, VersionRead(before, path)) <==> after == before)
            && (after != before ==> round != [] && VersionOf(after, path) > VersionOf(before, path))
  {
    hide Enqueued;
    AllEnqueuedGrows(before, path, round);
  }

  lemma RoundJoins(objects: Objects, path: Path, rivals: seq<seq<seq<EnqueueItem>>>, k: nat)
    requires k < |rivals|
    ensures AllEnqueued(objects, path, Flattened(rivals[..k + 1]))
         == AllEnqueued(AllEnqueued(objects, path, Flattened(rivals[..k])), path, rivals[k])
  {
    hide Enqueued, AllEnqueued;
    assert rivals[..k + 1][..k] == rivals[..k];
    AllEnqueuedConcat(objects, path, Flattened(rivals[..k]), rivals[k]);
  }

  // ---------- the manifest as a log ----------

  /** The manifest at `path` holds `log`; a missing manifest is the empty log. */
  predicate StoreHolds(objects: Objects, path: Path, log: Log) {
    match DataAt(objects, path)
    case Some(data) => Holds(data, log)
    case None => log == EMPTY_LOG
  }

  lemma EnqueueExtends(objects: Objects, path: Path, log: Log, items: seq<EnqueueItem>)
    requires StoreHolds(objects, path, log) && ItemsFit(items)
    requires Rewritten(DataAt(objects, path), items).Ok?
    ensures StoreHolds(Written(objects, path, Rewritten(DataAt(objects, path), items).value), path,
                       Extended(log, items))
  {
    hide Holds, ItemsFit, Loaded, AppendedAll, EmptyData;
    var data := if path in objects then objects[path].data else EmptyData();
    EmptyHolds();
    assert Rewritten(DataAt(objects, path), items) == Rewritten(Some(data), items);
    AppendRefinesList(data, log, items);
  }

  /** The calls that went through, out of `calls` made one after the other. */
  function Successful(objects: Objects, path: Path, calls: seq<seq<EnqueueItem>>): seq<seq<EnqueueItem>>
    decreases |calls|
  {
    if calls == [] then []
    else
      var earlier, last := calls[..|calls| - 1], calls[|calls| - 1];
      Successful(objects, path, earlier)
        + if last != [] && Rewritten(DataAt(AllEnqueued(objects, path, earlier), path), last).Ok? then [last] else []
  }

  /** However many producers make however many calls, the manifest is the first log extended by the
      items of the calls that went through, each call's items in one block, in the order they were written. */
  lemma {:induction false} EnqueuesChain(objects: Objects, path: Path, log: Log, calls: seq<seq<EnqueueItem>>)
    requires StoreHolds(objects, path, log)
    requires forall i :: 0 <= i < |calls| ==> ItemsFit(calls[i])
    ensures StoreHolds(AllEnqueued(objects, path, calls), path,
                       Extended(log, Flattened(Successful(objects, path, calls))))
    decreases |calls|
  {
    hide Rewritten, StoreHolds, ItemsFit, Extended;
    if calls == [] {
      ExtendedByNothing(log);
    } else {
      var earlier, last := calls[..|calls| - 1], calls[|calls| - 1];
      EnqueuesChain(objects, path, log, earlier);
      var good := Successful(objects, path, earlier);
      var soFar := AllEnqueued(objects, path, earlier);
      if last != [] && Rewritten(DataAt(soFar, path), last).Ok? {
        EnqueueExtends(soFar, path, Extended(log, Flattened(good)), last);
        ExtendedTwice(log, Flattened(good), last);
        assert (good + [last])[..|good|] == good;
        assert Flattened(good + [last]) == Flattened(good) + last;
      } else {
        assert good + [] == good;
      }
    }
  }

  lemma ExtendedByNothing(log: Log)
    ensures Extended(log, []) == log
  {
    assert log.entries + [] == log.entries;
  }
}
