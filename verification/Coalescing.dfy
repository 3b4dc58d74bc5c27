/** Group commit refines the serial committer: whatever order completions arrive in, however the
    channel splits them into rounds and whatever the group size, the manifest gets the same entries. */
module Coalescing {
  import opened Wrappers
  import opened Enqueuer
  import opened Committer

  /** Outcomes by ordinal. */
  type Table = t: seq<Completion> | forall o :: 0 <= o < |t| ==> t[o].ordinal == o

  function Succeeds(): nat -> Option<Error> {
    _ => None
  }

  /** Receive and gather each round, then drain. */
  function Committed(rounds: seq<seq<Completion>>, batchSize: nat): View
    requires batchSize >= 1
  {
    if rounds == [] then View(0, map[], false, [], map[], 0)
    else
      var v := Committed(rounds[..|rounds| - 1], batchSize);
      Drained(v.(ready := Gathered(v.ready, rounds[|rounds| - 1])), batchSize, Succeeds())
  }

  function OrdinalsIn(cs: seq<Completion>): set<nat> {
    set i | 0 <= i < |cs| :: cs[i].ordinal
  }

  predicate FromTable(cs: seq<Completion>, table: Table) {
    forall i :: 0 <= i < |cs| ==> cs[i].ordinal < |table| && cs[i] == table[cs[i].ordinal]
  }

  /** In step with the serial committer: the log is that of the ordinals below `next`, those are
      settled, each with its own outcome, and only later ones wait in `ready`. */
  ghost predicate InStep(v: View, table: Table) {
    && !v.halted && v.next <= |table|
    && WaitsFrom(v.ready, v.next, table)
    && v.log == Locations(Uploaded(table[..v.next]))
    && SettledBelow(v.results, v.next, table)
  }

  ghost predicate WaitsFrom(ready: map<nat, Completion>, next: nat, table: Table) {
    forall o :: o in ready ==> next <= o < |table| && ready[o] == table[o]
  }

  ghost predicate SettledBelow(results: Results, next: nat, table: Table)
    requires next <= |table|
  {
    && (forall o :: o in results <==> 0 <= o < next)
    && (forall o :: 0 <= o < next ==> results[o] == table[o].err)
  }

  // ---------- lists ----------

  lemma {:induction false} UploadedConcat(a: seq<Completion>, b: seq<Completion>)
    ensures Uploaded(a + b) == Uploaded(a) + Uploaded(b)
    ensures Failed(a + b) == Failed(a) + Failed(b)
  {
    if b == [] {
      assert a + b == a;
    } else {
      var earlier, last := b[..|b| - 1], b[|b| - 1];
      UploadedConcat(a, earlier);
      assert (a + b)[..|a + b| - 1] == a + earlier && (a + b)[|a + b| - 1] == last;
      Reassociate(Uploaded(a), Uploaded(earlier), if last.err == None then [last] else []);
      Reassociate(Failed(a), Failed(earlier), if last.err == None then [] else [last]);
    }
  }

  lemma {:induction false} LocationsConcat(a: seq<Completion>, b: seq<Completion>)
    ensures Locations(a + b) == Locations(a) + Locations(b)
  {
    if b == [] {
      assert a + b == a;
    } else {
      LocationsConcat(a, b[..|b| - 1]);
      assert (a + b)[..|a + b| - 1] == a + b[..|b| - 1];
    }
  }

  lemma {:induction false} SplitByOutcome(cs: seq<Completion>)
    ensures forall c :: c in Uploaded(cs) <==> c in cs && c.err == None
    ensures forall c :: c in Failed(cs) <==> c in cs && c.err != None
  {
    if cs == [] {
    } else {
      SplitByOutcome(cs[..|cs| - 1]);
      assert cs == cs[..|cs| - 1] + [cs[|cs| - 1]];
    }
  }

  // ---------- settling ----------

  ghost predicate Mentions(cs: seq<Completion>, o: nat) {
    exists c :: c in cs && c.ordinal == o
  }

  lemma {:induction false} SettledAt(results: Results, cs: seq<Completion>, err: Option<Error>, o: nat)
    ensures Mentions(cs, o) ==> o in Settled(results, cs, err) && Settled(results, cs, err)[o] == err
    ensures !Mentions(cs, o) ==> (o in Settled(results, cs, err) <==> o in results)
    ensures !Mentions(cs, o) && o in results ==> Settled(results, cs, err)[o] == results[o]
  {
    if cs == [] {
    } else {
      SettledAt(results, cs[..|cs| - 1], err, o);
      MentionsSplit(cs, o);
    }
  }

  lemma MentionsSplit(cs: seq<Completion>, o: nat)
    requires cs != []
    ensures Mentions(cs, o) <==> Mentions(cs[..|cs| - 1], o) || cs[|cs| - 1].ordinal == o
  {
    assert cs == cs[..|cs| - 1] + [cs[|cs| - 1]];
  }

  lemma {:induction false} SettledOwnAt(results: Results, cs: seq<Completion>, table: Table, o: nat)
    requires FromTable(cs, table)
    ensures Mentions(cs, o) ==>
              o < |table| && o in SettledOwn(results, cs) && SettledOwn(results, cs)[o] == table[o].err
    ensures !Mentions(cs, o) ==> (o in SettledOwn(results, cs) <==> o in results)
    ensures !Mentions(cs, o) && o in results ==> SettledOwn(results, cs)[o] == results[o]
  {
    if cs == [] {
    } else {
      SettledOwnAt(results, cs[..|cs| - 1], table, o);
      MentionsSplit(cs, o);
    }
  }

  /** Resolving a group with nil and the failed ones with their own errors gives every member its own outcome. */
  lemma GroupSettledAt(results: Results, table: Table, lo: nat, k: nat, o: nat)
    requires lo + k <= |table|
    ensures var cs := table[lo..lo + k];
            var settled := SettledOwn(Settled(results, Uploaded(cs), None), Failed(cs));
            && (lo <= o < lo + k ==> o in settled && settled[o] == table[o].err)
            && (!(lo <= o < lo + k) ==> (o in settled <==> o in results))
            && (!(lo <= o < lo + k) && o in results ==> settled[o] == results[o])
  {
    hide Uploaded, Failed, Settled, SettledOwn;
    var cs := table[lo..lo + k];
    SplitByOutcome(cs);
    var group, failed := Uploaded(cs), Failed(cs);
    assert FromTable(cs, table);
    assert forall c :: c in failed ==> c in cs;
    assert FromTable(failed, table) by {
      forall i | 0 <= i < |failed| ensures failed[i].ordinal < |table| && failed[i] == table[failed[i].ordinal] {
        assert failed[i] in failed;
      }
    }
    SettledAt(results, group, None, o);
    SettledOwnAt(Settled(results, group, None), failed, table, o);
    GroupMentions(table, lo, k, o);
  }

  lemma GroupMentions(table: Table, lo: nat, k: nat, o: nat)
    requires lo + k <= |table|
    ensures Mentions(Uploaded(table[lo..lo + k]), o) <==> lo <= o < lo + k && table[o].err == None
    ensures Mentions(Failed(table[lo..lo + k]), o) <==> lo <= o < lo + k && table[o].err != None
  {
    hide Uploaded, Failed;
    var cs := table[lo..lo + k];
    SplitByOutcome(cs);
    forall c | c in cs
      ensures lo <= c.ordinal < lo + k && c == table[c.ordinal]
    {
      var i :| 0 <= i < |cs| && cs[i] == c;
      assert cs[i] == table[lo + i];
    }
    if lo <= o < lo + k {
      assert cs[o - lo] == table[o];
      assert table[o] in cs;
      if table[o].err == None {
        assert table[o] in Uploaded(cs);
      } else {
        assert table[o] in Failed(cs);
      }
    }
  }

  // ---------- one turn, one drain, one round ----------

  lemma TurnInStep(v: View, k: nat, table: Table)
    requires InStep(v, table)
    requires k > 0 && forall o :: v.next <= o < v.next + k ==> o in v.ready
    ensures InStep(Turned(v, k, None), table)
    ensures Turned(v, k, None).next == v.next + k && Turned(v, k, None).ready == Left(v.ready, v.next, k)
  {
    hide Uploaded, Failed, Settled, SettledOwn, Locations, Taken;
    assert v.next + k - 1 in v.ready;
    TakenFromTable(v, k, table);
    var cs := table[v.next..v.next + k];
    var t := Turned(v, k, None);
    assert table[..v.next + k] == table[..v.next] + cs;
    UploadedConcat(table[..v.next], cs);
    LocationsConcat(Uploaded(table[..v.next]), Uploaded(cs));
    assert t.log == v.log + Locations(Uploaded(cs)) by {
      if Uploaded(cs) == [] {
        NoLocations();
      }
    }
    forall o
      ensures o in t.results <==> 0 <= o < t.next
      ensures 0 <= o < t.next ==> t.results[o] == table[o].err
    {
      if o >= 0 {
        GroupSettledAt(v.results, table, v.next, k, o);
      }
    }
  }

  lemma TakenFromTable(v: View, k: nat, table: Table)
    requires InStep(v, table) && v.next + k <= |table|
    requires forall o :: v.next <= o < v.next + k ==> o in v.ready
    ensures Taken(v.ready, v.next, k) == table[v.next..v.next + k]
  {
    forall i | 0 <= i < k
      ensures Taken(v.ready, v.next, k)[i] == table[v.next..v.next + k][i]
    {
      assert v.next + i in v.ready;
    }
  }

  /** Ordinals that have reached the committer. */
  function Reached(v: View): set<nat> {
    v.ready.Keys + Below(v.next)
  }

  lemma {:induction false} DrainInStep(v: View, batchSize: nat, table: Table)
    requires batchSize >= 1 && InStep(v, table)
    ensures InStep(Drained(v, batchSize, Succeeds()), table)
    ensures Reached(Drained(v, batchSize, Succeeds())) == Reached(v)
    ensures Drained(v, batchSize, Succeeds()).next !in Drained(v, batchSize, Succeeds()).ready
    decreases |v.ready|
  {
    hide Turned, InStep;
    var k := TakeCount(v.ready, v.next, batchSize);
    if k == 0 {
    } else {
      TurnInStep(v, k, table);
      TurnedLeaves(v, k, None);
      var t := Turned(v, k, None);
      InStepRuns(t, table);
      DrainInStep(t, batchSize, table);
      assert Reached(t) == Reached(v);
    }
  }

  lemma InStepRuns(v: View, table: Table)
    requires InStep(v, table)
    ensures !v.halted
  {}

  lemma {:induction false} GatheredIs(ready: map<nat, Completion>, arrived: seq<Completion>, table: Table)
    requires FromTable(arrived, table)
    ensures Gathered(ready, arrived).Keys == ready.Keys + OrdinalsIn(arrived)
    ensures forall o :: o in OrdinalsIn(arrived) ==> o < |table| && Gathered(ready, arrived)[o] == table[o]
    ensures forall o :: o in ready && o !in OrdinalsIn(arrived) ==> Gathered(ready, arrived)[o] == ready[o]
  {
    hide OrdinalsIn;
    if arrived == [] {
      OrdinalsInOne([]);
    } else {
      var earlier, last := arrived[..|arrived| - 1], arrived[|arrived| - 1];
      GatheredIs(ready, earlier, table);
      OrdinalsSplit(earlier, [last]);
      OrdinalsInOne([last]);
      assert arrived == earlier + [last];
    }
  }

  lemma OrdinalsInOne(cs: seq<Completion>)
    requires |cs| <= 1
    ensures OrdinalsIn(cs) == if cs == [] then {} else {cs[0].ordinal}
  {
    if cs != [] {
      assert cs[0].ordinal in OrdinalsIn(cs);
    }
  }

  lemma OrdinalsSplit(a: seq<Completion>, b: seq<Completion>)
    ensures OrdinalsIn(a + b) == OrdinalsIn(a) + OrdinalsIn(b)
  {
    forall o
      ensures o in OrdinalsIn(a + b) <==> o in OrdinalsIn(a) + OrdinalsIn(b)
    {
      if o in OrdinalsIn(a) {
        var i :| 0 <= i < |a| && a[i].ordinal == o;
        assert (a + b)[i] == a[i];
      }
      if o in OrdinalsIn(b) {
        var i :| 0 <= i < |b| && b[i].ordinal == o;
        assert (a + b)[|a| + i] == b[i];
      }
    }
  }

  predicate DistinctOrdinals(cs: seq<Completion>) {
    forall i, j :: 0 <= i < j < |cs| ==> cs[i].ordinal != cs[j].ordinal
  }

  lemma {:induction false} CommitInStep(rounds: seq<seq<Completion>>, batchSize: nat, table: Table)
    requires batchSize >= 1
    requires FromTable(Flattened(rounds), table) && DistinctOrdinals(Flattened(rounds))
    ensures InStep(Committed(rounds, batchSize), table)
    ensures Reached(Committed(rounds, batchSize)) == OrdinalsIn(Flattened(rounds))
    ensures Committed(rounds, batchSize).next !in Committed(rounds, batchSize).ready
  {
    hide Drained, Gathered, InStep, Reached, OrdinalsIn, FromTable, DistinctOrdinals;
    if rounds == [] {
      StartsInStep(table);
    } else {
      var earlier, last := rounds[..|rounds| - 1], rounds[|rounds| - 1];
      var before := Flattened(earlier);
      assert Flattened(rounds) == before + last;
      RoundParts(before, last, table);
      CommitInStep(earlier, batchSize, table);
      var v := Committed(earlier, batchSize);
      GatherInStep(v, last, table);
      OrdinalsSplit(before, last);
      DrainInStep(v.(ready := Gathered(v.ready, last)), batchSize, table);
    }
  }

  lemma StartsInStep(table: Table)
    ensures var v := View(0, map[], false, [], map[], 0);
            InStep(v, table) && Reached(v) == OrdinalsIn([])
  {
    NothingTaken(map[], 0);
    NoLocations();
    assert table[..0] == [];
  }

  lemma GatherInStep(v: View, arrived: seq<Completion>, table: Table)
    requires InStep(v, table) && FromTable(arrived, table)
    requires Reached(v) !! OrdinalsIn(arrived)
    ensures var g := v.(ready := Gathered(v.ready, arrived));
            InStep(g, table) && Reached(g) == Reached(v) + OrdinalsIn(arrived)
  {
    hide Gathered, Uploaded, Locations, FromTable, OrdinalsIn, SettledBelow, WaitsFrom;
    GatheredIs(v.ready, arrived, table);
    GatherWaits(v.ready, v.next, arrived, table);
  }

  lemma GatherWaits(ready: map<nat, Completion>, next: nat, arrived: seq<Completion>, table: Table)
    requires WaitsFrom(ready, next, table) && FromTable(arrived, table)
    requires Below(next) !! OrdinalsIn(arrived)
    ensures WaitsFrom(Gathered(ready, arrived), next, table)
  {
    hide Gathered, FromTable, OrdinalsIn, Below;
    GatheredIs(ready, arrived, table);
  }

  lemma RoundParts(before: seq<Completion>, last: seq<Completion>, table: Table)
    requires FromTable(before + last, table) && DistinctOrdinals(before + last)
    ensures FromTable(before, table) && DistinctOrdinals(before) && FromTable(last, table)
    ensures OrdinalsIn(before) !! OrdinalsIn(last)
  {
    var all := before + last;
    forall i | 0 <= i < |before| ensures before[i] == all[i] {}
    forall i | 0 <= i < |last| ensures last[i] == all[|before| + i] {}
  }

  // ---------- arrival orders ----------

  lemma {:induction false} TableCounts(table: Table, c: Completion)
    ensures multiset(table)[c] <= 1
  {
    if table == [] {
    } else {
      var earlier: Table := table[..|table| - 1];
      TableCounts(earlier, c);
      assert table == earlier + [table[|table| - 1]];
      if c == table[|table| - 1] {
        assert c !in earlier;
      }
    }
  }

  lemma TwiceCounts(cs: seq<Completion>, i: nat, j: nat)
    requires i < j < |cs| && cs[i] == cs[j]
    ensures multiset(cs)[cs[i]] >= 2
  {
    assert cs == cs[..j] + cs[j..];
    assert cs[..j][i] in multiset(cs[..j]);
    assert cs[j..][0] in multiset(cs[j..]);
  }

  lemma ArrivalFacts(arrived: seq<Completion>, table: Table)
    requires multiset(arrived) == multiset(table)
    ensures FromTable(arrived, table) && DistinctOrdinals(arrived)
    ensures OrdinalsIn(arrived) == Below(|table|)
  {
    forall i | 0 <= i < |arrived|
      ensures arrived[i].ordinal < |table| && arrived[i] == table[arrived[i].ordinal]
    {
      assert arrived[i] in multiset(table);
    }
    forall i, j | 0 <= i < j < |arrived|
      ensures arrived[i].ordinal != arrived[j].ordinal
    {
      if arrived[i].ordinal == arrived[j].ordinal {
        TwiceCounts(arrived, i, j);
        TableCounts(table, arrived[i]);
      }
    }
    forall o | 0 <= o < |table|
      ensures o in OrdinalsIn(arrived)
    {
      assert table[o] in multiset(arrived);
    }
  }

  /** For every arrival order of the completions, every split of it into gather rounds and every
      group size: if the CAS calls succeed, the manifest receives the locations of the successful
      uploads in ordinal order, once each; every batch is settled with its own outcome; and nothing
      is left waiting. */
  lemma CoalescingCommitsInOrder(table: Table, rounds: seq<seq<Completion>>, batchSize: nat)
    requires batchSize >= 1
    requires multiset(Flattened(rounds)) == multiset(table)
    ensures var v := Committed(rounds, batchSize);
            && v.log == Locations(Uploaded(table))
            && v.next == |table| && v.ready == map[]
            && v.results == map o | 0 <= o < |table| :: table[o].err
  {
    hide *;
    ArrivalFacts(Flattened(rounds), table);
    CommitInStep(rounds, batchSize, table);
    AllReached(Committed(rounds, batchSize), table);
  }

  lemma AllReached(v: View, table: Table)
    requires InStep(v, table) && Reached(v) == Below(|table|) && v.next !in v.ready
    ensures v.log == Locations(Uploaded(table))
    ensures v.next == |table| && v.ready == map[]
    ensures v.results == map o | 0 <= o < |table| :: table[o].err
  {
    hide Below, Locations, Uploaded;
    assert v.next !in Reached(v);
    assert table[..|table|] == table;
    assert v.ready.Keys == {};
  }

  /** The serial committer: one completion a round, in ordinal order, one ordinal a group. */
  function Singletons(cs: seq<Completion>): seq<seq<Completion>> {
    seq(|cs|, i requires 0 <= i < |cs| => [cs[i]])
  }

  lemma {:induction false} FlattenedSingletons(cs: seq<Completion>)
    ensures Flattened(Singletons(cs)) == cs
  {
    if cs == [] {
    } else {
      FlattenedSingletons(cs[..|cs| - 1]);
      assert Singletons(cs)[..|cs| - 1] == Singletons(cs[..|cs| - 1]);
    }
  }

  lemma CoalescingRefinesSerial(table: Table, rounds: seq<seq<Completion>>, batchSize: nat)
    requires batchSize >= 1
    requires multiset(Flattened(rounds)) == multiset(table)
    ensures Committed(rounds, batchSize).log == Committed(Singletons(table), 1).log
    ensures Committed(rounds, batchSize).results == Committed(Singletons(table), 1).results
  {
    hide Committed, Uploaded, Locations;
    CoalescingCommitsInOrder(table, rounds, batchSize);
    FlattenedSingletons(table);
    CoalescingCommitsInOrder(table, Singletons(table), 1);
  }
}
