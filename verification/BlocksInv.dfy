/** A producer's own manifest writes: each is one commit group in ordinal order, pointing at stored data
    objects; groups follow each other in order; a group is written at most once per attempt. And the
    version bookkeeping that makes the conditional write safe. */
module BlocksInv {
  import opened Wrappers
  import opened ManifestLog
  import opened ObjStore
  import opened Committer
  import opened Pipeline
  import opened JobsInv
  import opened FlowInv
  import opened WorldInv

  // ---------- the shape of one block ----------

  ghost predicate OwnBlock(c: Config, h: History, objects: Objects, blk: Block) {
    && blk.ordinals != [] && |blk.items| == |blk.ordinals|
    && (forall x :: 0 <= x < |blk.ordinals| ==>
          && blk.ordinals[x] < |h.emitted|
          && blk.items[x] == ItemOf(c, h.emitted[blk.ordinals[x]])
          && BlobOk(c, objects, h.emitted[blk.ordinals[x]]))
    && Increasing(blk.ordinals)
  }

  predicate Increasing(xs: seq<nat>) {
    forall i, k :: 0 <= i < k < |xs| ==> xs[i] < xs[k]
  }

  ghost predicate OwnBlocks(c: Config, h: History, w: World) {
    forall k :: 0 <= k < |w.blocks| && w.blocks[k].run == c.run ==> OwnBlock(c, h, w.objects, w.blocks[k])
  }

  // ---------- the order of blocks ----------

  predicate AllLess(xs: seq<nat>, n: nat) {
    forall i :: 0 <= i < |xs| ==> xs[i] < n
  }

  predicate Precedes(xs: seq<nat>, ys: seq<nat>) {
    forall i, k :: 0 <= i < |xs| && 0 <= k < |ys| ==> xs[i] < ys[k]
  }

  /** Two writes of a run carry the same group, or the earlier one carries smaller ordinals only. */
  predicate OwnOrder(run: nat, blocks: seq<Block>) {
    forall i, k :: 0 <= i < k < |blocks| && blocks[i].run == run && blocks[k].run == run ==>
      blocks[i].ordinals == blocks[k].ordinals || Precedes(blocks[i].ordinals, blocks[k].ordinals)
  }

  /** How often a run wrote a group. */
  function Copies(blocks: seq<Block>, run: nat, ordinals: seq<nat>): nat {
    if blocks == [] then 0
    else
      var last := blocks[|blocks| - 1];
      Copies(blocks[..|blocks| - 1], run, ordinals) + if last.run == run && last.ordinals == ordinals then 1 else 0
  }

  predicate CopiesBound(c: Config, blocks: seq<Block>) {
    forall k :: 0 <= k < |blocks| && blocks[k].run == c.run ==>
        Copies(blocks, c.run, blocks[k].ordinals) <= c.manifestAttempts
  }

  function GroupOrdinals(com: Commit): seq<nat>
    requires InCas(com)
  {
    Ordinals(Stored(com.taken))
  }

  /** Attempts begun for the group in hand. */
  function Begun(com: Commit): nat
    requires InCas(com)
  {
    if com.BackingOff? then com.attempt + 1 else com.attempt
  }

  /** Until a halt, everything this run has written is below the cursor, or is the group in hand. */
  predicate Frontier(c: Config, j: Jobs, blocks: seq<Block>) {
    !j.halted ==>
      if InCas(j.com) then
        && |j.com.taken| <= j.next
        && (forall k :: 0 <= k < |blocks| && blocks[k].run == c.run ==>
              blocks[k].ordinals == GroupOrdinals(j.com) || AllLess(blocks[k].ordinals, j.next - |j.com.taken|))
        && Copies(blocks, c.run, GroupOrdinals(j.com)) <= Begun(j.com)
        && (if j.com.BackingOff? then j.com.attempt + 1 < c.manifestAttempts else j.com.attempt < c.manifestAttempts)
      else
        forall k :: 0 <= k < |blocks| && blocks[k].run == c.run ==> AllLess(blocks[k].ordinals, j.next)
  }

  // ---------- lists ----------

  lemma {:induction false} StoredOrdinals(js: seq<Job>, lo: nat)
    requires forall i :: 0 <= i < |js| ==> js[i].batch.ordinal == lo + i
    ensures forall i :: 0 <= i < |Stored(js)| ==> lo <= Stored(js)[i].batch.ordinal < lo + |js|
    ensures forall i, k :: 0 <= i < k < |Stored(js)| ==> Stored(js)[i].batch.ordinal < Stored(js)[k].batch.ordinal
  {
    if js == [] {
    } else {
      StoredOrdinals(js[..|js| - 1], lo);
    }
  }

  lemma {:induction false} CopiesZero(blocks: seq<Block>, run: nat, ordinals: seq<nat>)
    requires forall k :: 0 <= k < |blocks| && blocks[k].run == run ==> blocks[k].ordinals != ordinals
    ensures Copies(blocks, run, ordinals) == 0
  {
    if blocks == [] {
    } else {
      CopiesZero(blocks[..|blocks| - 1], run, ordinals);
    }
  }

  lemma CopiesGrow(blocks: seq<Block>, blk: Block, run: nat, ordinals: seq<nat>)
    ensures Copies(blocks + [blk], run, ordinals)
         == Copies(blocks, run, ordinals) + if blk.run == run && blk.ordinals == ordinals then 1 else 0
  {
    assert (blocks + [blk])[..|blocks|] == blocks;
  }

  // ---------- steps ----------

  lemma GroupKeepsFrontier(c: Config, s: State, w: World)
    requires c.groupSize >= 1 && c.manifestAttempts >= 1
    requires Conserved(s.jobs, s.hist) && Phases(s.jobs) && Frontier(c, s.jobs, w.blocks) && s.jobs.com.Grouping?
    ensures Frontier(c, DoGroup(c, s, w).jobs, w.blocks)
  {
    hide Stored, Unstored, TakeCount, Conserved, Taken, Left;
    var j, k := s.jobs, TakeCount(s.jobs.ready, s.jobs.next, c.groupSize);
    if k > 0 {
      var taken := Taken(j.ready, j.next, k);
      TakenOrdinals(j, s.hist, k);
      StoredOrdinals(taken, j.next);
      var g := Ordinals(Stored(taken));
      if Stored(taken) != [] {
        assert g[0] >= j.next;
        CopiesZero(w.blocks, c.run, g);
      }
    }
  }

  /** A CAS step without a write: the group in hand stays, is settled, or the producer halts. */
  lemma CasKeepsFrontier(c: Config, j: Jobs, j': Jobs, blocks: seq<Block>)
    requires Phases(j) && InCas(j.com) && Frontier(c, j, blocks) && CasMove(j, j')
    requires InCas(j'.com) ==> Begun(j'.com) >= Begun(j.com)
                               && (if j'.com.BackingOff? then j'.com.attempt + 1 < c.manifestAttempts else
                                   j'.com.attempt < c.manifestAttempts)
    ensures Frontier(c, j', blocks)
  {
    hide Stored, Outcomes;
    if !j'.halted && !InCas(j'.com) {
      StoredOrdinals(j.com.taken, j.next - |j.com.taken|);
    }
  }

  lemma CasSteps(c: Config, s: State, w: World, a: CommitAction)
    requires CommitCan(s, a) && (a.CasRead? || a.CasWrite? || a.CasRetry? || a.CasAbort?)
    requires Frontier(c, s.jobs, w.blocks) && !s.jobs.halted
    ensures var j' := CommitStep(c, s, w, a).jobs;
            InCas(j'.com) ==> Begun(j'.com) >= Begun(s.jobs.com)
                              && (if j'.com.BackingOff? then j'.com.attempt + 1 < c.manifestAttempts else
                                  j'.com.attempt < c.manifestAttempts)
    ensures a.CasWrite? && a.answer != Truthful ==>
              (CommitStep(c, s, w, a).jobs.com.BackingOff?
                  && Begun(CommitStep(c, s, w, a).jobs.com) == Begun(s.jobs.com) + 1)
              || (CommitStep(c, s, w, a).jobs.halted && !InCas(CommitStep(c, s, w, a).jobs.com))
    ensures a.CasWrite? && a.answer == Truthful && WriteApplies(c, s, w, a.answer) ==>
            !InCas(CommitStep(c, s, w, a).jobs.com)
  {
    hide Outcomes, Rewritten, Matches, ItemsOf, Stored, Copies, AllLess;
  }

  /** The block a write adds is the group in hand, and nothing it wrote before lies above it. */
  lemma WriteKeepsOrder(c: Config, j: Jobs, h: History, w: World, blk: Block)
    requires Phases(j) && InCas(j.com) && Frontier(c, j, w.blocks) && OwnOrder(c.run, w.blocks)
    requires blk.run == c.run && blk.ordinals == GroupOrdinals(j.com)
    ensures OwnOrder(c.run, w.blocks + [blk])
  {
    hide Stored, Copies;
    StoredOrdinals(j.com.taken, j.next - |j.com.taken|);
    var blocks' := w.blocks + [blk];
    forall i, k | 0 <= i < k < |blocks'| && blocks'[i].run == c.run && blocks'[k].run == c.run
      ensures blocks'[i].ordinals == blocks'[k].ordinals || Precedes(blocks'[i].ordinals, blocks'[k].ordinals)
    {
      if k == |w.blocks| && w.blocks[i].ordinals != blk.ordinals {
        assert AllLess(w.blocks[i].ordinals, j.next - |j.com.taken|);
      }
    }
  }

  lemma WriteKeepsCopies(c: Config, j: Jobs, w: World, blk: Block)
    requires Phases(j) && j.com.Writing? && Frontier(c, j, w.blocks) && CopiesBound(c, w.blocks)
    requires blk.run == c.run && blk.ordinals == GroupOrdinals(j.com)
    ensures CopiesBound(c, w.blocks + [blk])
  {
    hide Stored, Copies;
    forall k | 0 <= k <= |w.blocks| && (w.blocks + [blk])[k].run == c.run
      ensures Copies(w.blocks + [blk], c.run, (w.blocks + [blk])[k].ordinals) <= c.manifestAttempts
    {
      CopiesGrow(w.blocks, blk, c.run, (w.blocks + [blk])[k].ordinals);
    }
  }

  /** After the write the committer is past the group, or counts one more attempt for it. */
  lemma WriteKeepsFrontier(c: Config, j: Jobs, j': Jobs, w: World, blk: Block)
    requires Phases(j) && j.com.Writing? && Frontier(c, j, w.blocks) && CasMove(j, j')
    requires blk.run == c.run && blk.ordinals == GroupOrdinals(j.com)
    requires InCas(j'.com) ==>
              j'.com.BackingOff? && Begun(j'.com) == Begun(j.com) + 1 && j'.com.attempt + 1 < c.manifestAttempts
    ensures Frontier(c, j', w.blocks + [blk])
  {
    hide Stored, Outcomes, Copies;
    CopiesGrow(w.blocks, blk, c.run, blk.ordinals);
    StoredOrdinals(j.com.taken, j.next - |j.com.taken|);
    if !j'.halted && !InCas(j'.com) {
      forall k | 0 <= k <= |w.blocks| && (w.blocks + [blk])[k].run == c.run
        ensures AllLess((w.blocks + [blk])[k].ordinals, j'.next)
      {
        if k < |w.blocks| && w.blocks[k].ordinals != blk.ordinals {
          assert AllLess(w.blocks[k].ordinals, j.next - |j.com.taken|);
        }
      }
    }
  }

  /** The block is the stored part of the group: genuine batches with their data objects. */
  lemma WriteKeepsBlocks(c: Config, s: State, w: World, w': World, blk: Block)
    requires OwnBlocks(c, s.hist, w) && Keeps(c, s.hist, w, w') && w'.blocks == w.blocks + [blk]
    requires Phases(s.jobs) && InCas(s.jobs.com) && AllGenuine(s.hist.emitted, s.jobs.com.taken)
    requires Backed(c, s.hist, w, s.jobs.com.taken)
    requires blk == Block(c.run, GroupOrdinals(s.jobs.com), ItemsOf(c, Stored(s.jobs.com.taken)))
    ensures OwnBlocks(c, s.hist, w')
  {
    hide Stored, BlobOk;
    var taken := s.jobs.com.taken;
    StoredOrdinals(taken, s.jobs.next - |taken|);
    SplitByStorage(taken);
    forall x | 0 <= x < |blk.ordinals|
      ensures blk.ordinals[x] < |s.hist.emitted| && blk.items[x] == ItemOf(c, s.hist.emitted[blk.ordinals[x]])
      ensures BlobOk(c, w'.objects, s.hist.emitted[blk.ordinals[x]])
    {
      var j := Stored(taken)[x];
      var k :| 0 <= k < |taken| && taken[k] == j;
      assert Genuine(s.hist.emitted, taken[k].batch);
      assert StoredAt(c, s.hist, w, j.batch.ordinal);
    }
    KeepsBlocks(c, s.hist, w, w', |w.blocks|);
    assert OwnBlock(c, s.hist, w'.objects, blk);
  }

  lemma KeepsBlocks(c: Config, h: History, w: World, w': World, n: nat)
    requires OwnBlocks(c, h, w) && Keeps(c, h, w, w') && n <= |w.blocks|
    ensures forall k :: 0 <= k < n && w'.blocks[k].run == c.run ==> OwnBlock(c, h, w'.objects, w'.blocks[k])
  {
    hide BlobOk, ItemOf;
    forall k | 0 <= k < n && w'.blocks[k].run == c.run
      ensures OwnBlock(c, h, w'.objects, w'.blocks[k])
    {
      assert w'.blocks[k] == w.blocks[k];
      assert OwnBlock(c, h, w.objects, w.blocks[k]);
    }
  }

  lemma EmitKeepsBlocks(c: Config, h: History, h': History, w: World)
    requires OwnBlocks(c, h, w)
    requires |h.emitted| <= |h'.emitted| && h'.emitted[..|h.emitted|] == h.emitted
    ensures OwnBlocks(c, h', w)
  {
    hide BlobOk, ItemOf;
    forall k | 0 <= k < |w.blocks| && w.blocks[k].run == c.run
      ensures OwnBlock(c, h', w.objects, w.blocks[k])
    {
      assert OwnBlock(c, h, w.objects, w.blocks[k]);
      forall o | 0 <= o < |h.emitted|
        ensures h'.emitted[o] == h.emitted[o]
      {
        assert h'.emitted[..|h.emitted|][o] == h'.emitted[o];
      }
    }
  }

  // ---------- versions ----------

  function Number(version: Option<nat>): nat {
    if version.Some? then version.value else 0
  }

  /** A version read and not outdated still stands for the bytes the rewrite was made from; every
      conflict this call has seen is a manifest write by someone else since it began. */
  ghost predicate Versions(c: Config, j: Jobs, objects: Objects) {
    var v := VersionOf(objects, c.manifestPath);
    && (j.com.Reading? ==> j.com.conflicts + j.com.startVersion <= v)
    && (j.com.Writing? ==>
          && j.com.conflicts + j.com.startVersion <= Number(j.com.version) <= v
          && (Number(j.com.version) == v ==>
                j.com.version == VersionRead(objects, c.manifestPath)
                && Rewritten(DataAt(objects, c.manifestPath), ItemsOf(c, Stored(j.com.taken))) == Ok(j.com.data)))
  }

  /** Existing objects have version 1 or more. */
  ghost predicate Versioned(objects: Objects) {
    forall p :: p in objects ==> objects[p].version >= 1
  }

  lemma CasKeepsVersions(c: Config, s: State, w: World, a: CommitAction)
    requires CommitCan(s, a) && (a.CasRead? || a.CasWrite? || a.CasRetry? || a.CasAbort?)
    requires Versioned(w.objects) && Versions(c, s.jobs, w.objects)
    ensures Versions(c, CommitStep(c, s, w, a).jobs, NextWorld(c, s, w, ByCommitter(a)).objects)
  {
    hide Outcomes, Rewritten, ItemsOf, Stored;
  }

  /** The manifest moves only to higher versions. */
  ghost predicate ManifestAdvances(path: Path, objects: Objects, objects': Objects) {
    || (VersionOf(objects', path) == VersionOf(objects, path) && DataAt(objects', path) == DataAt(objects, path))
    || VersionOf(objects', path) > VersionOf(objects, path)
  }

  lemma AdvanceKeepsVersions(c: Config, j: Jobs, objects: Objects, objects': Objects)
    requires Versioned(objects) && Versioned(objects')
    requires Versions(c, j, objects) && ManifestAdvances(c.manifestPath, objects, objects')
    ensures Versions(c, j, objects')
  {
    hide Rewritten, ItemsOf, Stored;
  }

  /** The conditional write goes through only over the manifest it was computed from. */
  lemma WriteIsCurrent(c: Config, s: State, w: World, answer: Answer)
    requires s.jobs.com.Writing? && WriteApplies(c, s, w, answer)
    requires Versioned(w.objects) && Versions(c, s.jobs, w.objects)
    ensures Rewritten(DataAt(w.objects, c.manifestPath), ItemsOf(c, Stored(s.jobs.com.taken))) == Ok(s.jobs.com.data)
  {
    hide Rewritten, ItemsOf, Stored;
  }
}
