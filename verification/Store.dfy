/** The versioned object store of objstore/objstore.go and objstore/memory.go. */
module ObjStore {
  import opened Wrappers
  import opened Bytes

  type Path = Bytes
  datatype MemObject = MemObject(data: Bytes, version: nat)
  type Objects = map<Path, MemObject>

  /** The version behind the ETag of an object; 0 stands for "no such object". */
  function VersionOf(objects: Objects, path: Path): nat {
    if path in objects then objects[path].version else 0
  }

  function DataAt(objects: Objects, path: Path): Option<Bytes> {
    if path in objects then Some(objects[path].data) else None
  }

  /** An unconditional write. */
  function Written(objects: Objects, path: Path, data: Bytes): Objects {
    objects[path := MemObject(data, VersionOf(objects, path) + 1)]
  }

  /** If-Match against a version, If-None-Match when none is given
      (sections 13.1.1 and 13.1.2 of RFC 9110). */
  predicate Matches(objects: Objects, path: Path, version: Option<nat>) {
    match version
    case None => path !in objects
    case Some(v) => path in objects && objects[path].version == v
  }

  /** The version a reader passes back to `PutIfMatch`. */
  function VersionRead(objects: Objects, path: Path): Option<nat> {
    if path in objects then Some(objects[path].version) else None
  }

  class InMemory {
    var objects: Objects

    constructor ()
      ensures objects == map[]
    {
      objects := map[];
    }

    method Get(path: Path) returns (r: Result<(Bytes, nat)>)
      ensures r == if path in objects then Ok((objects[path].data, objects[path].version)) else Err(NotFound)
    {
      if path !in objects {
        return Err(NotFound);
      }
      return Ok((objects[path].data, objects[path].version));
    }

    method Put(path: Path, data: Bytes)
      modifies this
      ensures objects == Written(old(objects), path, data)
    {
      if path in objects {
        var obj := objects[path];
        objects := objects[path := MemObject(data, obj.version + 1)];
      } else {
        objects := objects[path := MemObject(data, 1)];
      }
    }

    method PutIfMatch(path: Path, data: Bytes, version: Option<nat>) returns (err: Option<Error>)
      modifies this
      ensures Matches(old(objects), path, version) ==> err == None && objects == Written(old(objects), path, data)
      ensures !Matches(old(objects), path, version) ==> err == Some(PreconditionFailed) && objects == old(objects)
    {
      if version == None {
        if path in objects {
          return Some(PreconditionFailed);
        }
        objects := objects[path := MemObject(data, 1)];
        return None;
      }
      if path !in objects {
        return Some(PreconditionFailed);
      }
      var obj := objects[path];
      if version != Some(obj.version) {
        return Some(PreconditionFailed);
      }
      objects := objects[path := MemObject(data, obj.version + 1)];
      return None;
    }

    method Delete(path: Path)
      modifies this
      ensures objects == old(objects) - {path}
    {
      objects := objects - {path};
    }
  }

  // ---------- what a version promises ----------

  datatype Op =
    | DoPut(path: Path, data: Bytes)
    | DoPutIfMatch(path: Path, data: Bytes, version: Option<nat>)
    | DoDelete(path: Path)

  function Applied(objects: Objects, op: Op): Objects {
    match op
    case DoPut(p, d) => Written(objects, p, d)
    case DoPutIfMatch(p, d, v) => if Matches(objects, p, v) then Written(objects, p, d) else objects
    case DoDelete(p) => objects - {p}
  }

  function AllApplied(objects: Objects, ops: seq<Op>): Objects
    decreases |ops|
  {
    if ops == [] then objects else AllApplied(Applied(objects, ops[0]), ops[1..])
  }

  /** How many of `ops` write `path`. */
  function WritesTo(objects: Objects, path: Path, ops: seq<Op>): nat
    decreases |ops|
  {
    if ops == [] then 0
    else
      (match ops[0]
       case DoPut(p, _) => if p == path then 1 else 0
       case DoPutIfMatch(p, _, v) => if p == path && Matches(objects, p, v) then 1 else 0
       case DoDelete(_) => 0)
      + WritesTo(Applied(objects, ops[0]), path, ops[1..])
  }

  predicate NeverDeletes(ops: seq<Op>, path: Path) {
    forall i :: 0 <= i < |ops| ==> ops[i] != DoDelete(path)
  }

  lemma {:induction false} VersionCountsWrites(objects: Objects, path: Path, ops: seq<Op>)
    requires NeverDeletes(ops, path)
    ensures VersionOf(AllApplied(objects, ops), path) == VersionOf(objects, path) + WritesTo(objects, path, ops)
    ensures path in objects ==> path in AllApplied(objects, ops)
    ensures WritesTo(objects, path, ops) == 0 ==> DataAt(AllApplied(objects, ops), path) == DataAt(objects, path)
    ensures WritesTo(objects, path, ops) > 0 ==> path in AllApplied(objects, ops)
    decreases |ops|
  {
    if ops == [] {
    } else {
      VersionCountsWrites(Applied(objects, ops[0]), path, ops[1..]);
    }
  }

  /** No ABA: after any operations that never delete the object, the version a reader holds still
      matches exactly when nothing wrote the object in between, and then its bytes are still the ones read. */
  lemma VersionMatchesIffUntouched(objects: Objects, path: Path, ops: seq<Op>)
    requires NeverDeletes(ops, path)
    ensures var after := AllApplied(objects, ops);
            && (Matches(after, path, VersionRead(objects, path)) <==> WritesTo(objects, path, ops) == 0)
            && (Matches(after, path, VersionRead(objects, path)) ==> DataAt(after, path) == DataAt(objects, path))
  {
    VersionCountsWrites(objects, path, ops);
  }

  lemma {:induction false} AllAppliedSplit(objects: Objects, a: seq<Op>, b: seq<Op>)
    ensures AllApplied(objects, a + b) == AllApplied(AllApplied(objects, a), b)
    decreases |a|
  {
    hide Applied;
    if a == [] {
      assert a + b == b;
    } else {
      AllAppliedSplit(Applied(objects, a[0]), a[1..], b);
      assert (a + b)[1..] == a[1..] + b;
    }
  }

  /** The number behind a version; 0 for the absent object of create mode. */
  function Counted(version: Option<nat>): nat {
    if version.Some? then version.value else 0
  }

  /** With deletes there is ABA, and exactly this much of it: after any operations of which `ops[d]` is the
      last delete of the object, a version read before them matches exactly when as many writes took
      effect since that delete as the version counts. What is stored then is whatever those writes left. */
  lemma VersionMatchesAfterDelete(objects: Objects, path: Path, ops: seq<Op>, d: nat, version: Option<nat>)
    requires d < |ops| && ops[d] == DoDelete(path) && NeverDeletes(ops[d + 1..], path)
    requires version != Some(0)
    ensures Matches(AllApplied(objects, ops), path, version)
       <==> WritesTo(AllApplied(objects, ops[..d + 1]), path, ops[d + 1..]) == Counted(version)
  {
    hide AllApplied, WritesTo;
    var deleted := AllApplied(objects, ops[..d + 1]);
    AllAppliedSplit(objects, ops[..d + 1], ops[d + 1..]);
    assert ops[..d + 1] + ops[d + 1..] == ops;
    AbsentAfterDelete(objects, path, ops, d);
    VersionCountsWrites(deleted, path, ops[d + 1..]);
    AbsentUnlessWritten(deleted, path, ops[d + 1..]);
  }

  lemma AbsentAfterDelete(objects: Objects, path: Path, ops: seq<Op>, d: nat)
    requires d < |ops| && ops[d] == DoDelete(path)
    ensures path !in AllApplied(objects, ops[..d + 1])
  {
    AllAppliedSplit(objects, ops[..d], [ops[d]]);
    assert ops[..d] + [ops[d]] == ops[..d + 1];
    assert AllApplied(AllApplied(objects, ops[..d]), [ops[d]]) == Applied(AllApplied(objects, ops[..d]), ops[d]);
  }

  lemma AbsentUnlessWritten(objects: Objects, path: Path, ops: seq<Op>)
    requires NeverDeletes(ops, path) && path !in objects
    ensures path in AllApplied(objects, ops) <==> WritesTo(objects, path, ops) > 0
  {
    VersionCountsWrites(objects, path, ops);
  }

  /** Where `ops` delete the object for the last time. */
  function LastDelete(ops: seq<Op>, path: Path): (d: Option<nat>)
    ensures d.Some? ==> d.value < |ops| && ops[d.value] == DoDelete(path) && NeverDeletes(ops[d.value + 1..], path)
    ensures d == None ==> NeverDeletes(ops, path)
  {
    if ops == [] then None
    else if ops[|ops| - 1] == DoDelete(path) then Some(|ops| - 1)
    else
      var d := LastDelete(ops[..|ops| - 1], path);
      assert d.Some? ==> ops[d.value + 1..] == ops[..|ops| - 1][d.value + 1..] + [ops[|ops| - 1]];
      d
  }

  /** Both together: when a version read before any operations at all matches after them. */
  lemma VersionMatchesIff(objects: Objects, path: Path, ops: seq<Op>)
    requires path in objects ==> objects[path].version >= 1
    ensures Matches(AllApplied(objects, ops), path, VersionRead(objects, path))
       <==> match LastDelete(ops, path)
            case None => WritesTo(objects, path, ops) == 0
            case Some(d) =>
              WritesTo(AllApplied(objects, ops[..d + 1]), path, ops[d + 1..]) == Counted(VersionRead(objects, path))
  {
    hide AllApplied, WritesTo, LastDelete;
    match LastDelete(ops, path)
    case None => VersionMatchesIffUntouched(objects, path, ops);
    case Some(d) => VersionMatchesAfterDelete(objects, path, ops, d, VersionRead(objects, path));
  }

  /** An instance: a delete and a new write, and a reader's version 1 matches over different bytes. */
  lemma DeleteRestartsVersions(path: Path, a: Bytes, b: Bytes)
    requires a != b
    ensures var objects: Objects := map[path := MemObject(a, 1)];
            var after := AllApplied(objects, [DoDelete(path), DoPut(path, b)]);
            Matches(after, path, VersionRead(objects, path)) && DataAt(after, path) != DataAt(objects, path)
  {
    var objects: Objects := map[path := MemObject(a, 1)];
    assert AllApplied(objects, [DoDelete(path), DoPut(path, b)])
        == AllApplied(Applied(objects, DoDelete(path)), [DoPut(path, b)]);
  }
}
