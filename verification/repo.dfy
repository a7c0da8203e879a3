/**
 One box's repository (relay/internal/workspace/workspace.go): Commit, Snapshot,
 ReadFile, ListFiles and Log over a chain of commits, and what a whole run of
 commits amounts to.  Commit hashes are injective, so a commit stands for its hash.
 */
module Repository {
  import opened Wire
  import opened Order
  import opened Paths
  import opened Trees
  import opened Canonical
  import opened Flat
  import Trie

  datatype CommitObject = CommitObject(tree: Tree, parent: Option<CommitObject>, message: string, author: string, email: string, time: int)

  datatype WriteOp = WriteOp(path: string, content: string, delete: bool)

  /** One call of Commit; `stored` says whether the object store accepted everything. */
  datatype Call = Call(ops: seq<WriteOp>, message: string, author: string, email: string, time: int, stored: bool)

  function ApplyOp(files: Files, op: WriteOp): Option<Files> {
    match Normalize(op.path)
    case None => None
    case Some(clean) => Some(if op.delete then files - {clean} else files[clean := op.content])
  }

  /** The operations of one call in order; one illegal path fails them all. */
  function ApplyOps(files: Files, ops: seq<WriteOp>): Option<Files> {
    if ops == [] then Some(files)
    else
      match ApplyOps(files, ops[..|ops| - 1])
      case None => None
      case Some(f) => ApplyOp(f, ops[|ops| - 1])
  }

  /** No operation is on this path. */
  ghost predicate Untouched(ops: seq<WriteOp>, p: string) { forall i :: 0 <= i < |ops| ==> Normalize(ops[i].path) != Some(p) }

  lemma OneMoreOp(files: Files, ops: seq<WriteOp>, op: WriteOp)
    ensures ApplyOps(files, ops + [op]) ==
            if ApplyOps(files, ops).None? then None else ApplyOp(ApplyOps(files, ops).value, op)
  {
    assert (ops + [op])[..|ops|] == ops;
  }

  /** A call fails exactly if one of its paths has no normal form. */
  lemma {:induction false} FailsIffIllegal(files: Files, ops: seq<WriteOp>)
    ensures ApplyOps(files, ops).None? <==> exists i :: 0 <= i < |ops| && Normalize(ops[i].path).None?
  {
    if ops != [] {
      FailsIffIllegal(files, ops[..|ops| - 1]);
      assert forall i :: 0 <= i < |ops| - 1 ==> ops[..|ops| - 1][i] == ops[i];
    }
  }

  /** Two file sets agree about one path. */
  predicate SameAt(m: Files, k: Files, p: string) { (p in m <==> p in k) && (p in m && p in k ==> m[p] == k[p]) }

  lemma OneLeavesIt(files: Files, op: WriteOp, p: string)
    requires Normalize(op.path) != Some(p) && ApplyOp(files, op).Some?
    ensures SameAt(ApplyOp(files, op).value, files, p)
  {}

  lemma OneMoreLeavesIt(files: Files, ops: seq<WriteOp>, op: WriteOp, p: string)
    requires Normalize(op.path) != Some(p) && ApplyOps(files, ops + [op]).Some?
    ensures ApplyOps(files, ops).Some? && SameAt(ApplyOps(files, ops + [op]).value, ApplyOps(files, ops).value, p)
  {
    OneMoreOp(files, ops, op);
    OneLeavesIt(ApplyOps(files, ops).value, op, p);
  }

  lemma InitUntouched(ops: seq<WriteOp>, op: WriteOp, p: string)
    requires Untouched(ops + [op], p)
    ensures Untouched(ops, p) && Normalize(op.path) != Some(p)
  {
    assert (ops + [op])[|ops|] == op;
    forall i | 0 <= i < |ops| ensures Normalize(ops[i].path) != Some(p) { assert (ops + [op])[i] == ops[i]; }
  }

  /** The operations b, after a, make no difference to the path. */
  ghost predicate LeaveIt(files: Files, a: seq<WriteOp>, b: seq<WriteOp>, p: string) {
    ApplyOps(files, a + b).Some? ==>
      ApplyOps(files, a).Some? && SameAt(ApplyOps(files, a + b).value, ApplyOps(files, a).value, p)
  }

  lemma LeaveItStill(files: Files, a: seq<WriteOp>, b: seq<WriteOp>, op: WriteOp, p: string)
    requires LeaveIt(files, a, b, p) && Normalize(op.path) != Some(p)
    ensures LeaveIt(files, a, b + [op], p)
  {
    assert a + (b + [op]) == a + b + [op];
    if ApplyOps(files, a + b + [op]).Some? { OneMoreLeavesIt(files, a + b, op, p); }
  }

  lemma {:induction false} OthersLeaveIt(files: Files, a: seq<WriteOp>, b: seq<WriteOp>, p: string)
    requires Untouched(b, p)
    ensures LeaveIt(files, a, b, p)
  {
    if b == [] {
      assert a + b == a;
    } else {
      var init, op := b[..|b| - 1], b[|b| - 1];
      assert b == init + [op];
      InitUntouched(init, op, p);
      OthersLeaveIt(files, a, init, p);
      LeaveItStill(files, a, init, op, p);
    }
  }

  /** The last operation on a path decides about it, by whatever spelling it names the path; what no
      operation names stays. */
  lemma LastOpWins(files: Files, a: seq<WriteOp>, op: WriteOp, b: seq<WriteOp>, p: string)
    requires ApplyOps(files, a + [op] + b).Some? && Untouched(b, p)
    ensures var after := ApplyOps(files, a + [op] + b).value;
            && (Normalize(op.path) == Some(p) && op.delete ==> p !in after)
            && (Normalize(op.path) == Some(p) && !op.delete ==> p in after && after[p] == op.content)
            && (Normalize(op.path) != Some(p) && Untouched(a, p) ==> SameAt(after, files, p))
  {
    OthersLeaveIt(files, a + [op], b, p);
    OneMoreOp(files, a, op);
    if Untouched(a, p) {
      assert [] + a == a && ApplyOps(files, []) == Some(files);
      OthersLeaveIt(files, [], a, p);
    }
  }

  function FilesAt(head: Option<CommitObject>): Files {
    if head.None? then map[] else FilesOf(head.value.tree)
  }

  /** Every commit's tree was written for some file set, and no commit repeats its parent's tree. */
  ghost predicate GoodHistory(head: Option<CommitObject>)
    decreases head
  {
    head.Some? ==>
      && TreeFor(head.value.tree, FilesOf(head.value.tree))
      && GoodHistory(head.value.parent)
      && (head.value.parent.Some? ==> head.value.parent.value.tree != head.value.tree)
  }

  /** What one call does to the branch: nothing if it fails; otherwise the head's files become
      the old files with the operations applied, by a new commit or, if the tree is the
      parent's, by none. */
  ghost predicate CommitStep(before: Option<CommitObject>, call: Call, after: Option<CommitObject>) {
    var files := ApplyOps(FilesAt(before), call.ops);
    if call.ops == [] || !call.stored || files.None? then after == before
    else
      && after.Some? && TreeFor(after.value.tree, files.value)
      && if before.Some? && before.value.tree == after.value.tree then after == before
         else after.value.parent == before && after.value.time == call.time
  }

  /** The call returns the old head exactly when the operations leave the files as they were,
      provided the new file set has no path that is also a directory. */
  lemma NoOpIffSameFiles(before: Option<CommitObject>, call: Call, after: Option<CommitObject>)
    requires GoodHistory(before) && before.Some? && CommitStep(before, call, after)
    requires call.ops != [] && call.stored && ApplyOps(FilesAt(before), call.ops).Some?
    ensures after == before ==> ApplyOps(FilesAt(before), call.ops).value == FilesAt(before)
    ensures NoConflicts(ApplyOps(FilesAt(before), call.ops).value) ==>
              (after == before <==> ApplyOps(FilesAt(before), call.ops).value == FilesAt(before))
  {
    TreeIdentifiesFiles(after.value.tree, before.value.tree,
                        ApplyOps(FilesAt(before), call.ops).value, FilesAt(before));
  }

  lemma StepKeepsHistory(before: Option<CommitObject>, call: Call, after: Option<CommitObject>)
    requires GoodHistory(before) && CommitStep(before, call, after)
    ensures GoodHistory(after)
    ensures FilesAt(after) == Intended(FilesAt(before), call)
  {
    var files := ApplyOps(FilesAt(before), call.ops);
    if call.ops != [] && call.stored && files.Some? {
      SnapshotReadsBack(after.value.tree, files.value);
    }
  }

  /** The reference: a plain map on which each call either applies all its operations or none. */
  function Intended(files: Files, call: Call): Files {
    if call.ops == [] || !call.stored then files
    else match ApplyOps(files, call.ops) case None => files case Some(f) => f
  }

  function IntendedAfter(calls: seq<Call>): Files {
    if calls == [] then map[]
    else Intended(IntendedAfter(calls[..|calls| - 1]), calls[|calls| - 1])
  }

  /** A run of calls on a new repository, given by the heads it goes through. */
  ghost predicate CommitRun(heads: seq<Option<CommitObject>>, calls: seq<Call>) {
    && |heads| == |calls| + 1 && heads[0] == None
    && forall i :: 0 <= i < |calls| ==> CommitStep(heads[i], calls[i], heads[i + 1])
  }

  /** The repository refines the plain map: after any run, failed calls included, the snapshot
      is the map the calls intend, and adjacent commits on the branch have different trees. */
  lemma {:induction false} RunRefinesMap(heads: seq<Option<CommitObject>>, calls: seq<Call>)
    requires CommitRun(heads, calls)
    ensures FilesAt(heads[|calls|]) == IntendedAfter(calls) && GoodHistory(heads[|calls|])
  {
    if calls != [] {
      var n := |calls| - 1;
      RunRefinesMap(heads[..n + 1], calls[..n]);
      StepKeepsHistory(heads[n], calls[n], heads[n + 1]);
    }
  }

  /** Paths the workspace holds are proper, so every snapshot passes the builder's path guard. */
  lemma {:induction false} IntendedPathsAreProper(calls: seq<Call>, path: string)
    requires path in IntendedAfter(calls)
    ensures ProperPath(path)
  {
    if calls != [] {
      var init, call := calls[..|calls| - 1], calls[|calls| - 1];
      OpsKeepPathsProper(IntendedAfter(init), call.ops);
      if path in IntendedAfter(init) { IntendedPathsAreProper(init, path); }
    }
  }

  lemma {:induction false} OpsKeepPathsProper(files: Files, ops: seq<WriteOp>)
    ensures ApplyOps(files, ops).Some? ==>
              forall p :: p in ApplyOps(files, ops).value ==> p in files || ProperPath(p)
  {
    if ops != [] {
      OpsKeepPathsProper(files, ops[..|ops| - 1]);
      var op := ops[|ops| - 1];
      if Normalize(op.path).Some? { NormalizeYieldsProper(op.path); }
    }
  }

  lemma SnapshotPathsPassTheGuard(heads: seq<Option<CommitObject>>, calls: seq<Call>, path: string)
    requires CommitRun(heads, calls) && path in FilesAt(heads[|calls|])
    ensures Normalize(path) == Some(path)
    ensures path != "" && !Rooted(path) && Lowest(Split(path)) == 0 && Level(Split(path)) > 0
  {
    RunRefinesMap(heads, calls);
    IntendedPathsAreProper(calls, path);
    ProperIsFixed(path);
    ProperPathsPassTheGuard(path);
  }

  datatype ReadResult = Content(body: string) | BadPath | NoCommits | NotFound

  /** What reading one path at a head gives. */
  function Read(head: Option<CommitObject>, path: string): ReadResult {
    match Normalize(path)
    case None => BadPath
    case Some(clean) =>
      if head.None? then NoCommits
      else match Lookup(head.value.tree, Split(clean)) case None => NotFound case Some(body) => Content(body)
  }

  class Repo {
    var head: Option<CommitObject>

    ghost predicate Valid() reads this { GoodHistory(head) }

    constructor ()
      ensures Valid() && head == None
    { head := None; }

    // Files().ForEach over the head's tree, collected into a map.
    method Snapshot() returns (out: Files)
      ensures out == FilesAt(head)
    {
      out := map[];
      if head.Some? {
        var found := Walk(head.value.tree.entries);
        for i := 0 to |found|
          invariant out == Gather(Named(found)[..i])
        {
          assert Named(found)[..i + 1][..i] == Named(found)[..i];
          out := out[Join(found[i].0) := found[i].1];
        }
        assert Named(found)[..|found|] == Named(found);
      }
    }

    // The operations in order on the path map; the first illegal path ends the call.
    method Edit(files: Files, ops: seq<WriteOp>) returns (r: Option<Files>)
      ensures r == ApplyOps(files, ops)
    {
      var paths := files;
      for i := 0 to |ops|
        invariant ApplyOps(files, ops[..i]) == Some(paths)
      {
        var op := ops[i];
        assert ops[..i + 1][..i] == ops[..i];
        var clean := Normalize(op.path);
        if clean.None? {
          OpsFailEarly(files, ops, i + 1);
          return None;
        }
        if op.delete {
          paths := paths - {clean.value};
        } else {
          paths := paths[clean.value := op.content];
        }
      }
      assert ops[..|ops|] == ops;
      r := Some(paths);
    }

    method Commit(call: Call) returns (r: Option<CommitObject>)
      requires Valid()
      modifies this
      ensures Valid() && CommitStep(old(head), call, head)
      ensures r == None <==> call.ops == [] || !call.stored || ApplyOps(FilesAt(old(head)), call.ops).None?
      ensures r.Some? ==> head == r
      ensures r.Some? && head != old(head) ==>
                && r.value.message == (if call.message == "" then "ai: update" else call.message)
                && r.value.author == (if call.author == "" then "appunvs" else call.author)
                && r.value.email == (if call.email == "" then "agent@appunvs" else call.email)
    {
      if call.ops == [] { return None; }
      var message := if call.message == "" then "ai: update" else call.message;
      var author := if call.author == "" then "appunvs" else call.author;
      var email := if call.email == "" then "agent@appunvs" else call.email;

      var paths := Snapshot();
      var edited := Edit(paths, call.ops);
      if edited.None? { return None; }
      var root := Trie.WriteTree(edited.value);
      if !call.stored { return None; }

      ghost var before := head;
      if head.Some? && head.value.tree == root {
        StepKeepsHistory(before, call, head);
        return head;
      }
      head := Some(CommitObject(root, head, message, author, email, call.time));
      StepKeepsHistory(before, call, head);
      r := head;
    }

    method ReadFile(path: string) returns (r: ReadResult)
      requires Valid()
      ensures r == Read(head, path)
      ensures r.BadPath? <==> Normalize(path).None?
      ensures Normalize(path).Some? && head.None? ==> r == NoCommits
      ensures Normalize(path).Some? && head.Some? ==>
                (r == NotFound || (Normalize(path).value in FilesAt(head) && r == Content(FilesAt(head)[Normalize(path).value])))
      ensures Normalize(path).Some? && head.Some? && Unobstructed(FilesAt(head), Normalize(path).value) ==>
                (r == NotFound <==> Normalize(path).value !in FilesAt(head))
    {
      var clean := Normalize(path);
      if clean.None? { return BadPath; }
      if head.None? { return NoCommits; }
      var found := Lookup(head.value.tree, Split(clean.value));
      LookupAgrees(head.value.tree, FilesAt(head), clean.value);
      r := if found.Some? then Content(found.value) else NotFound;
    }

    // Every tracked path, sorted.
    method ListFiles() returns (out: seq<string>)
      requires Valid()
      ensures Ascending(out) && forall p :: p in out <==> p in FilesAt(head)
    {
      var names: seq<string> := [];
      if head.Some? {
        var found := Walk(head.value.tree.entries);
        for i := 0 to |found|
          invariant |names| == i && forall k :: 0 <= k < i ==> names[k] == Named(found)[k].0
        {
          names := names + [Join(found[i].0)];
        }
        NamesAreTheKeys(head.value.tree, names);
      }
      out := SortStrings(names);
    }

    // HEAD first, at most `limit` of them, 50 when no positive limit is given.
    method Log(limit: int) returns (out: seq<CommitObject>)
      ensures |out| <= (if limit <= 0 then 50 else limit) && (out == [] <==> head == None)
      ensures out != [] ==> Some(out[0]) == head
      ensures forall i :: 0 <= i < |out| - 1 ==> out[i].parent == Some(out[i + 1])
      ensures 0 < |out| < (if limit <= 0 then 50 else limit) ==> out[|out| - 1].parent == None
    {
      var cap := if limit <= 0 then 50 else limit;
      out := [];
      var at := head;
      while at.Some? && |out| < cap
        invariant |out| <= cap && (out == [] ==> at == head)
        invariant out != [] ==> Some(out[0]) == head && out[|out| - 1].parent == at
        invariant forall i :: 0 <= i < |out| - 1 ==> out[i].parent == Some(out[i + 1])
        decreases at
      {
        out := out + [at.value];
        at := at.value.parent;
      }
    }
  }

  lemma {:induction false} OpsFailEarly(files: Files, ops: seq<WriteOp>, n: nat)
    requires n <= |ops| && ApplyOps(files, ops[..n]).None?
    ensures ApplyOps(files, ops).None?
    decreases |ops| - n
  {
    if n < |ops| {
      assert ops[..n + 1][..n] == ops[..n];
      OpsFailEarly(files, ops, n + 1);
    } else {
      assert ops[..n] == ops;
    }
  }

  method SortStrings(names: seq<string>) returns (out: seq<string>)
    requires forall i, j :: 0 <= i < j < |names| ==> names[i] != names[j]
    ensures Ascending(out) && forall p :: p in out <==> p in names
  {
    var self := (s: string) => s;
    out := SortBy(names, self);
    SortBySorts(names, self);
    RearrangedIsDistinct(names, out);
    forall i, j | 0 <= i < j < |out| ensures AtMost(out[i], out[j]) { assert AtMost(self(out[i]), self(out[j])); }
    SortedAndDistinctIsAscending(out);
    assert forall p :: p in out <==> p in multiset(out);
    assert forall p :: p in names <==> p in multiset(names);
  }

  lemma NamesAreTheKeys(t: Tree, names: seq<string>)
    requires TreeFor(t, FilesOf(t)) && |names| == |Walk(t.entries)|
    requires forall k :: 0 <= k < |names| ==> names[k] == Named(Walk(t.entries))[k].0
    ensures forall i, j :: 0 <= i < j < |names| ==> names[i] != names[j]
    ensures forall p :: p in names <==> p in FilesOf(t)
  {
    var m := FilesOf(t);
    var n :| Represents(n, m) && Emits(n, t);
    var found := Walk(t.entries);
    WalkIsDistinct(n, t);
    forall i | 0 <= i < |found| ensures found[i].0 != [] && Split(names[i]) == found[i].0 && names[i] in m {
      assert (found[i].0, found[i].1) in found;
      WalkFinds(n, t, found[i].0, found[i].1);
    }
    forall p | p in m ensures p in names {
      JoinOfSplit(p);
      WalkFinds(n, t, Split(p), m[p]);
      var i :| 0 <= i < |found| && found[i] == (Split(p), m[p]);
      assert names[i] == p;
    }
  }
}
