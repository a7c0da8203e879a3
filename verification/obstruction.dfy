/**
 Files that share a path with a directory: what ReadFile and Commit
 (relay/internal/workspace/workspace.go) can then do, and that they can do it
 only then.
 */
module Obstruction {
  import opened Wire
  import opened Paths
  import opened Trees
  import opened Canonical
  import opened Flat
  import opened Repository

  // ----- which of two entries with one name wins -----

  ghost predicate IsLast(es: seq<Entry>, k: nat) {
    k < |es| && forall i :: k < i < |es| ==> es[i].name != es[k].name
  }

  lemma {:induction false} LastWins(es: seq<Entry>, k: nat)
    requires IsLast(es, k)
    ensures EntryNamed(es, es[k].name) == Some(es[k])
  {
    if k < |es| - 1 { LastWins(es[..|es| - 1], k); }
  }

  /** Some entry with the name of entry k is the last one. */
  lemma {:induction false} LastNamed(es: seq<Entry>, k: nat) returns (j: nat)
    requires k < |es|
    ensures k <= j && IsLast(es, j) && es[j].name == es[k].name
    decreases |es| - k
  {
    if i :| k < i < |es| && es[i].name == es[k].name {
      j := LastNamed(es, i);
    } else {
      j := k;
    }
  }

  /** Any entry of a tree can be the one its name finds. */
  lemma EntryCanWin(n: Node, t: Tree, k: nat) returns (u: Tree)
    requires Emits(n, t) && k < |t.entries|
    ensures Emits(n, u) && EntryNamed(u.entries, t.entries[k].name) == Some(t.entries[k])
  {
    var es := t.entries;
    var j := LastNamed(es, k);
    u := Tree(Swap(es, k, j));
    SwapEntries(n, t, k, j);
    SwapAt(es, k, j, j);
    forall i | j < i < |es| ensures u.entries[i].name != u.entries[j].name { SwapAt(es, k, j, i); }
    LastWins(u.entries, j);
  }

  lemma FileCanWin(n: Node, x: string) returns (t: Tree)
    requires x in n.files
    ensures Emits(n, t) && EntryNamed(t.entries, x) == Some(File(x, n.files[x]))
  {
    t := SomeTree(n);
    var k :| 0 <= k < |t.entries| && t.entries[k] == File(x, n.files[x]);
    t := EntryCanWin(n, t, k);
  }

  /** A directory can win with any tree of its own. */
  lemma DirCanWin(n: Node, d: string, sub: Tree) returns (t: Tree)
    requires d in n.subdirs && Emits(n.subdirs[d], sub)
    ensures Emits(n, t) && EntryNamed(t.entries, d) == Some(Dir(d, sub))
  {
    t := SomeTree(n);
    assert HasDir(t.entries, d);
    var e :| e in t.entries && e.Dir? && e.name == d;
    var k :| 0 <= k < |t.entries| && t.entries[k] == e;
    ReplaceEntry(n, t, k, Dir(d, sub));
    t := EntryCanWin(n, Tree(t.entries[k := Dir(d, sub)]), k);
  }

  // ----- found in one tree, missed in another -----

  /** Where a name on the way is both file and directory, one tree hides what is there. */
  lemma {:induction false} CanMiss(n: Node, path: Path) returns (t: Tree)
    requires path != [] && !ClearFor(n, path)
    ensures Emits(n, t) && Lookup(t, path) == None
    decreases n
  {
    var x := path[0];
    if x in n.files && |path| > 1 && x in n.subdirs {
      t := FileCanWin(n, x);
    } else if x in n.files {
      var sub := SomeTree(n.subdirs[x]);
      t := DirCanWin(n, x, sub);
    } else {
      var sub := CanMiss(n.subdirs[x], path[1..]);
      t := DirCanWin(n, x, sub);
    }
  }

  /** Every file of a trie is found in one of its trees. */
  lemma {:induction false} CanFind(n: Node, path: Path) returns (t: Tree)
    requires path != [] && Find(n, path).Some?
    ensures Emits(n, t) && Lookup(t, path) == Find(n, path)
    decreases n
  {
    var x := path[0];
    if |path| == 1 {
      t := FileCanWin(n, x);
    } else {
      if x !in n.subdirs { FindInEmpty(path[1..]); }
      var sub := CanFind(n.subdirs[x], path[1..]);
      t := DirCanWin(n, x, sub);
    }
  }

  /** A stored path below another stored path: neither has a clear way. */
  lemma {:induction false} PrefixInTheWay(n: Node, p: Path, q: Path)
    requires p != [] && p < q && Find(n, p).Some? && Find(n, q).Some?
    ensures !ClearFor(n, p) && !ClearFor(n, q)
    decreases |p|
  {
    if p[0] !in n.subdirs {
      FindInEmpty(q[1..]);
    } else if |p| > 1 {
      PrefixInTheWay(n.subdirs[p[0]], p[1..], q[1..]);
    }
  }

  lemma ObstructedHasClash(n: Node, m: Files, path: string)
    requires Represents(n, m) && path in m && !Unobstructed(m, path)
    ensures !ClearFor(n, Split(path))
  {
    var b :| b in m && (b + "/" <= path || path + "/" <= b);
    JoinOfSplit(path);
    JoinOfSplit(b);
    assert Find(n, Split(path)) == At(m, Split(path)) && Find(n, Split(b)) == At(m, Split(b));
    DirectoryIsPrefix(b, path);
    DirectoryIsPrefix(path, b);
    if b + "/" <= path { PrefixInTheWay(n, Split(b), Split(path)); } else { PrefixInTheWay(n, Split(path), Split(b)); }
  }

  /** A stored file is found in every tree the relay may write for the map if and only if no other
      path obstructs it; in some tree it is always found. */
  lemma FoundInEveryTreeIff(m: Files, path: string)
    requires path in m
    ensures (forall t :: TreeFor(t, m) ==> Lookup(t, Split(path)) == Some(m[path])) <==> Unobstructed(m, path)
    ensures exists t :: TreeFor(t, m) && Lookup(t, Split(path)) == Some(m[path])
  {
    var n := SomeTrie(m);
    JoinOfSplit(path);
    assert Find(n, Split(path)) == At(m, Split(path));
    var hit := CanFind(n, Split(path));
    assert TreeFor(hit, m);
    if Unobstructed(m, path) {
      forall t | TreeFor(t, m) ensures Lookup(t, Split(path)) == Some(m[path]) { LookupAgrees(t, m, path); }
    } else {
      ObstructedHasClash(n, m, path);
      var miss := CanMiss(n, Split(path));
      assert TreeFor(miss, m);
    }
  }

  // ----- the same over a call of Commit -----

  /** The call reaches the point where a tree is written. */
  ghost predicate Writes(before: Option<CommitObject>, call: Call) {
    call.ops != [] && call.stored && ApplyOps(FilesAt(before), call.ops).Some?
  }

  function NewFiles(before: Option<CommitObject>, call: Call): Files
    requires Writes(before, call)
  {
    ApplyOps(FilesAt(before), call.ops).value
  }

  /** Any tree for the new files may be the head's afterwards. */
  lemma AnyTreeCanBeHead(before: Option<CommitObject>, call: Call, t: Tree) returns (after: Option<CommitObject>)
    requires Writes(before, call) && TreeFor(t, NewFiles(before, call))
    ensures CommitStep(before, call, after) && after.Some? && after.value.tree == t
  {
    after := if before.Some? && before.value.tree == t then before
             else Some(CommitObject(t, before, "", "", "", call.time));
  }

  /** After a call of Commit, ReadFile is certain to give a stored file if and only if no other path
      obstructs it. */
  lemma ReadIsCertainIff(before: Option<CommitObject>, call: Call, path: string)
    requires Writes(before, call) && Normalize(path).Some? && Normalize(path).value in NewFiles(before, call)
    ensures var files, clean := NewFiles(before, call), Normalize(path).value;
            (forall after :: CommitStep(before, call, after) ==> Read(after, path) == Content(files[clean]))
            <==> Unobstructed(files, clean)
  {
    var files, clean := NewFiles(before, call), Normalize(path).value;
    FoundInEveryTreeIff(files, clean);
    if !Unobstructed(files, clean) {
      var t :| TreeFor(t, files) && Lookup(t, Split(clean)) != Some(files[clean]);
      var after := AnyTreeCanBeHead(before, call, t);
    }
  }

  /** Without conflicts one tree, with conflicts two. */
  lemma TwoTreesIff(m: Files)
    ensures (forall t, u :: TreeFor(t, m) && TreeFor(u, m) ==> t == u) <==> NoConflicts(m)
  {
    if NoConflicts(m) {
      forall t, u | TreeFor(t, m) && TreeFor(u, m) ensures t == u { TreeIdentifiesFiles(t, u, m, m); }
    } else {
      var n := SomeTrie(m);
      NoConflictsIsPrefixFree(n, m);
      ConflictFreeIsPrefixFree(n);
      var t, u := ConflictLeavesTwoTrees(n);
      assert TreeFor(t, m) && TreeFor(u, m);
    }
  }

  lemma AnyTree(m: Files) returns (t: Tree)
    ensures TreeFor(t, m)
  {
    var n := SomeTrie(m);
    t := SomeTree(n);
  }

  /** A call of Commit is certain to return the old head if and only if its operations change no file
      and no path of the file set is a directory of another. */
  lemma HeadIsKeptIff(before: Option<CommitObject>, call: Call)
    requires GoodHistory(before) && before.Some? && Writes(before, call)
    ensures (forall after :: CommitStep(before, call, after) ==> after == before)
            <==> NewFiles(before, call) == FilesAt(before) && NoConflicts(FilesAt(before))
  {
    var files := NewFiles(before, call);
    if files != FilesAt(before) {
      var t := AnyTree(files);
      var after := AnyTreeCanBeHead(before, call, t);
      NoOpIffSameFiles(before, call, after);
    } else {
      TwoTreesIff(files);
      if !NoConflicts(files) {
        var t, u :| TreeFor(t, files) && TreeFor(u, files) && t != u;
        var after := AnyTreeCanBeHead(before, call, if t == before.value.tree then u else t);
      } else {
        forall after | CommitStep(before, call, after) ensures after == before { NoOpIffSameFiles(before, call, after); }
      }
    }
  }

  // ----- a repository in which both happen -----

  const CLASHING: Files := map["a" := "x", "a/b" := "y"]

  /** Writes a file and one below it; then writes the first one again, unchanged. */
  const CLASH_THEN_REPEAT: seq<Call> := [
    Call([WriteOp("a", "x", false), WriteOp("a/b", "y", false)], "", "", "", 1, true),
    Call([WriteOp("a", "x", false)], "", "", "", 2, true)]

  lemma ClashingPaths()
    ensures Normalize("a") == Some("a") && Normalize("a/b") == Some("a/b")
  {
    SplitPlain("a");
    SplitPlain("b");
    SplitConcat("a", "b");
    assert "a" + "/" + "b" == "a/b";
    ProperIsFixed("a");
    ProperIsFixed("a/b");
  }

  lemma OneMoreWrite(files: Files, ops: seq<WriteOp>, path: string, content: string)
    requires ApplyOps(files, ops).Some? && Normalize(path) == Some(path)
    ensures ApplyOps(files, ops + [WriteOp(path, content, false)]) == Some(ApplyOps(files, ops).value[path := content])
  {
    assert (ops + [WriteOp(path, content, false)])[..|ops|] == ops;
  }

  lemma FirstCall()
    ensures ApplyOps(map[], CLASH_THEN_REPEAT[0].ops) == Some(CLASHING)
  {
    ClashingPaths();
    var a := WriteOp("a", "x", false);
    OneMoreWrite(map[], [], "a", "x");
    OneMoreWrite(map[], [] + [a], "a/b", "y");
    assert [] + [a] + [WriteOp("a/b", "y", false)] == CLASH_THEN_REPEAT[0].ops;
  }

  lemma SecondCall()
    ensures ApplyOps(CLASHING, CLASH_THEN_REPEAT[1].ops) == Some(CLASHING)
  {
    ClashingPaths();
    OneMoreWrite(CLASHING, [], "a", "x");
    assert [] + [WriteOp("a", "x", false)] == CLASH_THEN_REPEAT[1].ops;
    assert CLASHING["a" := "x"] == CLASHING;
  }

  lemma ClashingTrees() returns (hit: Tree, miss: Tree)
    ensures TreeFor(hit, CLASHING) && FilesOf(hit) == CLASHING && Lookup(hit, Split("a")) == Some("x")
    ensures TreeFor(miss, CLASHING) && FilesOf(miss) == CLASHING && Lookup(miss, Split("a")) == None
  {
    FoundInEveryTreeIff(CLASHING, "a");
    assert "a/b" in CLASHING && "a" + "/" <= "a/b";
    hit :| TreeFor(hit, CLASHING) && Lookup(hit, Split("a")) == Some("x");
    miss :| TreeFor(miss, CLASHING) && Lookup(miss, Split("a")) != Some("x");
    LookupAgrees(miss, CLASHING, "a");
    SnapshotReadsBack(hit, CLASHING);
    SnapshotReadsBack(miss, CLASHING);
  }

  /** The second call changes no file, yet moves the head, and the file it wrote can no longer be read. */
  lemma RepeatLosesFile() returns (heads: seq<Option<CommitObject>>)
    ensures CommitRun(heads, CLASH_THEN_REPEAT)
    ensures heads[2] != heads[1] && FilesAt(heads[2]) == FilesAt(heads[1]) == CLASHING
    ensures Read(heads[1], "a") == Content("x") && Read(heads[2], "a") == NotFound
  {
    ClashingPaths();
    FirstCall();
    SecondCall();
    var hit, miss := ClashingTrees();
    var first := AnyTreeCanBeHead(None, CLASH_THEN_REPEAT[0], hit);
    var second := AnyTreeCanBeHead(first, CLASH_THEN_REPEAT[1], miss);
    heads := [None, first, second];
  }
}
