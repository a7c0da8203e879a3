/**
 Flat maps from slash-separated paths to contents, and the trees that represent them.
 */
module Flat {
  import opened Wire
  import opened Paths
  import opened Trees
  import opened Canonical

  type Files = map<string, string>

  /** The content of a flat map at a list of components. */
  function At(m: Files, p: Path): Option<string> {
    if Split(Join(p)) == p && Join(p) in m then Some(m[Join(p)]) else None
  }

  ghost predicate Represents(n: Node, m: Files) {
    Populated(n) && forall p :: p != [] ==> Find(n, p) == At(m, p)
  }

  /** t is a tree the relay may write for the flat map m. */
  ghost predicate TreeFor(t: Tree, m: Files) {
    exists n :: Represents(n, m) && Emits(n, t)
  }

  function Named(found: seq<(Path, string)>): (r: seq<(string, string)>)
    ensures |r| == |found| && forall i :: 0 <= i < |r| ==> r[i] == (Join(found[i].0), found[i].1)
  {
    seq(|found|, i requires 0 <= i < |found| => (Join(found[i].0), found[i].1))
  }

  /** What Snapshot collects from a tree. */
  function FilesOf(t: Tree): Files { Gather(Named(Walk(t.entries))) }

  /** No path of the map is a directory of another. */
  ghost predicate NoConflicts(m: Files) {
    forall a, b :: a in m && b in m ==> !(a + "/" <= b)
  }

  /** Whatever the walk names is a file of the map, under its own path. */
  lemma NamedIsFile(n: Node, t: Tree, m: Files, i: nat)
    requires Represents(n, m) && Emits(n, t) && i < |Walk(t.entries)|
    ensures var found := Walk(t.entries);
            Split(Join(found[i].0)) == found[i].0 && Join(found[i].0) in m && m[Join(found[i].0)] == found[i].1
  {
    var found := Walk(t.entries);
    assert (found[i].0, found[i].1) in found;
    WalkFinds(n, t, found[i].0, found[i].1);
    assert At(m, found[i].0) == Some(found[i].1);
  }

  lemma FileIsNamed(n: Node, t: Tree, m: Files, k: string)
    requires Represents(n, m) && Emits(n, t) && k in m
    ensures (k, m[k]) in Named(Walk(t.entries))
  {
    JoinOfSplit(k);
    assert At(m, Split(k)) == Some(m[k]);
    WalkFinds(n, t, Split(k), m[k]);
    var found := Walk(t.entries);
    var i :| 0 <= i < |found| && found[i] == (Split(k), m[k]);
    assert Named(found)[i] == (k, m[k]);
  }

  /** The walk names no file twice, so the snapshot holds each name with its content. */
  lemma GatheredAsNamed(n: Node, t: Tree, m: Files)
    requires Represents(n, m) && Emits(n, t)
    ensures forall k, blob :: k in FilesOf(t) && FilesOf(t)[k] == blob <==> (k, blob) in Named(Walk(t.entries))
  {
    var found := Walk(t.entries);
    var named := Named(found);
    WalkIsDistinct(n, t);
    forall i, j | 0 <= i < j < |named| ensures named[i].0 != named[j].0 {
      NamedIsFile(n, t, m, i);
      NamedIsFile(n, t, m, j);
    }
    GatherDistinct(named);
  }

  /** Round trip: reading back the tree written for a flat map gives that map, conflicts or not. */
  lemma SnapshotReadsBack(t: Tree, m: Files)
    requires TreeFor(t, m)
    ensures FilesOf(t) == m
  {
    var n :| Represents(n, m) && Emits(n, t);
    var named := Named(Walk(t.entries));
    GatheredAsNamed(n, t, m);
    forall k ensures k in FilesOf(t) <==> k in m
             ensures k in FilesOf(t) && k in m ==> FilesOf(t)[k] == m[k]
    {
      if k in FilesOf(t) {
        assert (k, FilesOf(t)[k]) in named;
        var i :| 0 <= i < |named| && named[i] == (k, FilesOf(t)[k]);
        NamedIsFile(n, t, m, i);
      }
      if k in m { FileIsNamed(n, t, m, k); }
    }
  }

  /** One map, one trie. */
  lemma RepresentativeIsUnique(a: Node, b: Node, m: Files)
    requires Represents(a, m) && Represents(b, m)
    ensures a == b
  {
    SameFindSameTrie(a, b);
  }

  lemma {:induction false} JoinConcat(p: Path, q: Path)
    requires p != [] && q != []
    ensures Join(p + q) == Join(p) + "/" + Join(q)
  {
    if |p| == 1 {
      assert (p + q)[1..] == q;
    } else {
      assert (p + q)[1..] == p[1..] + q;
      JoinConcat(p[1..], q);
    }
  }

  lemma SplitAfter(a: string, s: string)
    ensures Split(a + "/" + s) == Split(a) + Split(s)
  {
    JoinOfSplit(a);
    JoinOfSplit(s);
    var r := Split(a) + Split(s);
    JoinConcat(Split(a), Split(s));
    SplitOfJoin(r);
  }

  /** A path is a directory of another exactly when its components are a proper prefix. */
  lemma DirectoryIsPrefix(a: string, b: string)
    ensures a + "/" <= b <==> Split(a) < Split(b)
  {
    if a + "/" <= b {
      var s := b[|a| + 1..];
      assert b == a + "/" + s;
      SplitAfter(a, s);
    }
    if Split(a) < Split(b) { PrefixIsDirectory(a, b); }
  }

  lemma PrefixIsDirectory(a: string, b: string)
    requires Split(a) < Split(b)
    ensures a + "/" <= b
  {
    var p, rest := Split(a), Split(b)[|Split(a)|..];
    JoinOfSplit(a);
    JoinOfSplit(b);
    assert Split(b) == p + rest;
    JoinConcat(p, rest);
    assert b == a + "/" + Join(rest);
  }

  lemma NoConflictsIsPrefixFree(n: Node, m: Files)
    requires Represents(n, m)
    ensures NoConflicts(m) <==> PrefixFree(n)
  {
    if PrefixFree(n) {
      forall a, b | a in m && b in m ensures !(a + "/" <= b) {
        DirectoryIsPrefix(a, b);
        JoinOfSplit(a);
        JoinOfSplit(b);
        assert Find(n, Split(a)).Some? && Find(n, Split(b)).Some?;
      }
    }
    if NoConflicts(m) {
      forall p, q | p != [] && q != [] && Find(n, p).Some? && Find(n, q).Some? ensures !(p < q) {
        DirectoryIsPrefix(Join(p), Join(q));
      }
    }
  }

  /** Canonical form at the level of files: without conflicts, two flat maps have the same tree if and only if they are equal. */
  lemma TreeIdentifiesFiles(t: Tree, u: Tree, m: Files, k: Files)
    requires TreeFor(t, m) && TreeFor(u, k)
    ensures t == u ==> m == k
    ensures m == k && NoConflicts(m) ==> t == u
  {
    SnapshotReadsBack(t, m);
    SnapshotReadsBack(u, k);
    if m == k && NoConflicts(m) {
      var a :| Represents(a, m) && Emits(a, t);
      var b :| Represents(b, k) && Emits(b, u);
      RepresentativeIsUnique(a, b, m);
      NoConflictsIsPrefixFree(a, m);
      ConflictFreeIsPrefixFree(a);
      TreeIsCanonical(a, t, u);
    }
  }

  /** No file of the map is a directory of path, nor path a directory of a file. */
  ghost predicate Unobstructed(m: Files, path: string) {
    forall b :: b in m ==> !(b + "/" <= path) && !(path + "/" <= b)
  }

  lemma StoredInTheWay(n: Node, m: Files, path: string, q: Path)
    requires Represents(n, m) && q != [] && Find(n, q).Some? && (q < Split(path) || Split(path) < q)
    ensures !Unobstructed(m, path)
  {
    assert At(m, q).Some?;
    DirectoryIsPrefix(Join(q), path);
    DirectoryIsPrefix(path, Join(q));
  }

  lemma UnobstructedIsClear(n: Node, m: Files, path: string)
    requires Represents(n, m) && Unobstructed(m, path)
    ensures ClearFor(n, Split(path))
  {
    var p := Split(path);
    if !ClearFor(n, p) {
      var q := InTheWay(n, p);
      if q == p {
        var r: Path :| Find(n, p + r).Some? && r != [];
        assert p < p + r;
        StoredInTheWay(n, m, path, p + r);
      } else {
        StoredInTheWay(n, m, path, q);
      }
    }
  }

  /** Reading one file never gives anything but the snapshot's content, and it finds every file that
      no other one obstructs. */
  lemma LookupAgrees(t: Tree, m: Files, path: string)
    requires TreeFor(t, m)
    ensures Lookup(t, Split(path)).Some? ==> path in m && m[path] == Lookup(t, Split(path)).value
    ensures path in m && Unobstructed(m, path) ==> Lookup(t, Split(path)) == Some(m[path])
  {
    var n :| Represents(n, m) && Emits(n, t);
    JoinOfSplit(path);
    assert Find(n, Split(path)) == At(m, Split(path));
    if Lookup(t, Split(path)).Some? { LookupIsSound(n, t, Split(path)); }
    if Unobstructed(m, path) {
      UnobstructedIsClear(n, m, path);
      LookupFinds(n, t, Split(path));
    }
  }

  /** Adding one file to the trie adds it to the map. */
  lemma InsertRepresents(n: Node, m: Files, path: string, blob: string)
    requires Represents(n, m)
    ensures Represents(Insert(n, Split(path), blob), m[path := blob])
  {
    var n' := Insert(n, Split(path), blob);
    InsertPopulates(n, Split(path), blob);
    JoinOfSplit(path);
    forall p: Path | p != [] ensures Find(n', p) == At(m[path := blob], p) {
      FindInserted(n, Split(path), blob, p);
    }
  }

  lemma EmptyRepresents()
    ensures Represents(EMPTY_NODE, map[])
  {
    forall p: Path | p != [] ensures Find(EMPTY_NODE, p) == At(map[], p) { FindInEmpty(p); }
  }

  /** Every flat map has a trie. */
  lemma {:induction false} SomeTrie(m: Files) returns (n: Node)
    ensures Represents(n, m)
    decreases m.Keys
  {
    if m == map[] {
      n := EMPTY_NODE;
      EmptyRepresents();
    } else {
      var k :| k in m;
      n := SomeTrie(m - {k});
      InsertRepresents(n, m - {k}, k, m[k]);
      assert (m - {k})[k := m[k]] == m;
      n := Insert(n, Split(k), m[k]);
    }
  }
}
