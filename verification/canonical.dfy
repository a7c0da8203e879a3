/**
 When a trie determines its tree, and lookup in a tree
 (relay/internal/workspace/workspace.go, writeTreeRecursive and ReadFile).
 */
module Canonical {
  import opened Wire
  import opened Order
  import opened Trees

  function NamesOf(es: seq<Entry>): (r: seq<string>)
    ensures |r| == |es| && forall i :: 0 <= i < |r| ==> r[i] == es[i].name
  {
    seq(|es|, i requires 0 <= i < |es| => es[i].name)
  }

  lemma NamesAreAscending(n: Node, t: Tree)
    requires ConflictFree(n) && Emits(n, t)
    ensures Ascending(NamesOf(t.entries))
    ensures forall x :: x in NamesOf(t.entries) <==> x in n.files || x in n.subdirs
  {
    var es := t.entries;
    forall i, j | 0 <= i < j < |es| ensures Less(es[i].name, es[j].name) {
      assert !SameEntry(es[i], es[j]);
      assert es[i] in es && es[j] in es;
      assert ListedIn(n, es[i]) && ListedIn(n, es[j]);
      assert AtMost(NameOf(es[i]), NameOf(es[j]));
      Trichotomy(es[i].name, es[j].name);
    }
    forall x ensures x in NamesOf(es) <==> x in n.files || x in n.subdirs {
      if x in NamesOf(es) {
        var i :| 0 <= i < |es| && es[i].name == x;
        assert ListedIn(n, es[i]);
      }
      if x in n.files {
        var i :| 0 <= i < |es| && es[i] == File(x, n.files[x]);
        assert NamesOf(es)[i] == x;
      }
      if x in n.subdirs {
        assert HasDir(es, x);
        var e :| e in es && e.Dir? && e.name == x;
        var i :| 0 <= i < |es| && es[i] == e;
        assert NamesOf(es)[i] == x;
      }
    }
  }

  /** Canonical form: a conflict-free trie has one tree, whatever the order of the maps it was read from. */
  lemma {:induction false} TreeIsCanonical(n: Node, t: Tree, u: Tree)
    requires ConflictFree(n) && Emits(n, t) && Emits(n, u)
    ensures t == u
    decreases n
  {
    NamesAreAscending(n, t);
    NamesAreAscending(n, u);
    AscendingIsUnique(NamesOf(t.entries), NamesOf(u.entries));
    forall i | 0 <= i < |t.entries| ensures t.entries[i] == u.entries[i] {
      var a, b := t.entries[i], u.entries[i];
      assert NamesOf(t.entries)[i] == a.name && NamesOf(u.entries)[i] == b.name;
      assert a in t.entries && b in u.entries;
      assert ListedIn(n, a) && ListedIn(n, b);
      if a.Dir? && b.Dir? { TreeIsCanonical(n.subdirs[a.name], a.tree, b.tree); }
    }
    assert t.entries == u.entries;
  }

  /** Trees tell tries apart: the same tree comes from the same trie, conflicts or not. */
  lemma SameTreeSameTrie(m: Node, n: Node, t: Tree)
    requires Populated(m) && Populated(n) && Emits(m, t) && Emits(n, t)
    ensures m == n
  {
    forall p: Path | p != [] ensures Find(m, p) == Find(n, p) {
      TreeRoundTrip(m, t, p);
      TreeRoundTrip(n, t, p);
    }
    SameFindSameTrie(m, n);
  }

  // ----- conflicts leave the tree open -----

  lemma ListSet(s: set<string>) returns (r: seq<string>)
    ensures forall x :: x in r <==> x in s
    ensures forall i, j :: 0 <= i < j < |r| ==> r[i] != r[j]
    decreases s
  {
    if s == {} {
      r := [];
    } else {
      var x :| x in s;
      var rest := ListSet(s - {x});
      r := [x] + rest;
    }
  }

  lemma DirEntries(n: Node, ds: seq<string>) returns (es: seq<Entry>)
    requires forall d :: d in ds ==> d in n.subdirs
    ensures |es| == |ds|
    ensures forall i :: 0 <= i < |es| ==> es[i].Dir? && es[i].name == ds[i] && ListedIn(n, es[i])
    decreases n, 0, |ds|
  {
    if ds == [] {
      es := [];
    } else {
      assert ds[0] in ds;
      assert forall d :: d in ds[1..] ==> d in ds;
      var t := SomeTree(n.subdirs[ds[0]]);
      var rest := DirEntries(n, ds[1..]);
      es := [Dir(ds[0], t)] + rest;
    }
  }

  lemma SomeTree(n: Node) returns (t: Tree)
    ensures Emits(n, t)
    decreases n, 1, 0
  {
    var fs := ListSet(n.files.Keys);
    var ds := ListSet(n.subdirs.Keys);
    var dirs := DirEntries(n, ds);
    var files := seq(|fs|, i requires 0 <= i < |fs| => assert fs[i] in n.files.Keys; File(fs[i], n.files[fs[i]]));
    var es := files + dirs;
    ListingIsComplete(n, fs, ds, files, dirs);
    SortedListingIsEmitted(n, es);
    t := Tree(SortBy(es, NameOf));
  }

  lemma ListingIsComplete(n: Node, fs: seq<string>, ds: seq<string>, files: seq<Entry>, dirs: seq<Entry>)
    requires (forall x :: x in fs <==> x in n.files) && (forall x :: x in ds <==> x in n.subdirs)
    requires forall i, j :: 0 <= i < j < |fs| ==> fs[i] != fs[j]
    requires forall i, j :: 0 <= i < j < |ds| ==> ds[i] != ds[j]
    requires |files| == |fs| && |dirs| == |ds|
    requires forall i :: 0 <= i < |fs| ==> fs[i] in n.files && files[i] == File(fs[i], n.files[fs[i]])
    requires forall i :: 0 <= i < |ds| ==> dirs[i].Dir? && dirs[i].name == ds[i] && ListedIn(n, dirs[i])
    ensures Lists(n, files + dirs)
  {
    var es := files + dirs;
    forall e | e in es ensures ListedIn(n, e) {
      var i :| 0 <= i < |es| && es[i] == e;
    }
    forall f | f in n.files ensures File(f, n.files[f]) in es {
      var i :| 0 <= i < |fs| && fs[i] == f;
      assert es[i] == File(f, n.files[f]);
    }
    forall d | d in n.subdirs ensures HasDir(es, d) {
      var i :| 0 <= i < |ds| && ds[i] == d;
      assert es[|files| + i] in es;
    }
  }

  /** Replacing an entry by one of the same kind and name keeps the tree emitted. */
  lemma ReplaceEntry(n: Node, t: Tree, k: nat, e: Entry)
    requires Emits(n, t) && k < |t.entries| && SameEntry(e, t.entries[k]) && ListedIn(n, e)
    ensures Emits(n, Tree(t.entries[k := e]))
  {
    var es, r := t.entries, t.entries[k := e];
    forall i, j | 0 <= i < j < |r| ensures AtMost(NameOf(r[i]), NameOf(r[j])) && !SameEntry(r[i], r[j]) {
      assert AtMost(NameOf(es[i]), NameOf(es[j])) && !SameEntry(es[i], es[j]);
    }
    forall x | x in r ensures ListedIn(n, x) {
      var i :| 0 <= i < |r| && r[i] == x;
      if i != k { assert es[i] in es; }
    }
    forall f | f in n.files ensures File(f, n.files[f]) in r {
      var i :| 0 <= i < |es| && es[i] == File(f, n.files[f]);
      assert r[i] == es[i];
    }
    forall d | d in n.subdirs ensures HasDir(r, d) {
      assert HasDir(es, d);
      var x :| x in es && x.Dir? && x.name == d;
      var i :| 0 <= i < |es| && es[i] == x;
      assert r[i] in r;
    }
  }

  function Swap(es: seq<Entry>, i: nat, j: nat): seq<Entry>
    requires i < |es| && j < |es|
  {
    es[i := es[j]][j := es[i]]
  }

  function Other(i: nat, j: nat, k: nat): nat { if k == i then j else if k == j then i else k }

  lemma SwapAt(es: seq<Entry>, i: nat, j: nat, k: nat)
    requires i < |es| && j < |es| && k < |es|
    ensures Other(i, j, k) < |es| && Swap(es, i, j)[k] == es[Other(i, j, k)]
  {
  }

  lemma SwapMembers(es: seq<Entry>, i: nat, j: nat, x: Entry)
    requires i < |es| && j < |es|
    ensures x in Swap(es, i, j) <==> x in es
  {
    var r := Swap(es, i, j);
    if x in r { var k :| 0 <= k < |r| && r[k] == x; SwapAt(es, i, j, k); }
    if x in es { var k :| 0 <= k < |es| && es[k] == x; SwapAt(es, i, j, Other(i, j, k)); }
  }

  lemma SwapOneEach(es: seq<Entry>, i: nat, j: nat)
    requires i < |es| && j < |es| && OneEach(es)
    ensures OneEach(Swap(es, i, j))
  {
    var r := Swap(es, i, j);
    forall a, b | 0 <= a < b < |r| ensures !SameEntry(r[a], r[b]) {
      SwapAt(es, i, j, a);
      SwapAt(es, i, j, b);
      var a', b' := Other(i, j, a), Other(i, j, b);
      if a' < b' { assert !SameEntry(es[a'], es[b']); } else { assert !SameEntry(es[b'], es[a']); }
    }
  }

  /** Two entries with one name can change places. */
  lemma SwapEntries(n: Node, t: Tree, i: nat, j: nat)
    requires Emits(n, t) && i < |t.entries| && j < |t.entries| && t.entries[i].name == t.entries[j].name
    ensures Emits(n, Tree(Swap(t.entries, i, j)))
  {
    var es := t.entries;
    var r := Swap(es, i, j);
    SwapOneEach(es, i, j);
    forall x ensures x in r <==> x in es { SwapMembers(es, i, j, x); }
    forall a, b | 0 <= a < b < |r| ensures AtMost(NameOf(r[a]), NameOf(r[b])) {
      assert AtMost(NameOf(es[a]), NameOf(es[b]));
    }
    forall d | d in n.subdirs ensures HasDir(r, d) {
      assert HasDir(es, d);
      var x :| x in es && x.Dir? && x.name == d;
      assert x in r;
    }
  }

  /** A name that is both a file and a directory: its two entries can change places. */
  lemma ClashCanSwap(n: Node, t: Tree, x: string) returns (u: Tree)
    requires Emits(n, t) && x in n.files && x in n.subdirs
    ensures Emits(n, u) && t != u
  {
    var es := t.entries;
    var i :| 0 <= i < |es| && es[i] == File(x, n.files[x]);
    assert HasDir(es, x);
    var e :| e in es && e.Dir? && e.name == x;
    var j :| 0 <= j < |es| && es[j] == e;
    SwapEntries(n, t, i, j);
    u := Tree(Swap(es, i, j));
    SwapAt(es, i, j, i);
    assert u.entries[i] != t.entries[i];
  }

  /** Two trees of a subdirectory give two trees of its parent. */
  lemma TwoSubtrees(n: Node, t: Tree, d: string, s1: Tree, s2: Tree) returns (t1: Tree, t2: Tree)
    requires Emits(n, t) && d in n.subdirs && Emits(n.subdirs[d], s1) && Emits(n.subdirs[d], s2) && s1 != s2
    requires n.files.Keys !! n.subdirs.Keys
    ensures Emits(n, t1) && Emits(n, t2) && t1 != t2
  {
    var es := t.entries;
    assert HasDir(es, d);
    var e :| e in es && e.Dir? && e.name == d;
    var k :| 0 <= k < |es| && es[k] == e;
    ReplaceEntry(n, t, k, Dir(d, s1));
    ReplaceEntry(n, t, k, Dir(d, s2));
    assert es[k := Dir(d, s1)][k] != es[k := Dir(d, s2)][k];
    t1, t2 := Tree(es[k := Dir(d, s1)]), Tree(es[k := Dir(d, s2)]);
  }

  /** The converse: where a file and a directory collide, two different trees are possible. */
  lemma {:induction false} ConflictLeavesTwoTrees(n: Node) returns (t: Tree, u: Tree)
    requires !ConflictFree(n)
    ensures Emits(n, t) && Emits(n, u) && t != u
    decreases n
  {
    t := SomeTree(n);
    if n.files.Keys !! n.subdirs.Keys {
      var d :| d in n.subdirs && !ConflictFree(n.subdirs[d]);
      var s1, s2 := ConflictLeavesTwoTrees(n.subdirs[d]);
      t, u := TwoSubtrees(n, t, d, s1, s2);
    } else {
      var x :| x in n.files && x in n.subdirs;
      u := ClashCanSwap(n, t, x);
    }
  }

  ghost predicate Determined(n: Node) {
    forall t, u :: Emits(n, t) && Emits(n, u) ==> t == u
  }

  /** The tree of a trie is determined if and only if no file shares its path with a directory. */
  lemma DeterminedIffConflictFree(n: Node)
    requires Populated(n)
    ensures Determined(n) <==> PrefixFree(n)
  {
    ConflictFreeIsPrefixFree(n);
    if ConflictFree(n) {
      forall t, u | Emits(n, t) && Emits(n, u) ensures t == u { TreeIsCanonical(n, t, u); }
    } else {
      var t, u := ConflictLeavesTwoTrees(n);
      NotDetermined(n, t, u);
    }
  }

  lemma NotDetermined(n: Node, t: Tree, u: Tree)
    requires Emits(n, t) && Emits(n, u) && t != u
    ensures !Determined(n)
  {
  }

  // ----- ReadFile's lookup -----

  /** The entry of a tree by name: an index built in entry order, so the last one wins. */
  function EntryNamed(es: seq<Entry>, name: string): Option<Entry> {
    if es == [] then None
    else if es[|es| - 1].name == name then Some(es[|es| - 1])
    else EntryNamed(es[..|es| - 1], name)
  }

  function Lookup(t: Tree, path: Path): Option<string>
    requires path != []
    decreases |path|
  {
    match EntryNamed(t.entries, path[0])
    case None => None
    case Some(e) =>
      if |path| == 1 then (if e.File? then Some(e.blob) else None)
      else if e.Dir? then Lookup(e.tree, path[1..]) else None
  }

  lemma {:induction false} EntryNamedIsLast(es: seq<Entry>, name: string)
    ensures EntryNamed(es, name).Some? ==> EntryNamed(es, name).value in es && EntryNamed(es, name).value.name == name
    ensures EntryNamed(es, name).None? ==> forall e :: e in es ==> e.name != name
  {
    if es != [] {
      EntryNamedIsLast(es[..|es| - 1], name);
      assert es == es[..|es| - 1] + [es[|es| - 1]];
    }
  }

  /** What the lookup finds is there, whatever else the tree holds. */
  lemma {:induction false} LookupIsSound(n: Node, t: Tree, path: Path)
    requires Emits(n, t) && path != [] && Lookup(t, path).Some?
    ensures Find(n, path) == Lookup(t, path)
    decreases n
  {
    EntryNamedIsLast(t.entries, path[0]);
    var e := EntryNamed(t.entries, path[0]).value;
    assert ListedIn(n, e);
    if |path| > 1 { LookupIsSound(n.subdirs[path[0]], e.tree, path[1..]); }
  }

  /** No name on the way to path is both a file and a directory. */
  predicate ClearFor(n: Node, path: Path)
    decreases |path|
  {
    path == [] || (!(path[0] in n.files && path[0] in n.subdirs) && (path[0] in n.subdirs ==> ClearFor(n.subdirs[path[0]], path[1..])))
  }

  /** If no file on the way gets in between, the lookup finds what is there. */
  lemma {:induction false} LookupFinds(n: Node, t: Tree, path: Path)
    requires ClearFor(n, path) && Emits(n, t) && path != []
    ensures Lookup(t, path) == Find(n, path)
    decreases n
  {
    EntryNamedIsLast(t.entries, path[0]);
    match EntryNamed(t.entries, path[0])
    case None =>
      assert !HasDir(t.entries, path[0]);
      if |path| > 1 { FindInEmpty(path[1..]); }
    case Some(e) =>
      assert ListedIn(n, e);
      if |path| > 1 {
        if e.Dir? { LookupFinds(n.subdirs[path[0]], e.tree, path[1..]); }
        else { FindInEmpty(path[1..]); }
      }
  }

  /** Something gets in between only if some file's path is a proper prefix of this one, or this one of it. */
  lemma {:induction false} InTheWay(n: Node, path: Path) returns (q: Path)
    requires Populated(n) && path != [] && !ClearFor(n, path)
    ensures q != [] && Find(n, q).Some? && (q < path || path < q || q == path)
    ensures q == path ==> exists r: Path :: Find(n, path + r).Some? && r != []
    decreases n
  {
    var d := path[0];
    if d in n.files && d in n.subdirs {
      q := [d];
      if |path| == 1 {
        var r := PopulatedHasFile(n.subdirs[d]);
        FindBelow(n, d, r);
        assert path == [d];
      }
    } else {
      var below := InTheWay(n.subdirs[d], path[1..]);
      q := [d] + below;
      FindBelow(n, d, below);
      assert path == [d] + path[1..];
      ConsPrefix(d, below, path[1..]);
      ConsPrefix(d, path[1..], below);
      if below == path[1..] {
        var r: Path :| Find(n.subdirs[d], path[1..] + r).Some? && r != [];
        FindBelow(n, d, path[1..] + r);
        assert path + r == [d] + (path[1..] + r);
      }
    }
  }
}
