/**
 The workspace's tree building (relay/internal/workspace/workspace.go): a flat
 path map becomes a trie, the trie becomes nested sorted trees, and the trees are
 walked or looked up to read files back.  Hashing of blobs and trees is taken as
 injective, so a tree stands for its own hash.
 */
module Trees {
  import opened Wire
  import opened Order

  type Path = seq<string>

  // ----- the trie -----

  datatype Node = Node(files: map<string, string>, subdirs: map<string, Node>)

  const EMPTY_NODE := Node(map[], map[])

  function Sub(n: Node, name: string): Node {
    if name in n.subdirs then n.subdirs[name] else EMPTY_NODE
  }

  function Insert(n: Node, path: Path, blob: string): Node
    requires path != []
    decreases |path|
  {
    if |path| == 1 then n.(files := n.files[path[0] := blob])
    else n.(subdirs := n.subdirs[path[0] := Insert(Sub(n, path[0]), path[1..], blob)])
  }

  function Find(n: Node, path: Path): Option<string>
    requires path != []
    decreases |path|
  {
    if |path| == 1 then
      if path[0] in n.files then Some(n.files[path[0]]) else None
    else Find(Sub(n, path[0]), path[1..])
  }

  lemma {:induction false} FindInEmpty(path: Path)
    requires path != []
    ensures Find(EMPTY_NODE, path) == None
    decreases |path|
  {
    if |path| > 1 { FindInEmpty(path[1..]); }
  }

  lemma {:induction false} FindInserted(n: Node, path: Path, blob: string, q: Path)
    requires path != [] && q != []
    ensures Find(Insert(n, path, blob), q) == if q == path then Some(blob) else Find(n, q)
    decreases |path|
  {
    if |path| > 1 && |q| > 1 && path[0] == q[0] {
      FindInserted(Sub(n, path[0]), path[1..], blob, q[1..]);
      assert path == [path[0]] + path[1..] && q == [q[0]] + q[1..];
    }
  }

  /** No directory without a file below it. */
  ghost predicate Populated(n: Node) {
    forall d :: d in n.subdirs ==> n.subdirs[d] != EMPTY_NODE && Populated(n.subdirs[d])
  }

  lemma {:induction false} InsertPopulates(n: Node, path: Path, blob: string)
    requires path != [] && Populated(n)
    ensures Populated(Insert(n, path, blob)) && Insert(n, path, blob) != EMPTY_NODE
    decreases |path|
  {
    if |path| == 1 {
      assert path[0] in Insert(n, path, blob).files;
    } else {
      InsertPopulates(Sub(n, path[0]), path[1..], blob);
      assert path[0] in Insert(n, path, blob).subdirs;
    }
  }

  lemma {:induction false} PopulatedHasFile(n: Node) returns (path: Path)
    requires Populated(n) && n != EMPTY_NODE
    ensures path != [] && Find(n, path).Some?
    decreases n
  {
    if n.files != map[] {
      var f :| f in n.files;
      path := [f];
    } else {
      assert n.subdirs != map[];
      var d :| d in n.subdirs;
      var below := PopulatedHasFile(n.subdirs[d]);
      path := [d] + below;
      assert path[1..] == below;
    }
  }

  /** A populated trie is determined by what can be found in it. */
  lemma {:induction false} SameFindSameTrie(a: Node, b: Node)
    requires Populated(a) && Populated(b)
    requires SameFind(a, b)
    ensures a == b
    decreases a
  {
    forall f ensures f in a.files <==> f in b.files
             ensures f in a.files && f in b.files ==> a.files[f] == b.files[f]
    {
      assert Find(a, [f]) == Find(b, [f]);
    }
    assert a.files == b.files;
    forall d ensures d in a.subdirs <==> d in b.subdirs {
      if d in a.subdirs { SubdirsIn(a, b, d); }
      if d in b.subdirs { SubdirsIn(b, a, d); }
    }
    forall d | d in a.subdirs ensures a.subdirs[d] == b.subdirs[d] {
      forall p: Path | p != [] ensures Find(a.subdirs[d], p) == Find(b.subdirs[d], p) {
        FindBelow(a, d, p);
        FindBelow(b, d, p);
      }
      SameFindSameTrie(a.subdirs[d], b.subdirs[d]);
    }
    assert a.subdirs == b.subdirs;
  }

  lemma FindBelow(n: Node, d: string, p: Path)
    requires p != []
    ensures Find(n, [d] + p) == Find(Sub(n, d), p)
  {
    assert ([d] + p)[1..] == p;
  }

  ghost predicate SameFind(a: Node, b: Node) {
    forall p :: p != [] ==> Find(a, p) == Find(b, p)
  }

  lemma SubdirsIn(a: Node, b: Node, d: string)
    requires d in a.subdirs && Populated(a.subdirs[d]) && a.subdirs[d] != EMPTY_NODE
    requires SameFind(a, b)
    ensures d in b.subdirs
  {
    var p := PopulatedHasFile(a.subdirs[d]);
    SubdirIn(a, b, d, p);
  }

  lemma SubdirIn(a: Node, b: Node, d: string, p: Path)
    requires d in a.subdirs && p != [] && Find(a.subdirs[d], p).Some? && Find(a, [d] + p) == Find(b, [d] + p)
    ensures d in b.subdirs
  {
    FindBelow(a, d, p);
    FindBelow(b, d, p);
    if d !in b.subdirs { FindInEmpty(p); }
  }

  // ----- conflicts: one path a proper directory prefix of another -----

  ghost predicate ConflictFree(n: Node) {
    n.files.Keys !! n.subdirs.Keys && forall d :: d in n.subdirs ==> ConflictFree(n.subdirs[d])
  }

  ghost predicate PrefixFree(n: Node) {
    forall p, q :: p != [] && q != [] && Find(n, p).Some? && Find(n, q).Some? ==> !(p < q)
  }

  lemma {:induction false} ConflictFreeIsPrefixFree(n: Node)
    requires Populated(n)
    ensures ConflictFree(n) <==> PrefixFree(n)
    decreases n
  {
    if PrefixFree(n) {
      forall d | d in n.subdirs ensures d !in n.files && ConflictFree(n.subdirs[d]) {
        PrefixFreeBelow(n, d);
        ConflictFreeIsPrefixFree(n.subdirs[d]);
        var p := PopulatedHasFile(n.subdirs[d]);
        FindBelow(n, d, p);
        assert [d] < [d] + p;
        assert Find(n, [d]) == None;
      }
    }
    if ConflictFree(n) {
      forall p, q | p != [] && q != [] && Find(n, p).Some? && Find(n, q).Some? ensures !(p < q) {
        if p < q { NoPrefixPair(n, p, q); }
      }
    }
  }

  lemma PrefixFreeBelow(n: Node, d: string)
    requires d in n.subdirs && PrefixFree(n)
    ensures PrefixFree(n.subdirs[d])
  {
    forall p, q | p != [] && q != [] && Find(n.subdirs[d], p).Some? && Find(n.subdirs[d], q).Some? ensures !(p < q) {
      FindBelow(n, d, p);
      FindBelow(n, d, q);
      ConsPrefix(d, p, q);
    }
  }

  lemma ConsPrefix(d: string, p: Path, q: Path)
    ensures p < q <==> [d] + p < [d] + q
  {
    if [d] + p < [d] + q {
      forall i | 0 <= i < |p| ensures p[i] == q[i] { assert ([d] + p)[i + 1] == ([d] + q)[i + 1]; }
    }
  }

  lemma {:induction false} NoPrefixPair(n: Node, p: Path, q: Path)
    requires ConflictFree(n) && p != [] && p < q && Find(n, p).Some?
    ensures Find(n, q) == None
    decreases |p|
  {
    if p[0] in n.subdirs {
      if |p| > 1 {
        NoPrefixPair(n.subdirs[p[0]], p[1..], q[1..]);
      }
    } else {
      FindInEmpty(q[1..]);
      if |p| > 1 { FindInEmpty(p[1..]); }
    }
  }

  // ----- git trees -----

  datatype Entry = File(name: string, blob: string) | Dir(name: string, tree: Tree)
  datatype Tree = Tree(entries: seq<Entry>)

  function NameOf(e: Entry): string { e.name }

  /** Each file and each subdirectory of a trie node once, in any order. */
  ghost predicate Lists(n: Node, es: seq<Entry>) {
    && OneEach(es)
    && (forall e :: e in es ==> ListedIn(n, e))
    && (forall f :: f in n.files ==> File(f, n.files[f]) in es)
    && (forall d :: d in n.subdirs ==> HasDir(es, d))
  }

  ghost predicate OneEach(es: seq<Entry>) {
    forall i, j :: 0 <= i < j < |es| ==> !SameEntry(es[i], es[j])
  }

  predicate SameEntry(a: Entry, b: Entry) { a.name == b.name && a.File? == b.File? }

  ghost predicate ListedIn(n: Node, e: Entry)
    decreases n, 0
  {
    match e
    case File(name, blob) => name in n.files && n.files[name] == blob
    case Dir(name, sub) => name in n.subdirs && Emits(n.subdirs[name], sub)
  }

  /** What emit may produce for a trie node: its listing, sorted by name.  Where a file and a
      directory share a name, their order is left open, as an unstable sort leaves it. */
  ghost predicate Emits(n: Node, t: Tree)
    decreases n, 1
  {
    && SortedBy(t.entries, NameOf)
    && OneEach(t.entries)
    && (forall e :: e in t.entries ==> ListedIn(n, e))
    && (forall f :: f in n.files ==> File(f, n.files[f]) in t.entries)
    && (forall d :: d in n.subdirs ==> HasDir(t.entries, d))
  }

  ghost predicate HasDir(es: seq<Entry>, d: string) {
    exists e :: e in es && e.Dir? && e.name == d
  }

  /** Sorting a listing by name gives a tree the node may emit. */
  lemma SortedListingIsEmitted(n: Node, es: seq<Entry>)
    requires Lists(n, es)
    ensures Emits(n, Tree(SortBy(es, NameOf)))
  {
    var r := SortBy(es, NameOf);
    SortBySorts(es, NameOf);
    assert forall e :: e in r <==> e in es by {
      assert forall e :: e in r <==> e in multiset(r);
      assert forall e :: e in es <==> e in multiset(es);
    }
    forall i, j | 0 <= i < j < |r| ensures !SameEntry(r[i], r[j]) {
      RearrangedIsDistinct(es, r);
      assert r[i] in es && r[j] in es && r[i] != r[j];
      var x :| 0 <= x < |es| && es[x] == r[i];
      var y :| 0 <= y < |es| && es[y] == r[j];
      if x < y { assert !SameEntry(es[x], es[y]); } else { assert !SameEntry(es[y], es[x]); }
    }
    forall d | d in n.subdirs ensures HasDir(r, d) {
      var e :| e in es && e.Dir? && e.name == d;
      assert e in r;
    }
  }

  /** Files().ForEach: every blob under the tree with its path, in entry order. */
  function Walk(entries: seq<Entry>): seq<(Path, string)> {
    if entries == [] then [] else Head(entries[0]) + Walk(entries[1..])
  }

  function Head(e: Entry): seq<(Path, string)> {
    match e
    case File(name, blob) => [([name], blob)]
    case Dir(name, tree) => Under(name, Walk(tree.entries))
  }

  function Under(name: string, found: seq<(Path, string)>): (r: seq<(Path, string)>)
    ensures |r| == |found| && forall i :: 0 <= i < |r| ==> r[i] == ([name] + found[i].0, found[i].1)
  {
    seq(|found|, i requires 0 <= i < |found| => ([name] + found[i].0, found[i].1))
  }

  // ----- the walk finds exactly what the trie holds -----

  lemma {:induction false} WalkMember(es: seq<Entry>, p: Path, blob: string)
    ensures (p, blob) in Walk(es) <==> exists e :: e in es && Leads(e, p, blob)
  {
    if es != [] {
      WalkMember(es[1..], p, blob);
      HeadMember(es[0], p, blob);
      assert forall e :: e in es <==> e == es[0] || e in es[1..] by { assert es == [es[0]] + es[1..]; }
    }
  }

  ghost predicate Leads(e: Entry, p: Path, blob: string) {
    match e
    case File(name, b) => p == [name] && blob == b
    case Dir(name, tree) => |p| > 0 && p[0] == name && (p[1..], blob) in Walk(tree.entries)
  }

  lemma HeadMember(e: Entry, p: Path, blob: string)
    ensures (p, blob) in Head(e) <==> Leads(e, p, blob)
  {
    if e.Dir? {
      var found := Walk(e.tree.entries);
      if (p, blob) in Head(e) {
        var i :| 0 <= i < |found| && Under(e.name, found)[i] == (p, blob);
        assert p[1..] == found[i].0;
      }
      if Leads(e, p, blob) {
        var i :| 0 <= i < |found| && found[i] == (p[1..], blob);
        assert [e.name] + p[1..] == p;
        assert Under(e.name, found)[i] == (p, blob);
      }
    }
  }

  lemma {:induction false} WalkFinds(n: Node, t: Tree, p: Path, blob: string)
    requires Emits(n, t)
    ensures (p, blob) in Walk(t.entries) <==> p != [] && Find(n, p) == Some(blob)
    decreases n
  {
    WalkMember(t.entries, p, blob);
    if (p, blob) in Walk(t.entries) {
      var e :| e in t.entries && Leads(e, p, blob);
      assert ListedIn(n, e);
      if e.Dir? {
        WalkFinds(n.subdirs[e.name], e.tree, p[1..], blob);
      }
    }
    if p != [] && Find(n, p) == Some(blob) {
      if |p| == 1 {
        assert Leads(File(p[0], blob), p, blob);
      } else {
        if p[0] !in n.subdirs { FindInEmpty(p[1..]); }
        assert HasDir(t.entries, p[0]);
        var e :| e in t.entries && e.Dir? && e.name == p[0];
        assert ListedIn(n, e);
        WalkFinds(n.subdirs[p[0]], e.tree, p[1..], blob);
        assert Leads(e, p, blob);
      }
    }
  }

  ghost predicate DistinctPaths(found: seq<(Path, string)>) {
    forall i, j :: 0 <= i < j < |found| ==> found[i].0 != found[j].0
  }

  /** The walk visits no path twice. */
  lemma {:induction false} WalkIsDistinct(n: Node, t: Tree)
    requires Emits(n, t)
    ensures DistinctPaths(Walk(t.entries))
    decreases n
  {
    forall e | e in t.entries ensures DistinctPaths(Head(e)) && NonEmptyPaths(e) {
      assert ListedIn(n, e);
      if e.Dir? {
        WalkIsDistinct(n.subdirs[e.name], e.tree);
        UnderDistinct(e.name, Walk(e.tree.entries));
        forall p, blob | (p, blob) in Walk(e.tree.entries) ensures p != [] {
          WalkFinds(n.subdirs[e.name], e.tree, p, blob);
        }
      }
    }
    EntriesDistinct(t.entries);
  }

  ghost predicate NonEmptyPaths(e: Entry) {
    e.Dir? ==> forall p, blob :: (p, blob) in Walk(e.tree.entries) ==> p != []
  }

  lemma {:induction false} EntriesDistinct(es: seq<Entry>)
    requires OneEach(es)
    requires forall e :: e in es ==> DistinctPaths(Head(e)) && NonEmptyPaths(e)
    ensures DistinctPaths(Walk(es))
  {
    if es != [] {
      var head, tail := Head(es[0]), es[1..];
      assert es == [es[0]] + tail;
      assert forall e :: e in tail ==> e in es;
      forall i, j | 0 <= i < j < |tail| ensures !SameEntry(tail[i], tail[j]) {
        assert !SameEntry(es[i + 1], es[j + 1]);
      }
      EntriesDistinct(tail);
      assert es[0] in es;
      forall x, y | x in head && y in Walk(tail) ensures x.0 != y.0 {
        HeadApart(es[0], tail, x, y);
      }
      DistinctConcat(head, Walk(tail));
      assert Walk(es) == head + Walk(tail);
    }
  }

  lemma UnderDistinct(name: string, found: seq<(Path, string)>)
    requires DistinctPaths(found)
    ensures DistinctPaths(Under(name, found))
  {
    var r := Under(name, found);
    forall i, j | 0 <= i < j < |r| ensures r[i].0 != r[j].0 {
      assert r[i].0[1..] == found[i].0 && r[j].0[1..] == found[j].0;
    }
  }

  lemma DistinctConcat(a: seq<(Path, string)>, b: seq<(Path, string)>)
    requires DistinctPaths(a) && DistinctPaths(b)
    requires forall x, y :: x in a && y in b ==> x.0 != y.0
    ensures DistinctPaths(a + b)
  {
    forall i, j | 0 <= i < j < |a + b| ensures (a + b)[i].0 != (a + b)[j].0 {
      if i < |a| && j >= |a| { assert a[i] in a && b[j - |a|] in b; }
    }
  }

  lemma HeadApart(e: Entry, tail: seq<Entry>, x: (Path, string), y: (Path, string))
    requires OneEach([e] + tail) && x in Head(e) && y in Walk(tail)
    requires NonEmptyPaths(e) && forall f :: f in tail ==> NonEmptyPaths(f)
    ensures x.0 != y.0
  {
    HeadMember(e, x.0, x.1);
    WalkMember(tail, y.0, y.1);
    assert (x.0, x.1) == x && (y.0, y.1) == y;
    var f :| f in tail && Leads(f, y.0, y.1);
    var k :| 0 <= k < |tail| && tail[k] == f;
    assert !SameEntry(([e] + tail)[0], ([e] + tail)[k + 1]);
    LeadsApart(e, f, x.0, x.1, y.0, y.1);
  }

  lemma LeadsApart(a: Entry, b: Entry, p: Path, x: string, q: Path, y: string)
    requires !SameEntry(a, b) && Leads(a, p, x) && Leads(b, q, y)
    requires NonEmptyPaths(a) && NonEmptyPaths(b)
    ensures p != q
  {
  }

  /** Collecting a walk into a map; a later entry overwrites an earlier one. */
  function Gather<K(==)>(found: seq<(K, string)>): map<K, string> {
    if found == [] then map[]
    else Gather(found[..|found| - 1])[found[|found| - 1].0 := found[|found| - 1].1]
  }

  lemma {:induction false} GatherDistinct<K>(found: seq<(K, string)>)
    requires forall i, j :: 0 <= i < j < |found| ==> found[i].0 != found[j].0
    ensures forall p, blob :: p in Gather(found) && Gather(found)[p] == blob <==> (p, blob) in found
  {
    if found != [] {
      var init, last := found[..|found| - 1], found[|found| - 1];
      GatherDistinct(init);
      assert found == init + [last];
      forall p, blob ensures p in Gather(found) && Gather(found)[p] == blob <==> (p, blob) in found {
        assert forall x :: x in init ==> x.0 != last.0;
        if p == last.0 { assert (p, last.1) == last; }
      }
    }
  }

  /** Round trip: walking a tree emitted for a trie gives back exactly the trie's files. */
  lemma TreeRoundTrip(n: Node, t: Tree, p: Path)
    requires Emits(n, t)
    ensures var flat := Gather(Walk(t.entries));
            && (p in flat <==> p != [] && Find(n, p).Some?)
            && (p in flat ==> Find(n, p) == Some(flat[p]))
  {
    WalkIsDistinct(n, t);
    var found := Walk(t.entries);
    GatherDistinct(found);
    if p in Gather(found) { WalkFinds(n, t, p, Gather(found)[p]); }
    if p != [] && Find(n, p).Some? { WalkFinds(n, t, p, Find(n, p).value); }
  }
}
