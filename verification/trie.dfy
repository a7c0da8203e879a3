/**
 The trie that writeTreeRecursive builds in place and emits
 (relay/internal/workspace/workspace.go): heap nodes with two maps.
 */
module Trie {
  import opened Order
  import opened Paths
  import opened Trees
  import opened Flat

  class Child {
    var files: map<string, string>
    var subdirs: map<string, Child>
    ghost var repr: set<Child>
    ghost var node: Node

    ghost predicate Valid()
      reads this, repr
      decreases repr
    {
      && this in repr
      && node.files == files && node.subdirs.Keys == subdirs.Keys
      && (forall d :: d in subdirs ==>
            && subdirs[d] in repr && subdirs[d].repr <= repr - {this}
            && subdirs[d].Valid() && node.subdirs[d] == subdirs[d].node)
      && (forall d, e :: d in subdirs && e in subdirs && d != e ==> subdirs[d].repr !! subdirs[e].repr)
    }

    constructor ()
      ensures Valid() && fresh(repr) && repr == {this} && node == EMPTY_NODE
    {
      files, subdirs := map[], map[];
      repr, node := {this}, EMPTY_NODE;
    }

    // The child a path goes through next, made on first use.
    method Enter(name: string) returns (next: Child)
      requires Valid()
      modifies this
      ensures Valid() && name in subdirs && next == subdirs[name]
      ensures fresh(repr - old(repr)) && old(repr) <= repr
      ensures next.node == Sub(old(node), name)
      ensures node == old(node).(subdirs := old(node).subdirs[name := next.node])
    {
      if name in subdirs {
        next := subdirs[name];
        assert node.subdirs[name := next.node] == node.subdirs;
      } else {
        next := new Child();
        subdirs := subdirs[name := next];
        repr := repr + {next};
        node := node.(subdirs := node.subdirs[name := EMPTY_NODE]);
      }
    }

    /** Everything Valid says except about the subdirectory `name`. */
    ghost predicate ValidBut(name: string)
      reads this, repr
    {
      && this in repr
      && node.files == files && node.subdirs.Keys == subdirs.Keys
      && (forall d :: d in subdirs && d != name ==>
            && subdirs[d] in repr && subdirs[d].repr <= repr - {this}
            && subdirs[d].Valid() && node.subdirs[d] == subdirs[d].node)
      && (forall d, e :: d in subdirs && e in subdirs && d != e && d != name && e != name ==>
            subdirs[d].repr !! subdirs[e].repr)
    }

    // After a subdirectory has grown: take over its nodes and its contents.
    ghost method Adopt(name: string)
      requires ValidBut(name) && name in subdirs
      requires subdirs[name].Valid() && this !in subdirs[name].repr
      requires forall d :: d in subdirs && d != name ==> subdirs[d].repr !! subdirs[name].repr
      modifies this`repr, this`node
      ensures Valid() && repr == old(repr) + subdirs[name].repr
      ensures node == old(node).(subdirs := old(node).subdirs[name := subdirs[name].node])
    {
      repr := repr + subdirs[name].repr;
      node := node.(subdirs := node.subdirs[name := subdirs[name].node]);
    }

    method AddFile(name: string, blob: string)
      requires Valid()
      modifies this`files, this`node
      ensures Valid() && node == old(node).(files := old(node).files[name := blob])
    {
      files := files[name := blob];
      node := node.(files := files);
    }

    // One path's descent through the trie; the recursive call is the loop's `cur = next`.
    method Add(path: Path, blob: string)
      requires Valid() && path != []
      modifies repr
      ensures Valid() && node == Insert(old(node), path, blob)
      ensures fresh(repr - old(repr)) && old(repr) <= repr
      decreases |path|, 1
    {
      if |path| == 1 {
        AddFile(path[0], blob);
      } else {
        ghost var before := node;
        var next := Enter(path[0]);
        ghost var below := Insert(next.node, path[1..], blob);
        Descend(next, path, blob);
        assert node.subdirs == before.subdirs[path[0] := below];
      }
    }

    method Descend(next: Child, path: Path, blob: string)
      requires Valid() && |path| > 1 && path[0] in subdirs && next == subdirs[path[0]]
      modifies repr
      ensures Valid()
      ensures node == old(node).(subdirs := old(node).subdirs[path[0] := Insert(old(next.node), path[1..], blob)])
      ensures fresh(repr - old(repr)) && old(repr) <= repr
      decreases |path|, 0
    {
      next.Add(path[1..], blob);
      Adopt(path[0]);
    }

    // The file entries, in whatever order the map yields its keys.
    method FileEntries() returns (es: seq<Entry>)
      requires Valid()
      ensures OneEach(es)
      ensures forall e :: e in es <==> e.File? && e.name in node.files && node.files[e.name] == e.blob
    {
      es := [];
      var todo := files.Keys;
      while todo != {}
        invariant todo <= files.Keys
        invariant OneEach(es)
        invariant forall e :: e in es <==> e.File? && e.name in files.Keys - todo && files[e.name] == e.blob
        decreases todo
      {
        var f :| f in todo;
        todo := todo - {f};
        OneMore(es, File(f, files[f]));
        es := es + [File(f, files[f])];
      }
    }

    // The directory entries: each subtree is emitted first.
    method DirectoryEntries() returns (es: seq<Entry>)
      requires Valid()
      ensures OneEach(es)
      ensures forall e :: e in es ==> e.Dir? && ListedIn(node, e)
      ensures forall d :: d in node.subdirs ==> HasDir(es, d)
      decreases repr, 0
    {
      es := [];
      var todo := subdirs.Keys;
      while todo != {}
        invariant todo <= subdirs.Keys
        invariant OneEach(es)
        invariant forall e :: e in es ==> e.Dir? && e.name !in todo && ListedIn(node, e)
        invariant forall d :: d in subdirs.Keys - todo ==> HasDir(es, d)
        decreases todo
      {
        var d :| d in todo;
        todo := todo - {d};
        var t := subdirs[d].Emit();
        assert ListedIn(node, Dir(d, t));
        OneMore(es, Dir(d, t));
        forall x | x in subdirs.Keys - todo ensures HasDir(es + [Dir(d, t)], x) {
          if x == d { assert Dir(d, t) in es + [Dir(d, t)]; } else { KeepsDir(es, Dir(d, t), x); }
        }
        es := es + [Dir(d, t)];
      }
    }

    method Emit() returns (t: Tree)
      requires Valid()
      ensures Emits(node, t)
      decreases repr, 1
    {
      var fs := FileEntries();
      var ds := DirectoryEntries();
      FilesThenDirs(node, fs, ds);
      SortedListingIsEmitted(node, fs + ds);
      t := Tree(SortBy(fs + ds, NameOf));
    }
  }

  lemma OneMore(es: seq<Entry>, e: Entry)
    requires OneEach(es) && forall x :: x in es ==> !SameEntry(x, e)
    ensures OneEach(es + [e])
  {
  }

  lemma KeepsDir(es: seq<Entry>, e: Entry, d: string)
    requires HasDir(es, d)
    ensures HasDir(es + [e], d)
  {
    var x :| x in es && x.Dir? && x.name == d;
    assert x in es + [e];
  }

  lemma FilesThenDirs(n: Node, fs: seq<Entry>, ds: seq<Entry>)
    requires OneEach(fs) && OneEach(ds)
    requires forall e :: e in fs <==> e.File? && e.name in n.files && n.files[e.name] == e.blob
    requires forall e :: e in ds ==> e.Dir? && ListedIn(n, e)
    requires forall d :: d in n.subdirs ==> HasDir(ds, d)
    ensures Lists(n, fs + ds)
  {
    var es := fs + ds;
    forall e | e in es ensures ListedIn(n, e) { assert e in fs || e in ds; }
    forall i, j | 0 <= i < j < |es| ensures !SameEntry(es[i], es[j]) {
      if i < |fs| && j >= |fs| { assert fs[i] in fs && ds[j - |fs|] in ds; }
    }
    forall f | f in n.files ensures File(f, n.files[f]) in es { assert File(f, n.files[f]) in fs; }
    forall d | d in n.subdirs ensures HasDir(es, d) {
      var x :| x in ds && x.Dir? && x.name == d;
      assert x in es;
    }
  }

  // writeTreeRecursive: paths are added in whatever order the map yields them.
  method WriteTree(flat: Files) returns (t: Tree)
    ensures TreeFor(t, flat)
  {
    var root := new Child();
    EmptyRepresents();
    var todo := flat.Keys;
    ghost var done: Files := map[];
    while todo != {}
      invariant todo <= flat.Keys && fresh(root.repr) && root.Valid()
      invariant done.Keys == flat.Keys - todo && forall k :: k in done ==> done[k] == flat[k]
      invariant Represents(root.node, done)
      decreases todo
    {
      var path :| path in todo;
      todo := todo - {path};
      InsertRepresents(root.node, done, path, flat[path]);
      root.Add(Split(path), flat[path]);
      done := done[path := flat[path]];
    }
    assert done == flat;
    t := root.Emit();
  }
}
