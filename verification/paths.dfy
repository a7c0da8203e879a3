/**
 Slash-separated paths: the lexical cleaning that Go's filepath.Clean documents,
 the workspace's normalizePath (relay/internal/workspace/workspace.go) and the
 builder's path guard (relay/internal/sandbox/docker.go).
 */
module Paths {
  import opened Wire

  predicate Plain(c: string) { '/' !in c }

  function Split(s: string): (r: seq<string>)
    ensures |r| >= 1
  {
    if s == [] then [""]
    else
      var r := Split(s[1..]);
      if s[0] == '/' then [""] + r else [[s[0]] + r[0]] + r[1..]
  }

  function Join(cs: seq<string>): string {
    if cs == [] then "" else if |cs| == 1 then cs[0] else cs[0] + "/" + Join(cs[1..])
  }

  lemma {:induction false} JoinOfSplit(s: string)
    ensures Join(Split(s)) == s && forall c :: c in Split(s) ==> Plain(c)
  {
    if s != [] {
      JoinOfSplit(s[1..]);
      var r := Split(s[1..]);
      if s[0] == '/' {
        assert ([""] + r)[1..] == r;
        assert "" + "/" + s[1..] == s;
      } else {
        assert forall c :: c in r[1..] ==> c in r;
        assert r[0] in r;
        if |r| > 1 { assert ([[s[0]] + r[0]] + r[1..])[1..] == r[1..]; }
        assert [s[0]] + s[1..] == s;
      }
    }
  }

  lemma {:induction false} SplitPlain(c: string)
    requires Plain(c)
    ensures Split(c) == [c]
  {
    if c != [] {
      SplitPlain(c[1..]);
      assert [c[0]] + c[1..] == c;
    }
  }

  lemma {:induction false} SplitConcat(c: string, s: string)
    requires Plain(c)
    ensures Split(c + "/" + s) == [c] + Split(s)
  {
    if c == [] {
      assert (c + "/" + s)[1..] == s;
    } else {
      assert (c + "/" + s)[1..] == c[1..] + "/" + s;
      SplitConcat(c[1..], s);
      assert [c[0]] + c[1..] == c;
    }
  }

  lemma {:induction false} SplitOfJoin(cs: seq<string>)
    requires cs != [] && forall c :: c in cs ==> Plain(c)
    ensures Split(Join(cs)) == cs
  {
    if |cs| == 1 {
      SplitPlain(cs[0]);
    } else {
      SplitOfJoin(cs[1..]);
      SplitConcat(cs[0], Join(cs[1..]));
    }
  }

  // ----- lexical cleaning -----

  /** One more component: "" and "." add nothing, ".." takes back a name, stays at the root, or climbs. */
  function Push(rooted: bool, st: seq<string>, c: string): seq<string> {
    if c == "" || c == "." then st
    else if c != ".." then st + [c]
    else if st != [] && st[|st| - 1] != ".." then st[..|st| - 1]
    else if rooted then st
    else st + [".."]
  }

  function Reduce(rooted: bool, cs: seq<string>): seq<string> {
    if cs == [] then [] else Push(rooted, Reduce(rooted, cs[..|cs| - 1]), cs[|cs| - 1])
  }

  predicate Rooted(p: string) { p != [] && p[0] == '/' }

  /** filepath.Clean with "/" as the separator. */
  function Clean(p: string): string {
    var out := Reduce(Rooted(p), Split(p));
    if Rooted(p) then "/" + Join(out) else if out == [] then "." else Join(out)
  }

  predicate Name(c: string) { c != "" && c != "." && c != ".." && Plain(c) }

  /** Leading ".." components, none if rooted, and then names. */
  predicate Reduced(rooted: bool, cs: seq<string>) {
    forall i :: 0 <= i < |cs| ==>
      Name(cs[i]) || (cs[i] == ".." && !rooted && forall j :: 0 <= j < i ==> cs[j] == "..")
  }

  lemma {:induction false} ReduceIsReduced(rooted: bool, cs: seq<string>)
    requires forall c :: c in cs ==> Plain(c)
    ensures Reduced(rooted, Reduce(rooted, cs))
  {
    if cs != [] {
      assert forall c :: c in cs[..|cs| - 1] ==> c in cs;
      ReduceIsReduced(rooted, cs[..|cs| - 1]);
    }
  }

  lemma {:induction false} ReduceFixes(rooted: bool, cs: seq<string>)
    requires Reduced(rooted, cs)
    ensures Reduce(rooted, cs) == cs
  {
    if cs != [] {
      var init := cs[..|cs| - 1];
      ReduceFixes(rooted, init);
      assert cs == init + [cs[|cs| - 1]];
    }
  }

  lemma ReducedIsPlain(rooted: bool, cs: seq<string>)
    requires Reduced(rooted, cs)
    ensures forall c :: c in cs ==> Plain(c)
  {
    forall c | c in cs ensures Plain(c) {
      var i :| 0 <= i < |cs| && cs[i] == c;
    }
  }

  lemma {:induction false} FirstOfJoin(cs: seq<string>)
    requires cs != [] && cs[0] != ""
    ensures Join(cs) != "" && Join(cs)[0] == cs[0][0]
  {
  }

  lemma SplitHead(p: string)
    requires Rooted(p)
    ensures Split(p) == [""] + Split(p[1..])
  {
  }

  lemma {:induction false} ReduceDropsEmptyHead(rooted: bool, cs: seq<string>)
    ensures Reduce(rooted, [""] + cs) == Reduce(rooted, cs)
  {
    if cs == [] {
      assert ([""] + cs)[..0] == [] && [""] + cs == [""];
    } else {
      var init, c := cs[..|cs| - 1], cs[|cs| - 1];
      ReduceDropsEmptyHead(rooted, init);
      var longer := [""] + cs;
      assert longer[..|longer| - 1] == [""] + init && longer[|longer| - 1] == c;
    }
  }

  /** Cleaning a joined reduced list gives it back, so cleaning twice is cleaning once. */
  lemma CleanJoined(cs: seq<string>)
    requires Reduced(false, cs) && cs != []
    ensures !Rooted(Join(cs)) && Split(Join(cs)) == cs && Clean(Join(cs)) == Join(cs)
  {
    ReducedIsPlain(false, cs);
    SplitOfJoin(cs);
    FirstOfJoin(cs);
    assert cs[0] in cs && cs[0][0] in cs[0];
    ReduceFixes(false, cs);
  }

  lemma CleanRooted(cs: seq<string>)
    requires Reduced(true, cs)
    ensures Clean("/" + Join(cs)) == "/" + Join(cs)
  {
    var p := "/" + Join(cs);
    assert p[1..] == Join(cs);
    SplitHead(p);
    if cs == [] {
      assert Split("") == [""];
      ReduceDropsEmptyHead(true, [""]);
      ReduceDropsEmptyHead(true, []);
    } else {
      ReducedIsPlain(true, cs);
      SplitOfJoin(cs);
      ReduceDropsEmptyHead(true, cs);
      ReduceFixes(true, cs);
    }
  }

  lemma CleanIsIdempotent(p: string)
    ensures Clean(Clean(p)) == Clean(p)
  {
    JoinOfSplit(p);
    ReduceIsReduced(Rooted(p), Split(p));
    var out := Reduce(Rooted(p), Split(p));
    if Rooted(p) {
      CleanRooted(out);
    } else if out == [] {
      SplitPlain(".");
      assert [["."][0]][..0] == [];
      assert Reduce(false, ["."]) == Reduce(false, ["."][..0]);
    } else {
      CleanJoined(out);
    }
  }

  // ----- levels: an independent account of where a path leads -----

  function Weight(c: string): int {
    if c == "" || c == "." then 0 else if c == ".." then -1 else 1
  }

  /** The directory level after walking the components, starting at 0. */
  function Level(cs: seq<string>): int {
    if cs == [] then 0 else Level(cs[..|cs| - 1]) + Weight(cs[|cs| - 1])
  }

  /** The lowest level reached on the way. */
  function Lowest(cs: seq<string>): int {
    if cs == [] then 0
    else
      var l := Lowest(cs[..|cs| - 1]);
      if Level(cs) < l then Level(cs) else l
  }

  function Ups(cs: seq<string>): nat {
    if cs == [] || cs[0] != ".." then 0 else 1 + Ups(cs[1..])
  }

  lemma {:induction false} UpsSnoc(cs: seq<string>, c: string)
    ensures Ups(cs + [c]) == if Ups(cs) == |cs| && c == ".." then |cs| + 1 else Ups(cs)
    ensures Ups(cs) <= |cs|
  {
    if cs != [] {
      assert (cs + [c])[1..] == cs[1..] + [c];
      UpsSnoc(cs[1..], c);
    } else {
      assert (cs + [c])[1..] == [];
    }
  }

  lemma {:induction false} UpsBounded(cs: seq<string>)
    ensures Ups(cs) <= |cs|
    ensures forall i :: 0 <= i < Ups(cs) ==> cs[i] == ".."
    ensures Ups(cs) < |cs| ==> cs[Ups(cs)] != ".."
  {
    if cs != [] && cs[0] == ".." {
      UpsBounded(cs[1..]);
      forall i | 0 <= i < Ups(cs) ensures cs[i] == ".." {
        if i > 0 { assert cs[1..][i - 1] == ".."; }
      }
    }
  }

  /** A relative path cleans to one ".." per level below the start, then one name per level it ends above its lowest. */
  lemma {:induction false} ReduceByLevels(cs: seq<string>)
    requires forall c :: c in cs ==> Plain(c)
    ensures Lowest(cs) <= 0 && Lowest(cs) <= Level(cs)
    ensures Ups(Reduce(false, cs)) == -Lowest(cs)
    ensures |Reduce(false, cs)| == Level(cs) - 2 * Lowest(cs)
  {
    if cs != [] {
      var init, c := cs[..|cs| - 1], cs[|cs| - 1];
      assert forall x :: x in init ==> x in cs;
      ReduceByLevels(init);
      ReduceIsReduced(false, init);
      var st := Reduce(false, init);
      UpsSnoc(st, c);
      UpsBounded(st);
      if c == ".." {
        if st != [] && st[|st| - 1] != ".." {
          assert st == st[..|st| - 1] + [st[|st| - 1]];
          UpsSnoc(st[..|st| - 1], st[|st| - 1]);
          assert Ups(st) < |st|;
        } else if st != [] {
          assert forall j :: 0 <= j < |st| ==> st[j] == "..";
        }
      }
    }
  }

  // ----- normalizePath -----

  function Slashed(p: string): (q: string)
    ensures |q| == |p| && forall i :: 0 <= i < |p| ==> q[i] == if p[i] == '\\' then '/' else p[i]
  {
    if p == [] then [] else [if p[0] == '\\' then '/' else p[0]] + Slashed(p[1..])
  }

  predicate HasPrefix(s: string, prefix: string) { prefix <= s }

  function Normalize(p: string): Option<string> {
    if p == "" then None
    else
      var q := Clean(Slashed(p));
      if HasPrefix(q, "/") || HasPrefix(q, "../") || q == ".." || q == "." then None else Some(q)
  }

  /** A workspace path: one or more names, no backslash. */
  predicate ProperPath(q: string) {
    '\\' !in q && forall c :: c in Split(q) ==> Name(c)
  }

  lemma {:induction false} JoinChars(cs: seq<string>, x: char)
    requires x != '/'
    ensures x in Join(cs) <==> exists c :: c in cs && x in c
  {
    if cs != [] {
      JoinChars(cs[1..], x);
      if |cs| > 1 { assert cs == [cs[0]] + cs[1..]; }
      if exists c :: c in cs && x in c {
        var c :| c in cs && x in c;
        if c != cs[0] { assert c in cs[1..]; }
      }
    }
  }

  lemma {:induction false} ReduceChars(rooted: bool, cs: seq<string>)
    ensures forall c :: c in Reduce(rooted, cs) ==> c in cs
  {
    if cs != [] {
      var init, c := cs[..|cs| - 1], cs[|cs| - 1];
      ReduceChars(rooted, init);
      assert forall x :: x in init ==> x in cs;
      forall x | x in Push(rooted, Reduce(rooted, init), c) ensures x in Reduce(rooted, init) || x == c {}
    }
  }

  lemma CleanChars(p: string, x: char)
    requires x !in p && x != '/' && x != '.'
    ensures x !in Clean(p)
  {
    var cs := Split(p);
    JoinOfSplit(p);
    JoinChars(cs, x);
    ReduceChars(Rooted(p), cs);
    JoinChars(Reduce(Rooted(p), cs), x);
  }

  /** The cleaned relative path is rejected by its shape exactly when it climbs or goes nowhere. */
  lemma RejectedShape(cs: seq<string>)
    requires Reduced(false, cs)
    ensures var q := if cs == [] then "." else Join(cs);
            && !HasPrefix(q, "/")
            && (HasPrefix(q, "../") || q == ".." || q == "." <==> cs == [] || cs[0] == "..")
  {
    if cs != [] {
      CleanJoined(cs);
      var q := Join(cs);
      SplitPlain(".");
      assert q != ".";
      if |cs| > 1 {
        var rest := Join(cs[1..]);
        assert q == cs[0] + "/" + rest;
        if HasPrefix(q, "../") {
          assert q == ".." + "/" + q[3..];
          SplitConcat("..", q[3..]);
        }
        if cs[0] == ".." { assert q[..3] == "../"; }
        if q == ".." { SplitPlain(".."); }
      } else {
        SlashOfPrefix(q);
      }
    } else {
      SameStart(".", "/");
    }
  }

  lemma SameStart(s: string, prefix: string)
    requires prefix != ""
    ensures HasPrefix(s, prefix) ==> s != "" && s[0] == prefix[0]
  {}

  lemma SlashOfPrefix(q: string)
    ensures HasPrefix(q, "../") ==> '/' in q
  {
    if HasPrefix(q, "../") { assert q[2] == '/'; }
  }

  /** Which paths are refused: the empty one, rooted ones, and those that at some point climb
      above the workspace or end where they started. */
  lemma NormalizeRejectsExactly(p: string)
    ensures Normalize(p) == None <==>
            p == "" || Rooted(Slashed(p)) || Lowest(Split(Slashed(p))) < 0 || Level(Split(Slashed(p))) == 0
  {
    if p != "" {
      var q := Slashed(p);
      var cs := Split(q);
      JoinOfSplit(q);
      if Rooted(q) {
        assert HasPrefix(Clean(q), "/");
      } else {
        var out := Reduce(false, cs);
        ReduceIsReduced(false, cs);
        ReduceByLevels(cs);
        RejectedShape(out);
        UpsBounded(out);
      }
    }
  }

  /** What is accepted is made of names only, and cleaning it again changes nothing. */
  lemma NormalizeYieldsProper(p: string)
    requires Normalize(p).Some?
    ensures ProperPath(Normalize(p).value) && Normalize(Normalize(p).value) == Normalize(p)
  {
    var q := Slashed(p);
    JoinOfSplit(q);
    ReduceIsReduced(Rooted(q), Split(q));
    if Rooted(q) { assert HasPrefix(Clean(q), "/"); assert false; }
    var out := Reduce(false, Split(q));
    RejectedShape(out);
    CleanJoined(out);
    CleanChars(q, '\\');
    ProperIsFixed(Join(out));
  }

  /** The accepted results are exactly the proper paths: each is its own normal form. */
  lemma ProperIsFixed(q: string)
    requires ProperPath(q)
    ensures Normalize(q) == Some(q)
  {
    var cs := Split(q);
    JoinOfSplit(q);
    assert Reduced(false, cs) by {
      forall i | 0 <= i < |cs| ensures Name(cs[i]) { assert cs[i] in cs; }
    }
    CleanJoined(cs);
    RejectedShape(cs);
    assert Slashed(q) == q;
    assert cs[0] in cs;
    FirstOfJoin(cs);
  }

  // ----- the builder's guard -----

  function Len(cs: seq<string>): nat {
    if cs == [] then 0 else Len(cs[..|cs| - 1]) + |cs[|cs| - 1]| + 1
  }

  lemma {:induction false} LenOfJoin(cs: seq<string>)
    ensures |Join(cs)| + (if cs == [] then 0 else 1) == Len(cs)
  {
    if |cs| > 1 {
      LenOfJoin(cs[1..]);
      LenCons(cs[0], cs[1..]);
      assert cs == [cs[0]] + cs[1..];
    } else if |cs| == 1 {
      assert cs[..0] == [];
    }
  }

  lemma {:induction false} LenCons(c: string, cs: seq<string>)
    ensures Len([c] + cs) == |c| + 1 + Len(cs)
  {
    if cs == [] {
      assert ([c] + cs)[..0] == [];
    } else {
      assert ([c] + cs)[..|cs|] == [c] + cs[..|cs| - 1];
      LenCons(c, cs[..|cs| - 1]);
    }
  }

  lemma {:induction false} ReduceShrinks(rooted: bool, cs: seq<string>)
    ensures Len(Reduce(rooted, cs)) <= Len(cs)
  {
    if cs != [] {
      ReduceShrinks(rooted, cs[..|cs| - 1]);
      var st, c := Reduce(rooted, cs[..|cs| - 1]), cs[|cs| - 1];
      assert (st + [c])[..|st|] == st;
      assert (st + [".."])[..|st|] == st;
    }
  }

  /** Cleaning never lengthens a non-empty path, so the guard's loop shortens its path each round. */
  lemma CleanShrinks(p: string)
    requires p != ""
    ensures 1 <= |Clean(p)| <= |p|
  {
    var cs := Split(p);
    var out := Reduce(Rooted(p), cs);
    JoinOfSplit(p);
    LenOfJoin(cs);
    LenOfJoin(out);
    ReduceShrinks(Rooted(p), cs);
    if Rooted(p) {
      SplitHead(p);
      ReduceDropsEmptyHead(true, Split(p[1..]));
      ReduceShrinks(true, Split(p[1..]));
      LenCons("", Split(p[1..]));
    }
    ReduceIsReduced(Rooted(p), cs);
    if !Rooted(p) && out != [] { FirstOfJoin(out); }
  }

  /** The position after the last slash, 0 if there is none. */
  function Base(p: string): (i: nat)
    ensures i <= |p| && Plain(p[i..]) && (i > 0 ==> p[i - 1] == '/')
  {
    if p == [] then 0
    else if p[|p| - 1] == '/' then |p|
    else
      var i := Base(p[..|p| - 1]);
      assert p[i..] == p[..|p| - 1][i..] + [p[|p| - 1]];
      i
  }

  lemma {:induction false} SplitAtBase(p: string)
    requires Base(p) > 0
    ensures Split(p) == Split(p[..Base(p) - 1]) + [p[Base(p)..]]
  {
    var i := Base(p);
    assert p == p[..i - 1] + "/" + p[i..];
    SplitMiddle(p[..i - 1], p[i..]);
  }

  lemma {:induction false} SplitMiddle(a: string, c: string)
    requires Plain(c)
    ensures Split(a + "/" + c) == Split(a) + [c]
  {
    if a == [] {
      assert (a + "/" + c)[1..] == c;
      SplitPlain(c);
    } else {
      assert (a + "/" + c)[1..] == a[1..] + "/" + c;
      SplitMiddle(a[1..], c);
    }
  }

  lemma {:induction false} SplitEndsInSlash(a: string)
    ensures Split(a + "/") == Split(a) + [""]
  {
    SplitMiddle(a, "");
    assert a + "/" + "" == a + "/";
  }

  /** The directory part of a cleaned path is cleaned, and ".." is among its components or the last one
      exactly when it is among the path's. */
  lemma DirOfClean(p: string)
    requires Clean(p) == p && 0 < Base(p) < |p|
    ensures var d := Clean(Clean(p[..Base(p)]));
            && Clean(d) == d
            && (".." in Split(p) <==> ".." in Split(d) || p[Base(p)..] == "..")
  {
    var dir := p[..Base(p)];
    CleanIsIdempotent(dir);
    if Rooted(p) {
      assert Rooted(dir) && Rooted(Clean(dir));
      CleanRootedHasNoUps(p);
      CleanRootedHasNoUps(Clean(dir));
      SplitAtBase(p);
      assert p[Base(p)..] in Split(p);
    } else {
      DirOfRelative(p);
    }
  }

  /** The directory part of a cleaned relative path has all components but the last. */
  lemma DirOfRelative(p: string)
    requires Clean(p) == p && 0 < Base(p) < |p| && !Rooted(p)
    ensures Split(p) == Split(Clean(p[..Base(p)])) + [p[Base(p)..]]
  {
    var i := Base(p);
    SplitAtBase(p);
    CleanRelativeSplit(p);
    PrefixReduced(Split(p[..i - 1]), p[i..]);
    WithoutBase(p, i);
    CleanWithSlash(p[..i - 1]);
  }

  lemma PrefixReduced(cs: seq<string>, c: string)
    requires Reduced(false, cs + [c])
    ensures Reduced(false, cs)
  {
    forall i | 0 <= i < |cs| ensures Name(cs[i]) || (cs[i] == ".." && forall j :: 0 <= j < i ==> cs[j] == "..") {
      assert (cs + [c])[i] == cs[i];
      assert forall j :: 0 <= j < i ==> (cs + [c])[j] == cs[j];
    }
  }

  lemma WithoutBase(p: string, i: nat)
    requires 0 < i <= |p| && p[i - 1] == '/'
    ensures p[..i] == p[..i - 1] + "/"
  {
  }

  lemma CleanWithSlash(a: string)
    requires Reduced(false, Split(a)) && !Rooted(a + "/")
    ensures Split(Clean(a + "/")) == Split(a)
  {
    var cs := Split(a);
    SplitEndsInSlash(a);
    ReduceSkipsEmptyTail(cs);
    ReduceFixes(false, cs);
    CleanJoined(cs);
  }

  lemma ReduceSkipsEmptyTail(cs: seq<string>)
    ensures Reduce(false, cs + [""]) == Reduce(false, cs)
  {
    assert (cs + [""])[..|cs|] == cs;
  }

  /** A cleaned relative path that has a slash splits into its reduced components. */
  lemma CleanRelativeSplit(p: string)
    requires Clean(p) == p && 0 < Base(p) && !Rooted(p)
    ensures Reduced(false, Split(p)) && |Split(p)| > 1 && p[Base(p)..] != ""
  {
    var out := Reduce(false, Split(p));
    JoinOfSplit(p);
    ReduceIsReduced(false, Split(p));
    SplitAtBase(p);
    if out == [] { assert false; }
    CleanJoined(out);
    assert out[|out| - 1] == p[Base(p)..];
  }

  lemma CleanRootedHasNoUps(p: string)
    requires Clean(p) == p && Rooted(p)
    ensures ".." !in Split(p)
  {
    JoinOfSplit(p);
    var out := Reduce(true, Split(p));
    ReduceIsReduced(true, Split(p));
    RootedHasNoUps(out);
    assert p[1..] == Join(out);
    SplitHead(p);
    if out == [] { assert Split("") == [""]; } else { ReducedIsPlain(true, out); SplitOfJoin(out); }
  }

  lemma RootedHasNoUps(cs: seq<string>)
    requires Reduced(true, cs)
    ensures ".." !in cs
  {
    forall c | c in cs ensures c != ".." {
      var i :| 0 <= i < |cs| && cs[i] == c;
    }
  }

  /** hasParentTraversal: terminates on every string, and on a cleaned path decides whether some component is "..". */
  method HasParentTraversal(path: string) returns (found: bool)
    ensures Clean(path) == path ==> (found <==> ".." in Split(path))
  {
    var p := path;
    while true
      invariant Clean(path) == path ==> Clean(p) == p && (".." in Split(path) <==> ".." in Split(p))
      decreases |p|
    {
      var i := Base(p);
      var dir, last := p[..i], p[i..];
      if last == ".." {
        if i == 0 { SplitPlain(p); assert p == p[0..]; } else { SplitAtBase(p); }
        return true;
      }
      if dir == "" || dir == p {
        if Clean(path) == path { NoDirNoUps(p); }
        return false;
      }
      if Clean(p) == p { DirOfClean(p); }
      CleanShrinks(dir);
      CleanShrinks(Clean(dir));
      p := Clean(Clean(dir));
    }
  }

  lemma NoDirNoUps(p: string)
    requires Clean(p) == p && p[Base(p)..] != ".." && (Base(p) == 0 || Base(p) == |p|)
    ensures ".." !in Split(p)
  {
    if Base(p) == 0 {
      assert p[0..] == p;
      SplitPlain(p);
    } else {
      if Rooted(p) {
        CleanRootedHasNoUps(p);
      } else {
        CleanRelativeSplit(p);
        assert false;
      }
    }
  }

  /** isCleanRelPath. */
  method IsCleanRelPath(p: string) returns (ok: bool)
    ensures ok <==> p != "" && !Rooted(p) && Lowest(Split(p)) == 0 && Level(Split(p)) > 0
  {
    if p == "" || Rooted(p) { return false; }
    var cleaned := Clean(p);
    JoinOfSplit(p);
    ReduceByLevels(Split(p));
    ReduceIsReduced(false, Split(p));
    var out := Reduce(false, Split(p));
    RejectedShape(out);
    UpsBounded(out);
    if cleaned == ".." || cleaned == "." {
      return false;
    }
    CleanIsIdempotent(p);
    CleanJoined(out);
    var climbs := HasParentTraversal(cleaned);
    if ".." in out { assert Ups(out) > 0 by { var i :| 0 <= i < |out| && out[i] == ".."; assert out[0] == ".."; } }
    ok := !climbs;
  }

  /** The builder accepts every path the workspace can hold. */
  lemma ProperPathsPassTheGuard(q: string)
    requires ProperPath(q)
    ensures q != "" && !Rooted(q) && Lowest(Split(q)) == 0 && Level(Split(q)) > 0
  {
    ProperIsFixed(q);
    assert Slashed(q) == q;
    NormalizeRejectsExactly(q);
    JoinOfSplit(q);
    ReduceByLevels(Split(q));
  }
}
