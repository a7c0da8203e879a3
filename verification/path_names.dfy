/**
 Which components survive lexical cleaning: the laws that determine filepath.Clean, and
 an account of the surviving names that does not mention the stack.
 */
module PathNames {
  import opened Wire
  import opened Paths

  /** A component that adds a level. */
  predicate Adds(c: string) { c != "" && c != "." && c != ".." }

  // ----- the laws -----

  lemma ReduceSnoc(rooted: bool, cs: seq<string>, c: string)
    ensures Reduce(rooted, cs + [c]) == Push(rooted, Reduce(rooted, cs), c)
  {
    assert (cs + [c])[..|cs|] == cs;
  }

  /** What comes before matters only through what it reduces to. */
  lemma {:induction false} FromThere(rooted: bool, a: seq<string>, a': seq<string>, b: seq<string>)
    requires Reduce(rooted, a) == Reduce(rooted, a')
    ensures Reduce(rooted, a + b) == Reduce(rooted, a' + b)
  {
    if b == [] {
      assert a + b == a && a' + b == a';
    } else {
      var init, c := b[..|b| - 1], b[|b| - 1];
      FromThere(rooted, a, a', init);
      assert a + b == a + init + [c] && a' + b == a' + init + [c];
      ReduceSnoc(rooted, a + init, c);
      ReduceSnoc(rooted, a' + init, c);
    }
  }

  /** A name followed by ".." cancels, and "" and "." can be dropped, wherever they stand. */
  lemma NameCancels(rooted: bool, a: seq<string>, n: string, b: seq<string>)
    requires Adds(n)
    ensures Reduce(rooted, a + [n, ".."] + b) == Reduce(rooted, a + b)
  {
    ReduceSnoc(rooted, a, n);
    ReduceSnoc(rooted, a + [n], "..");
    assert a + [n, ".."] == a + [n] + [".."];
    FromThere(rooted, a + [n, ".."], a, b);
  }

  lemma EmptyDrops(rooted: bool, a: seq<string>, c: string, b: seq<string>)
    requires c == "" || c == "."
    ensures Reduce(rooted, a + [c] + b) == Reduce(rooted, a + b)
  {
    ReduceSnoc(rooted, a, c);
    FromThere(rooted, a + [c], a, b);
  }

  /** At the root ".." leads nowhere. */
  lemma RootHasNoParent(b: seq<string>)
    ensures Reduce(true, [".."] + b) == Reduce(true, b)
  {
    ReduceSnoc(true, [], "..");
    FromThere(true, [".."], [], b);
    assert [] + [".."] == [".."] && [] + b == b;
  }

  // ----- which names survive -----

  lemma {:induction false} LevelCons(c: string, cs: seq<string>)
    ensures Level([c] + cs) == Weight(c) + Level(cs)
    ensures Lowest(cs) <= 0 && Lowest(cs) <= Level(cs)
    ensures Lowest([c] + cs) == if Weight(c) + Lowest(cs) < 0 then Weight(c) + Lowest(cs) else 0
  {
    if cs == [] {
      assert ([c] + cs)[..0] == [] && [c] + cs == [c];
    } else {
      LevelCons(c, cs[..|cs| - 1]);
      assert ([c] + cs)[..|cs|] == [c] + cs[..|cs| - 1];
    }
  }

  /** The names that no later ".." takes back: from where such a name leads, the rest of the path never
      climbs above it. */
  function Survivors(cs: seq<string>): seq<string> {
    if cs == [] then []
    else (if Adds(cs[0]) && Lowest(cs[1..]) == 0 then [cs[0]] else []) + Survivors(cs[1..])
  }

  /** One survivor per level the path ends above its lowest. */
  lemma {:induction false} SurvivorsCount(cs: seq<string>)
    ensures |Survivors(cs)| == Level(cs) - Lowest(cs)
  {
    if cs != [] {
      SurvivorsCount(cs[1..]);
      LevelCons(cs[0], cs[1..]);
      assert cs == [cs[0]] + cs[1..];
    }
  }

  lemma LowestSnoc(cs: seq<string>, c: string)
    ensures Level(cs + [c]) == Level(cs) + Weight(c)
    ensures Lowest(cs + [c]) == if Level(cs) + Weight(c) < Lowest(cs) then Level(cs) + Weight(c) else Lowest(cs)
  {
    assert (cs + [c])[..|cs|] == cs;
  }

  function DropLast(names: seq<string>): seq<string> { if names == [] then [] else names[..|names| - 1] }

  function Head(x: string, t: seq<string>): seq<string> { if Adds(x) && Lowest(t) == 0 then [x] else [] }

  lemma SurvivorsCons(x: string, t: seq<string>)
    ensures Survivors([x] + t) == Head(x, t) + Survivors(t)
  {
    assert ([x] + t)[0] == x && ([x] + t)[1..] == t;
  }

  /** Whether the first name survives changes only where the path climbs from the very level it leads to. */
  lemma HeadSnoc(x: string, t: seq<string>, c: string)
    ensures Head(x, t + [c]) == if c == ".." && Survivors(t) == [] then [] else Head(x, t)
  {
    LowestSnoc(t, c);
    LevelCons(x, t);
    SurvivorsCount(t);
  }

  lemma HeadAndRest(h: seq<string>, rest: seq<string>, c: string)
    requires |h| <= 1
    ensures h + (rest + [c]) == h + rest + [c]
    ensures DropLast(h + rest) == if rest == [] then [] else h + DropLast(rest)
  {}

  lemma {:induction false} SurvivorsSnoc(cs: seq<string>, c: string)
    ensures Survivors(cs + [c]) ==
            if Adds(c) then Survivors(cs) + [c] else if c == ".." then DropLast(Survivors(cs)) else Survivors(cs)
  {
    if cs == [] {
      SurvivorsCons(c, []);
      assert [] + [c] == [c] && [c] + [] == [c];
    } else {
      var x, t := cs[0], cs[1..];
      SurvivorsSnoc(t, c);
      assert cs + [c] == [x] + (t + [c]) && cs == [x] + t;
      SurvivorsCons(x, t + [c]);
      SurvivorsCons(x, t);
      HeadSnoc(x, t, c);
      HeadAndRest(Head(x, t), Survivors(t), c);
    }
  }

  /** n times "..". */
  function Climbs(n: nat): (cs: seq<string>)
    ensures |cs| == n && forall i :: 0 <= i < n ==> cs[i] == ".."
  {
    seq(n, _ => "..")
  }

  /** How far below its start the path gets. */
  function Depth(cs: seq<string>): nat { if Lowest(cs) < 0 then -Lowest(cs) else 0 }

  /** The surviving names, in order, behind one ".." per level below the start; at the root there is
      nothing below. */
  function Kept(rooted: bool, cs: seq<string>): seq<string> { Climbs(if rooted then 0 else Depth(cs)) + Survivors(cs) }

  lemma {:induction false} SurvivorsAdd(cs: seq<string>)
    ensures forall i :: 0 <= i < |Survivors(cs)| ==> Adds(Survivors(cs)[i])
  {
    if cs != [] { SurvivorsAdd(cs[1..]); }
  }

  lemma OnePush(rooted: bool, ups: nat, names: seq<string>, c: string)
    requires (forall i :: 0 <= i < |names| ==> Adds(names[i])) && (rooted ==> ups == 0)
    ensures Push(rooted, Climbs(ups) + names, c) ==
            if Adds(c) then Climbs(ups) + (names + [c])
            else if c != ".." then Climbs(ups) + names
            else if names != [] || rooted then Climbs(ups) + DropLast(names)
            else Climbs(ups + 1) + []
  {}

  /** A path gets one level deeper exactly when it climbs with no name left to take back. */
  lemma DepthSnoc(cs: seq<string>, c: string)
    ensures Depth(cs + [c]) == Depth(cs) + if c == ".." && Survivors(cs) == [] then 1 else 0
  {
    SurvivorsCount(cs);
    LowestSnoc(cs, c);
    LevelCons(c, cs);
  }

  lemma KeptSnoc(rooted: bool, cs: seq<string>, c: string)
    ensures Kept(rooted, cs + [c]) == Push(rooted, Kept(rooted, cs), c)
  {
    DepthSnoc(cs, c);
    SurvivorsSnoc(cs, c);
    SurvivorsAdd(cs);
    OnePush(rooted, if rooted then 0 else Depth(cs), Survivors(cs), c);
  }

  /** Cleaning keeps exactly those. */
  lemma {:induction false} ReduceKeepsSurvivors(rooted: bool, cs: seq<string>)
    ensures Reduce(rooted, cs) == Kept(rooted, cs)
  {
    if cs == [] {
      assert Climbs(0) == [];
    } else {
      ReduceKeepsSurvivors(rooted, cs[..|cs| - 1]);
      KeptSnoc(rooted, cs[..|cs| - 1], cs[|cs| - 1]);
      assert cs == cs[..|cs| - 1] + [cs[|cs| - 1]];
    }
  }

  // ----- the same about whole paths -----

  /** Cleaning, without the stack. */
  lemma CleanKeepsSurvivors(p: string)
    ensures var kept := Kept(Rooted(p), Split(p));
            Clean(p) == if Rooted(p) then "/" + Join(kept) else if kept == [] then "." else Join(kept)
  {
    ReduceKeepsSurvivors(Rooted(p), Split(p));
  }

  /** The components of an accepted path are the survivors of the given one. */
  lemma NormalizeKeepsSurvivors(p: string)
    requires Normalize(p).Some?
    ensures Split(Normalize(p).value) == Survivors(Split(Slashed(p)))
  {
    var q := Slashed(p);
    NormalizeRejectsExactly(p);
    JoinOfSplit(q);
    LevelCons("", Split(q));
    ReduceKeepsSurvivors(false, Split(q));
    ReduceIsReduced(false, Split(q));
    OnlySurvivors(Split(q));
    CleanJoined(Survivors(Split(q)));
  }

  lemma OnlySurvivors(cs: seq<string>)
    requires Lowest(cs) == 0 && Level(cs) > 0
    ensures Kept(false, cs) == Survivors(cs) != []
  {
    SurvivorsCount(cs);
    assert Climbs(0) == [] && [] + Survivors(cs) == Survivors(cs);
  }

  ghost predicate AllPlain(cs: seq<string>) { forall c :: c in cs ==> Plain(c) && '\\' !in c }

  lemma {:induction false} NoBackslash(cs: seq<string>)
    requires AllPlain(cs)
    ensures Slashed(Join(cs)) == Join(cs)
  {
    JoinChars(cs, '\\');
  }

  /** A directory that is entered and left again can be cut out of a path, unless that changes where the
      path starts. */
  lemma EnteredAndLeft(a: seq<string>, n: string, b: seq<string>)
    requires AllPlain(a + [n] + b) && Adds(n) && a + b != []
    requires Rooted(Join(a + [n, ".."] + b)) == Rooted(Join(a + b))
    ensures Clean(Join(a + [n, ".."] + b)) == Clean(Join(a + b))
    ensures Normalize(Join(a + [n, ".."] + b)) == Normalize(Join(a + b))
  {
    var long, short := a + [n, ".."] + b, a + b;
    forall c | c in long ensures Plain(c) && '\\' !in c { assert c == ".." || c in a + [n] + b; }
    forall c | c in short ensures Plain(c) && '\\' !in c { assert c in a + [n] + b; }
    SplitOfJoin(long);
    SplitOfJoin(short);
    NameCancels(Rooted(Join(short)), a, n, b);
    NoBackslash(long);
    NoBackslash(short);
  }

  lemma JoinCons(c: string, rest: seq<string>)
    requires rest != []
    ensures Join([c] + rest) == c + "/" + Join(rest)
  {
    assert ([c] + rest)[1..] == rest;
  }

  lemma JoinedExamples()
    ensures Join(["a"] + ["b", ".."] + ["c"]) == "a/b/../c" && Join(["a"] + ["c"]) == "a/c"
  {
    JoinCons("..", ["c"]);
    JoinCons("b", [".."] + ["c"]);
    JoinCons("a", ["b"] + ([".."] + ["c"]));
    JoinCons("a", ["c"]);
    assert ["a"] + ["b", ".."] + ["c"] == ["a"] + (["b"] + ([".."] + ["c"]));
  }

  lemma ShortIsProper()
    ensures Normalize("a/c") == Some("a/c")
  {
    JoinedExamples();
    SplitOfJoin(["a"] + ["c"]);
    ProperIsFixed("a/c");
  }

  /** So ".." takes back the name right before it. */
  lemma LastNameGoes()
    ensures Normalize("a/b/../c") == Some("a/c")
  {
    JoinedExamples();
    EnteredAndLeft(["a"], "b", ["c"]);
    ShortIsProper();
  }
}
