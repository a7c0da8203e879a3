/** Byte-wise string order and sorted lists of distinct names. */
module Order {

  predicate Less(a: string, b: string) {
    b != [] && (a == [] || a[0] < b[0] || (a[0] == b[0] && Less(a[1..], b[1..])))
  }

  predicate AtMost(a: string, b: string) { !Less(b, a) }

  lemma {:induction false} Trichotomy(a: string, b: string)
    ensures Less(a, b) || a == b || Less(b, a)
    ensures !(Less(a, b) && Less(b, a)) && (a == b ==> !Less(a, b))
  {
    if a != [] && b != [] && a[0] == b[0] {
      Trichotomy(a[1..], b[1..]);
      if a[1..] == b[1..] {
        assert a == [a[0]] + a[1..] && b == [b[0]] + b[1..];
      }
    }
  }

  /** The first place where two strings differ decides, and a proper prefix comes first. */
  lemma {:induction false} LessMeans(a: string, b: string)
    ensures Less(a, b) <==> a < b || exists k :: 0 <= k < |a| && k < |b| && a[..k] == b[..k] && a[k] < b[k]
  {
    if a != [] && b != [] {
      LessMeans(a[1..], b[1..]);
      if a[0] == b[0] {
        assert a < b <==> a[1..] < b[1..] by { SameHead(a, b); }
        forall k | 0 < k < |a| && k < |b| ensures a[..k] == b[..k] <==> a[1..][..k - 1] == b[1..][..k - 1] {
          SameHead(a[..k], b[..k]);
          assert a[..k][1..] == a[1..][..k - 1] && b[..k][1..] == b[1..][..k - 1];
        }
        LaterPlace(a, b);
      } else {
        FirstPlace(a, b);
      }
    }
  }

  lemma SameHead(a: string, b: string)
    requires a != [] && b != [] && a[0] == b[0]
    ensures a < b <==> a[1..] < b[1..]
    ensures a == b <==> a[1..] == b[1..]
  {
    assert a == [a[0]] + a[1..] && b == [b[0]] + b[1..];
  }

  lemma FirstPlace(a: string, b: string)
    requires a != [] && b != [] && a[0] != b[0]
    ensures !(a < b)
    ensures a[0] < b[0] <==> exists k :: 0 <= k < |a| && k < |b| && a[..k] == b[..k] && a[k] < b[k]
  {
    assert a[..0] == b[..0];
    forall k | 0 < k < |a| && k < |b| ensures a[..k] != b[..k] { assert a[..k][0] != b[..k][0]; }
  }

  lemma LaterPlace(a: string, b: string)
    requires a != [] && b != [] && a[0] == b[0]
    requires forall k :: 0 < k < |a| && k < |b| ==> (a[..k] == b[..k] <==> a[1..][..k - 1] == b[1..][..k - 1])
    ensures (exists k :: 0 <= k < |a| && k < |b| && a[..k] == b[..k] && a[k] < b[k]) <==>
            (exists k :: 0 <= k < |a[1..]| && k < |b[1..]| && a[1..][..k] == b[1..][..k] && a[1..][k] < b[1..][k])
  {
    if k :| 0 <= k < |a| && k < |b| && a[..k] == b[..k] && a[k] < b[k] {
      assert a[1..][..k - 1] == b[1..][..k - 1] && a[1..][k - 1] < b[1..][k - 1];
    }
    if k :| 0 <= k < |a[1..]| && k < |b[1..]| && a[1..][..k] == b[1..][..k] && a[1..][k] < b[1..][k] {
      assert a[..k + 1] == b[..k + 1] && a[k + 1] < b[k + 1];
    }
  }

  lemma {:induction false} Transitive(a: string, b: string, c: string)
    requires Less(a, b) && Less(b, c)
    ensures Less(a, c)
  {
    if a != [] && a[0] == b[0] && b[0] == c[0] {
      Transitive(a[1..], b[1..], c[1..]);
    }
  }

  lemma AtMostTransitive(a: string, b: string, c: string)
    requires AtMost(a, b) && AtMost(b, c)
    ensures AtMost(a, c)
  {
    Trichotomy(a, b);
    Trichotomy(b, c);
    if Less(c, a) {
      if a == b { Trichotomy(b, c); } else { Transitive(c, a, b); Trichotomy(b, c); }
    }
  }

  ghost predicate Ascending(names: seq<string>) {
    forall i, j :: 0 <= i < j < |names| ==> Less(names[i], names[j])
  }

  ghost predicate Sorted(names: seq<string>) {
    forall i, j :: 0 <= i < j < |names| ==> AtMost(names[i], names[j])
  }

  lemma SortedAndDistinctIsAscending(names: seq<string>)
    requires Sorted(names)
    requires forall i, j :: 0 <= i < j < |names| ==> names[i] != names[j]
    ensures Ascending(names)
  {
    forall i, j | 0 <= i < j < |names| ensures Less(names[i], names[j]) {
      Trichotomy(names[i], names[j]);
    }
  }

  /** A set of names has one ascending list. */
  lemma {:induction false} AscendingIsUnique(xs: seq<string>, ys: seq<string>)
    requires Ascending(xs) && Ascending(ys)
    requires forall n :: n in xs <==> n in ys
    ensures xs == ys
  {
    NoneInEmpty(xs, ys);
    NoneInEmpty(ys, xs);
    if xs != [] {
      assert xs[0] in xs;
      assert ys[0] in ys;
      assert xs[0] == ys[0] by { FirstsAgree(xs, ys); }
      forall n ensures n in xs[1..] <==> n in ys[1..] {
        TailMembers(xs, n);
        TailMembers(ys, n);
      }
      AscendingIsUnique(xs[1..], ys[1..]);
    }
  }

  lemma NoneInEmpty(xs: seq<string>, ys: seq<string>)
    requires forall n :: n in xs ==> n in ys
    ensures ys == [] ==> xs == []
  {
    if xs != [] { assert xs[0] in ys; }
  }

  lemma FirstsAgree(xs: seq<string>, ys: seq<string>)
    requires Ascending(xs) && Ascending(ys) && xs != [] && ys != []
    requires xs[0] in ys && ys[0] in xs
    ensures xs[0] == ys[0]
  {
    var i :| 0 <= i < |ys| && ys[i] == xs[0];
    var j :| 0 <= j < |xs| && xs[j] == ys[0];
    if i > 0 && j > 0 {
      Trichotomy(xs[0], ys[0]);
    }
  }

  lemma TailMembers(xs: seq<string>, n: string)
    requires xs != [] && Ascending(xs)
    ensures n in xs[1..] <==> n in xs && n != xs[0]
  {
    if n in xs[1..] {
      var i :| 0 <= i < |xs[1..]| && xs[1..][i] == n;
      Trichotomy(xs[0], xs[i + 1]);
    }
    if n in xs && n != xs[0] {
      var i :| 0 <= i < |xs| && xs[i] == n;
      assert xs[1..][i - 1] == n;
    }
  }

  // ----- sort.Slice and sort.Strings -----

  ghost predicate SortedBy<T>(xs: seq<T>, key: T -> string) {
    forall i, j :: 0 <= i < j < |xs| ==> AtMost(key(xs[i]), key(xs[j]))
  }

  function InsertBy<T>(xs: seq<T>, x: T, key: T -> string): seq<T> {
    if xs == [] || AtMost(key(xs[|xs| - 1]), key(x)) then xs + [x]
    else InsertBy(xs[..|xs| - 1], x, key) + [xs[|xs| - 1]]
  }

  /** Some sorted arrangement; nothing below depends on where equal keys end up. */
  function SortBy<T>(xs: seq<T>, key: T -> string): seq<T> {
    if xs == [] then [] else InsertBy(SortBy(xs[..|xs| - 1], key), xs[|xs| - 1], key)
  }

  lemma {:induction false} InsertBySorts<T>(xs: seq<T>, x: T, key: T -> string)
    requires SortedBy(xs, key)
    ensures SortedBy(InsertBy(xs, x, key), key)
    ensures multiset(InsertBy(xs, x, key)) == multiset(xs) + multiset{x}
  {
    if xs != [] {
      var init, last := xs[..|xs| - 1], xs[|xs| - 1];
      assert xs == init + [last];
      if AtMost(key(last), key(x)) {
        forall i | 0 <= i < |xs| - 1 ensures AtMost(key(xs[i]), key(x)) {
          AtMostTransitive(key(xs[i]), key(last), key(x));
        }
      } else {
        InsertBySorts(init, x, key);
        var r := InsertBy(init, x, key);
        Trichotomy(key(last), key(x));
        forall i | 0 <= i < |r| ensures AtMost(key(r[i]), key(last)) {
          assert r[i] in multiset(r);
          if r[i] != x { assert r[i] in init; }
        }
      }
    }
  }

  lemma {:induction false} SortBySorts<T>(xs: seq<T>, key: T -> string)
    ensures SortedBy(SortBy(xs, key), key) && multiset(SortBy(xs, key)) == multiset(xs)
  {
    if xs != [] {
      var init, last := xs[..|xs| - 1], xs[|xs| - 1];
      SortBySorts(init, key);
      InsertBySorts(SortBy(init, key), last, key);
      assert xs == init + [last];
    }
  }

  /** A list without repetitions stays without repetitions when rearranged. */
  lemma RearrangedIsDistinct<T>(xs: seq<T>, ys: seq<T>)
    requires multiset(xs) == multiset(ys)
    requires forall i, j :: 0 <= i < j < |xs| ==> xs[i] != xs[j]
    ensures forall i, j :: 0 <= i < j < |ys| ==> ys[i] != ys[j]
  {
    forall i, j | 0 <= i < j < |ys| ensures ys[i] != ys[j] {
      if ys[i] == ys[j] {
        var x := ys[i];
        assert ys == ys[..j] + [x] + ys[j + 1..];
        assert x in ys[..j];
        assert multiset(ys)[x] >= 2;
        AtMostOnce(xs, x);
      }
    }
  }

  lemma {:induction false} AtMostOnce<T>(xs: seq<T>, x: T)
    requires forall i, j :: 0 <= i < j < |xs| ==> xs[i] != xs[j]
    ensures multiset(xs)[x] <= 1
  {
    if xs != [] {
      var init, last := xs[..|xs| - 1], xs[|xs| - 1];
      AtMostOnce(init, x);
      assert xs == init + [last];
    }
  }
}
