/** What a conversation remembers over a whole sequence of stored turns. */
module Memory {
  import opened Wire
  import opened TurnTable
  import opened Conversation

  /** A stored turn: its row, messages aside, and the messages it added itself. */
  datatype Said = Said(row: Row, own: seq<Chat>)

  function Table(system: string, said: seq<Said>): seq<Row> {
    if said == [] then []
    else
      var t := said[|said| - 1];
      Stored(system, Table(system, said[..|said| - 1]), t.row, t.own)
  }

  function Remembered(system: string, said: seq<Said>, box: string): seq<Chat> { History(Table(system, said), box) }

  /** The box's turns, each one's own messages, in order. */
  function OwnOf(said: seq<Said>, box: string): seq<Chat> {
    if said == [] then []
    else
      var t := said[|said| - 1];
      OwnOf(said[..|said| - 1], box) + if t.row.box == box then t.own else []
  }

  predicate EndsWith(xs: seq<Chat>, ys: seq<Chat>) { |ys| <= |xs| && xs[|xs| - |ys|..] == ys }

  /** Each turn of a box is stamped later than the box's turns before it. */
  ghost predicate InOrder(said: seq<Said>, box: string) {
    forall i, j :: 0 <= i < j < |said| && said[i].row.box == box && said[j].row.box == box ==> said[i].row.at < said[j].row.at
  }

  /** t is stamped later than every earlier turn of its box. */
  ghost predicate Latest(said: seq<Said>, t: Said) {
    forall i :: 0 <= i < |said| && said[i].row.box == t.row.box ==> said[i].row.at < t.row.at
  }

  /** The loop appends no system message. */
  ghost predicate NoPrompts(msgs: seq<Chat>) { forall i :: 0 <= i < |msgs| ==> !msgs[i].System? }

  ghost predicate AllNoPrompts(said: seq<Said>) { forall i :: 0 <= i < |said| ==> NoPrompts(said[i].own) }

  // ----- what a row tells -----

  lemma {:induction false} NoSystemOf(a: seq<Chat>, b: seq<Chat>)
    ensures NoSystem(a + b) == NoSystem(a) + NoSystem(b)
  {
    if b == [] {
      assert a + b == a;
    } else {
      NoSystemOf(a, b[..|b| - 1]);
      assert (a + b)[..|a + b| - 1] == a + b[..|b| - 1];
    }
  }

  lemma {:induction false} NoSystemKeeps(a: seq<Chat>)
    ensures NoPrompts(NoSystem(a)) && (NoPrompts(a) ==> NoSystem(a) == a)
  {
    if a != [] { NoSystemKeeps(a[..|a| - 1]); }
  }

  lemma {:induction false} ReplayHasNoPrompts(newest: seq<Row>)
    ensures NoPrompts(Replay(newest))
  {
    if newest != [] {
      ReplayHasNoPrompts(newest[1..]);
      if newest[0].messages.Some? { NoSystemKeeps(newest[0].messages.value); }
    }
  }

  /** A row as a turn stores it tells the history it replayed, then its own messages. */
  function RowOf(system: string, r: Row, history: seq<Chat>, own: seq<Chat>): Row {
    r.(messages := Some([System(system)] + history + own))
  }

  lemma RowTells(system: string, r: Row, history: seq<Chat>, own: seq<Chat>)
    requires NoPrompts(history) && NoPrompts(own)
    ensures Told(RowOf(system, r, history, own)) == history + own
  {
    NoSystemKeeps(history + own);
    NoSystemOf([System(system)], history + own);
    assert [System(system)] + history + own == [System(system)] + (history + own);
    assert NoSystem([System(system)]) == [] by { assert [System(system)][..0] == []; }
  }

  lemma {:induction false} RowsOfBox(system: string, said: seq<Said>, box: string, r: Row)
    requires r in BoxRows(Table(system, said), box)
    ensures exists i :: 0 <= i < |said| && said[i].row.box == box && said[i].row.at == r.at
  {
    var init, t := said[..|said| - 1], said[|said| - 1];
    var rows := Table(system, init);
    assert Table(system, said)[..|rows|] == rows;
    if r in BoxRows(rows, box) {
      RowsOfBox(system, init, box, r);
      var i :| 0 <= i < |init| && init[i].row.box == box && init[i].row.at == r.at;
      assert said[i] == init[i];
    } else {
      assert said[|said| - 1].row.box == box;
    }
  }

  lemma BoxRowsSnoc(rows: seq<Row>, r: Row, box: string)
    ensures BoxRows(rows + [r], box) == BoxRows(rows, box) + if r.box == box then [r] else []
    ensures ByTime(rows + [r]) == InsertByTime(ByTime(rows), r)
  {
    assert (rows + [r])[..|rows|] == rows;
  }

  lemma TableSnoc(system: string, said: seq<Said>, t: Said)
    ensures Table(system, said + [t]) == Table(system, said) + [StoredRow(system, said, t)]
  {
    assert (said + [t])[..|said|] == said;
  }

  /** The row that turn t stores after the others. */
  function StoredRow(system: string, said: seq<Said>, t: Said): Row {
    RowOf(system, t.row, Remembered(system, said, t.row.box), t.own)
  }

  /** The box's rows in the order the query returns them. */
  function Ordered(system: string, said: seq<Said>, box: string): seq<Row> { ByTime(BoxRows(Table(system, said), box)) }

  lemma OrderedSnoc(system: string, said: seq<Said>, t: Said)
    ensures Ordered(system, said + [t], t.row.box) == InsertByTime(Ordered(system, said, t.row.box), StoredRow(system, said, t))
  {
    var rows, r := Table(system, said), StoredRow(system, said, t);
    TableSnoc(system, said, t);
    BoxRowsSnoc(rows, r, t.row.box);
    BoxRowsSnoc(BoxRows(rows, t.row.box), r, t.row.box);
  }

  /** A turn of another box changes nothing for this one. */
  lemma OtherRows(system: string, said: seq<Said>, t: Said, box: string)
    requires t.row.box != box
    ensures Ordered(system, said + [t], box) == Ordered(system, said, box)
  {
    TableSnoc(system, said, t);
    BoxRowsSnoc(Table(system, said), StoredRow(system, said, t), box);
    assert BoxRows(Table(system, said), box) + [] == BoxRows(Table(system, said), box);
  }

  lemma OtherBox(system: string, said: seq<Said>, t: Said, box: string)
    requires t.row.box != box
    ensures Remembered(system, said + [t], box) == Remembered(system, said, box)
  {
    OtherRows(system, said, t, box);
  }

  /** What a stored turn's row tells later ones. */
  lemma StoredRowTells(system: string, said: seq<Said>, t: Said)
    requires NoPrompts(t.own)
    ensures Told(StoredRow(system, said, t)) == Remembered(system, said, t.row.box) + t.own
  {
    ReplayHasNoPrompts(Newest(Table(system, said), t.row.box, WINDOW));
    RowTells(system, t.row, Remembered(system, said, t.row.box), t.own);
  }

  // ----- where the new row comes in -----

  /** How many of the rows, newest first, stay in front of a row stamped `at`. */
  function InFront(newest: seq<Row>, at: int): (n: nat)
    ensures n <= |newest|
  {
    if newest == [] || at > newest[0].at then 0 else 1 + InFront(newest[1..], at)
  }

  lemma {:induction false} InsertAt(newest: seq<Row>, r: Row)
    ensures var p := InFront(newest, r.at); InsertByTime(newest, r) == newest[..p] + ([r] + newest[p..])
  {
    if newest != [] && r.at <= newest[0].at {
      var p := InFront(newest[1..], r.at);
      InsertAt(newest[1..], r);
      assert [newest[0]] + newest[1..][..p] == newest[..p + 1] && newest[1..][p..] == newest[p + 1..];
    }
  }

  lemma ReplayCons(r: Row, rows: seq<Row>)
    ensures Replay([r] + rows) == Replay(rows) + Told(r)
  {
    assert ([r] + rows)[1..] == rows;
  }

  lemma Regroup(a: seq<Chat>, b: seq<Chat>, c: seq<Chat>)
    ensures a + b + c == a + (b + c)
  {}

  lemma Bare(a: seq<Chat>)
    ensures a + [] == a
  {}

  lemma {:induction false} ReplayConcat(a: seq<Row>, b: seq<Row>)
    ensures Replay(a + b) == Replay(b) + Replay(a)
  {
    if a == [] {
      assert a + b == b;
      Bare(Replay(b));
    } else {
      ReplayConcat(a[1..], b);
      assert a + b == [a[0]] + (a[1..] + b);
      ReplayCons(a[0], a[1..] + b);
      Regroup(Replay(b), Replay(a[1..]), Told(a[0]));
      ReplayCons(a[0], a[1..]);
      assert a == [a[0]] + a[1..];
    }
  }

  lemma FirstOfThree(a: seq<Row>, r: Row, b: seq<Row>)
    ensures First(a + ([r] + b), WINDOW) ==
            if |a| >= WINDOW then First(a + b, WINDOW) else a + ([r] + First(b, WINDOW - 1 - |a|))
  {}

  /** What is told when a row telling `told` stands behind the rows a and in front of the rows b: behind
      20 newer ones it is not read; otherwise it comes after the older rows that are still read, and
      before the newer ones. */
  function ToldBetween(a: seq<Row>, told: seq<Chat>, b: seq<Row>): seq<Chat> {
    if |a| >= WINDOW then Replay(First(a + b, WINDOW))
    else Replay(First(b, WINDOW - 1 - |a|)) + told + Replay(a)
  }

  lemma ReplayOfThree(a: seq<Row>, r: Row, b: seq<Row>)
    ensures Replay(First(a + ([r] + b), WINDOW)) == ToldBetween(a, Told(r), b)
  {
    FirstOfThree(a, r, b);
    if |a| < WINDOW {
      ReplayConcat(a, [r] + First(b, WINDOW - 1 - |a|));
      ReplayCons(r, First(b, WINDOW - 1 - |a|));
    }
  }

  lemma InsertedReplay(newest: seq<Row>, r: Row)
    ensures var p := InFront(newest, r.at);
            Replay(First(InsertByTime(newest, r), WINDOW)) == ToldBetween(newest[..p], Told(r), newest[p..])
  {
    var p := InFront(newest, r.at);
    InsertAt(newest, r);
    ReplayOfThree(newest[..p], r, newest[p..]);
  }

  /** The history rebuilt for the next turn, whatever the stamps: what the older rows tell, then
      everything the last turn was given, then everything it said, then what rows stamped no earlier
      tell; with 20 of those the turn is not in its own successor's history at all. */
  lemma NextHistory(system: string, said: seq<Said>, t: Said)
    requires NoPrompts(t.own)
    ensures var rows := Ordered(system, said, t.row.box); var p := InFront(rows, t.row.at);
            Remembered(system, said + [t], t.row.box) ==
            ToldBetween(rows[..p], Remembered(system, said, t.row.box) + t.own, rows[p..])
  {
    OrderedSnoc(system, said, t);
    StoredRowTells(system, said, t);
    InsertedReplay(Ordered(system, said, t.row.box), StoredRow(system, said, t));
  }

  /** A turn stamped latest goes in front of all rows. */
  lemma LatestGoesFirst(system: string, said: seq<Said>, t: Said)
    requires Latest(said, t)
    ensures InFront(Ordered(system, said, t.row.box), t.row.at) == 0
  {
    var mine := BoxRows(Table(system, said), t.row.box);
    ByTimeSorts(mine);
    if ByTime(mine) != [] {
      var x := ByTime(mine)[0];
      assert x in multiset(mine);
      RowsOfBox(system, said, t.row.box, x);
      var i :| 0 <= i < |said| && said[i].row.box == t.row.box && said[i].row.at == x.at;
    }
  }

  lemma ToldLast(told: seq<Chat>, rows: seq<Row>)
    ensures ToldBetween([], told, rows) == Replay(First(rows, WINDOW - 1)) + told
  {
    Bare(Replay(First(rows, WINDOW - 1)) + told);
  }

  lemma NextInOrder(system: string, said: seq<Said>, t: Said)
    requires Latest(said, t) && NoPrompts(t.own)
    ensures Remembered(system, said + [t], t.row.box) ==
            Replay(First(Ordered(system, said, t.row.box), WINDOW - 1)) + (Remembered(system, said, t.row.box) + t.own)
  {
    var rows := Ordered(system, said, t.row.box);
    NextHistory(system, said, t);
    LatestGoesFirst(system, said, t);
    assert rows[..0] == [] && rows[0..] == rows;
    ToldLast(Remembered(system, said, t.row.box) + t.own, rows);
  }

  lemma ReplayFirst(r: Row, mine: seq<Row>)
    ensures Replay(First([r] + mine, WINDOW)) == Replay(First(mine, WINDOW - 1)) + Told(r)
  {
    var newest := First([r] + mine, WINDOW);
    assert newest[0] == r && newest[1..] == First(mine, WINDOW - 1);
  }

  /** A turn adds at least the user's message. */
  ghost predicate AllSpeak(said: seq<Said>) { forall i :: 0 <= i < |said| ==> said[i].own != [] }

  lemma InitOf(said: seq<Said>, box: string)
    requires said != [] && AllNoPrompts(said)
    ensures var init, t := said[..|said| - 1], said[|said| - 1];
            && said == init + [t] && AllNoPrompts(init) && NoPrompts(t.own)
            && (AllSpeak(said) ==> AllSpeak(init) && t.own != [])
            && (InOrder(said, box) ==> InOrder(init, box) && (t.row.box == box ==> Latest(init, t)))
  {
    var init := said[..|said| - 1];
    assert forall i :: 0 <= i < |init| ==> init[i] == said[i];
  }

  // ----- nothing is forgotten -----

  /** The history of the next turn ends with every message of every turn of the box, in order. */
  predicate Complete(system: string, said: seq<Said>, box: string) {
    EndsWith(Remembered(system, said, box), OwnOf(said, box))
  }

  /** For any number of turns, also far more than the 20 rows that are read, the history is complete
      if each turn was stamped later than the box's turns before it. */
  lemma {:induction false} NothingIsForgotten(system: string, said: seq<Said>, box: string)
    requires InOrder(said, box) && AllNoPrompts(said)
    ensures Complete(system, said, box)
  {
    if said != [] {
      var init, t := said[..|said| - 1], said[|said| - 1];
      InitOf(said, box);
      NothingIsForgotten(system, init, box);
      if t.row.box == box {
        NextInOrder(system, init, t);
        StillEndsWith(Replay(First(Ordered(system, init, box), WINDOW - 1)), Remembered(system, init, box), OwnOf(init, box), t.own);
      } else {
        OtherBox(system, init, t, box);
        assert OwnOf(init, box) + [] == OwnOf(init, box);
      }
    }
  }

  lemma StillEndsWith(older: seq<Chat>, history: seq<Chat>, said: seq<Chat>, own: seq<Chat>)
    requires EndsWith(history, said)
    ensures EndsWith(older + (history + own), said + own)
  {
    var all := older + (history + own);
    assert all == (older + history[..|history| - |said|]) + (said + own) by {
      assert history == history[..|history| - |said|] + said;
    }
  }

  // ----- and only in that order -----

  function Last(msgs: seq<Chat>): Chat requires msgs != [] { msgs[|msgs| - 1] }

  /** Any two turns of the box end with different messages. */
  ghost predicate DistinctEnds(said: seq<Said>, box: string)
    requires AllSpeak(said)
  {
    forall i, j :: 0 <= i < j < |said| && said[i].row.box == box && said[j].row.box == box ==> Last(said[i].own) != Last(said[j].own)
  }

  /** Row x ends with the last message of a turn of the box. */
  ghost predicate EndsLike(x: Row, said: seq<Said>, box: string)
    requires AllSpeak(said)
  {
    Told(x) != [] && exists i :: 0 <= i < |said| && said[i].row.box == box && Last(Told(x)) == Last(said[i].own)
  }

  lemma EndsLikeMore(x: Row, said: seq<Said>, t: Said, box: string)
    requires AllSpeak(said) && t.own != [] && EndsLike(x, said, box)
    ensures AllSpeak(said + [t]) && EndsLike(x, said + [t], box)
  {
    var i :| 0 <= i < |said| && said[i].row.box == box && Last(Told(x)) == Last(said[i].own);
    assert (said + [t])[i] == said[i];
  }

  lemma {:induction false} RowsEndLikeTurns(system: string, said: seq<Said>, box: string, x: Row)
    requires AllSpeak(said) && AllNoPrompts(said) && x in BoxRows(Table(system, said), box)
    ensures EndsLike(x, said, box)
  {
    var init, t := said[..|said| - 1], said[|said| - 1];
    InitOf(said, box);
    TableSnoc(system, init, t);
    BoxRowsSnoc(Table(system, init), StoredRow(system, init, t), box);
    if x in BoxRows(Table(system, init), box) {
      RowsEndLikeTurns(system, init, box, x);
      EndsLikeMore(x, init, t, box);
    } else {
      StoredRowTells(system, init, t);
      assert Last(Told(x)) == Last(said[|said| - 1].own);
    }
  }

  lemma {:induction false} TurnHasRow(system: string, said: seq<Said>, i: nat)
    requires i < |said|
    ensures exists x :: x in BoxRows(Table(system, said), said[i].row.box) && x.at == said[i].row.at
  {
    var init, t := said[..|said| - 1], said[|said| - 1];
    assert said == init + [t];
    TableSnoc(system, init, t);
    BoxRowsSnoc(Table(system, init), StoredRow(system, init, t), said[i].row.box);
    if i < |init| {
      TurnHasRow(system, init, i);
      var x :| x in BoxRows(Table(system, init), said[i].row.box) && x.at == said[i].row.at;
      assert x in BoxRows(Table(system, said), said[i].row.box);
    } else {
      assert StoredRow(system, init, t) in BoxRows(Table(system, said), t.row.box);
    }
  }

  lemma NewestIsAtLeast(rows: seq<Row>, x: Row)
    requires x in rows
    ensures ByTime(rows) != [] && ByTime(rows)[0].at >= x.at && ByTime(rows)[0] in rows
  {
    ByTimeSorts(rows);
    assert x in multiset(ByTime(rows));
    var k :| 0 <= k < |ByTime(rows)| && ByTime(rows)[k] == x;
    assert ByTime(rows)[0] in multiset(rows);
  }

  lemma LastOfConcat(a: seq<Chat>, b: seq<Chat>)
    requires b != []
    ensures a + b != [] && Last(a + b) == Last(b)
  {}

  lemma DifferentEnds(history: seq<Chat>, said: seq<Chat>)
    requires history != [] && said != [] && Last(history) != Last(said)
    ensures !EndsWith(history, said)
  {
    assert |said| <= |history| ==> history[|history| - |said|..][|said| - 1] == Last(history);
  }

  /** A turn not stamped later than an earlier one is not last in the history. */
  lemma LateTurnIsMisplaced(system: string, said: seq<Said>, t: Said, i: nat)
    requires AllNoPrompts(said + [t]) && AllSpeak(said + [t]) && DistinctEnds(said + [t], t.row.box)
    requires i < |said| && said[i].row.box == t.row.box && said[i].row.at >= t.row.at
    ensures !Complete(system, said + [t], t.row.box)
  {
    var box, mine := t.row.box, BoxRows(Table(system, said), t.row.box);
    InitOf(said + [t], box);
    assert (said + [t])[..|said|] == said;
    TurnHasRow(system, said, i);
    var x :| x in mine && x.at == said[i].row.at;
    NewestIsAtLeast(mine, x);
    var head := ByTime(mine)[0];
    RowsEndLikeTurns(system, said, box, head);
    var j :| 0 <= j < |said| && said[j].row.box == box && Last(Told(head)) == Last(said[j].own);
    assert (said + [t])[j] == said[j] && (said + [t])[|said|] == t;
    OrderedSnoc(system, said, t);
    var rest := InsertByTime(ByTime(mine)[1..], StoredRow(system, said, t));
    ReplayFirst(head, rest);
    LastOfConcat(Replay(First(rest, WINDOW - 1)), Told(head));
    LastOfConcat(OwnOf(said, box), t.own);
    DifferentEnds(Remembered(system, said + [t], box), OwnOf(said + [t], box));
  }

  lemma InitsKeep(said: seq<Said>, box: string, n: nat)
    requires n <= |said| && AllNoPrompts(said) && AllSpeak(said) && DistinctEnds(said, box)
    ensures AllNoPrompts(said[..n]) && AllSpeak(said[..n]) && DistinctEnds(said[..n], box)
    ensures InOrder(said, box) ==> InOrder(said[..n], box)
  {
    assert forall i :: 0 <= i < n ==> said[..n][i] == said[i];
  }

  /** The history handed to every next turn is complete if and only if the turns of the box carry
      strictly increasing stamps, as long as no two of them end with the same message. */
  lemma CompleteIffInOrder(system: string, said: seq<Said>, box: string)
    requires AllNoPrompts(said) && AllSpeak(said) && DistinctEnds(said, box)
    ensures (forall n :: 0 <= n <= |said| ==> Complete(system, said[..n], box)) <==> InOrder(said, box)
  {
    if InOrder(said, box) {
      forall n | 0 <= n <= |said| ensures Complete(system, said[..n], box) {
        InitsKeep(said, box, n);
        NothingIsForgotten(system, said[..n], box);
      }
    } else {
      var i, j :| 0 <= i < j < |said| && said[i].row.box == box && said[j].row.box == box && said[i].row.at >= said[j].row.at;
      InitsKeep(said, box, j + 1);
      assert said[..j + 1] == said[..j] + [said[j]];
      assert said[..j][i] == said[i];
      LateTurnIsMisplaced(system, said[..j], said[j], i);
      assert !Complete(system, said[..j + 1], box);
    }
  }

  const FIRST := Said(Row("1", "box", "a", None, "m", 0, 0, 0, "stop", 5), [User("a")])
  const SECOND := Said(Row("2", "box", "b", None, "m", 0, 0, 0, "stop", 5), [User("b")])

  /** Two turns stamped in the same millisecond: the history ends with the first one. */
  lemma SameMillisecondReorders(system: string)
    ensures Remembered(system, [FIRST, SECOND], "box") == [User("a"), User("b")] + [User("a")]
    ensures OwnOf([FIRST, SECOND], "box") == [User("a")] + [User("b")]
    ensures !Complete(system, [FIRST, SECOND], "box")
  {
    TwoTurns(system, FIRST, SECOND);
    assert [FIRST, SECOND][..1] == [FIRST] && [FIRST][..0] == [];
    assert OwnOf([FIRST], "box") == [User("a")];
    assert [User("a")] + [User("b")] == [User("a"), User("b")];
    DifferentEnds(Remembered(system, [FIRST, SECOND], "box"), OwnOf([FIRST, SECOND], "box"));
  }

  lemma OneTurn(system: string, a: Said)
    requires NoPrompts(a.own)
    ensures Ordered(system, [a], a.row.box) == [StoredRow(system, [], a)]
    ensures Told(StoredRow(system, [], a)) == a.own && Remembered(system, [a], a.row.box) == a.own
  {
    assert [] + [a] == [a];
    OrderedSnoc(system, [], a);
    StoredRowTells(system, [], a);
    OneRow(StoredRow(system, [], a));
  }

  lemma TwoTurns(system: string, a: Said, b: Said)
    requires a.row.box == b.row.box && a.row.at == b.row.at && NoPrompts(a.own) && NoPrompts(b.own)
    ensures Remembered(system, [a, b], a.row.box) == (a.own + b.own) + a.own
  {
    var x, y := StoredRow(system, [], a), StoredRow(system, [a], b);
    OneTurn(system, a);
    StoredRowTells(system, [a], b);
    OrderedSnoc(system, [a], b);
    TieGoesBehind(x, y);
    assert [a] + [b] == [a, b];
    TwoRows(x, y);
  }

  lemma TieGoesBehind(x: Row, y: Row)
    requires x.at == y.at
    ensures InsertByTime([x], y) == [x] + [y]
  {
    assert [x][1..] == [] && InsertByTime([], y) == [y];
  }

  lemma OneRow(x: Row)
    ensures Replay([x]) == Told(x)
  {
    assert [x][1..] == [];
  }

  lemma TwoRows(x: Row, y: Row)
    ensures Replay([x] + [y]) == Told(y) + Told(x)
  {
    OneRow(y);
    assert ([x] + [y])[1..] == [y];
  }

  // ----- how fast it grows, in any order -----

  lemma {:induction false} InsertReplays(newest: seq<Row>, r: Row)
    ensures |Replay(InsertByTime(newest, r))| == |Replay(newest)| + |Told(r)|
    ensures |InsertByTime(newest, r)| == |newest| + 1
  {
    if newest == [] || r.at > newest[0].at {
      assert ([r] + newest)[1..] == newest;
    } else {
      InsertReplays(newest[1..], r);
      assert ([newest[0]] + InsertByTime(newest[1..], r))[1..] == InsertByTime(newest[1..], r);
    }
  }

  function Power2(n: nat): nat { if n == 0 then 1 else 2 * Power2(n - 1) }

  function CountOf(said: seq<Said>, box: string): nat {
    if said == [] then 0
    else CountOf(said[..|said| - 1], box) + if said[|said| - 1].row.box == box then 1 else 0
  }

  lemma {:induction false} RowsCounted(system: string, said: seq<Said>, box: string)
    ensures |Ordered(system, said, box)| == CountOf(said, box)
  {
    if said != [] {
      var init, t := said[..|said| - 1], said[|said| - 1];
      assert said == init + [t];
      RowsCounted(system, init, box);
      if t.row.box == box {
        OrderedSnoc(system, init, t);
        InsertReplays(Ordered(system, init, box), StoredRow(system, init, t));
      } else {
        OtherRows(system, init, t, box);
      }
    }
  }

  /** Among few rows all are told, so the telling is put into what was told before. */
  lemma ToldBetweenFew(a: seq<Row>, told: seq<Chat>, b: seq<Row>)
    requires |a| + |b| < WINDOW
    ensures var h, k := Replay(First(a + b, WINDOW)), |Replay(b)|;
            k <= |h| && ToldBetween(a, told, b) == h[..k] + told + h[k..]
  {
    ReplayConcat(a, b);
  }

  lemma ToldAt(rows: seq<Row>, p: nat, told: seq<Chat>)
    requires p <= |rows| < WINDOW
    ensures var h := Replay(First(rows, WINDOW));
            exists k :: 0 <= k <= |h| && ToldBetween(rows[..p], told, rows[p..]) == h[..k] + told + h[k..]
  {
    assert rows[..p] + rows[p..] == rows;
    ToldBetweenFew(rows[..p], told, rows[p..]);
  }

  /** Each row repeats the history before it: while all rows are read, the next history is the last
      one with that whole history, and the turn's own messages, put in once more. */
  lemma HistoryDoubles(system: string, said: seq<Said>, t: Said)
    requires NoPrompts(t.own) && CountOf(said, t.row.box) < WINDOW
    ensures var h := Remembered(system, said, t.row.box);
            exists k :: 0 <= k <= |h| && Remembered(system, said + [t], t.row.box) == h[..k] + (h + t.own) + h[k..]
  {
    var rows := Ordered(system, said, t.row.box);
    NextHistory(system, said, t);
    RowsCounted(system, said, t.row.box);
    ToldAt(rows, InFront(rows, t.row.at), Remembered(system, said, t.row.box) + t.own);
  }

  /** Whatever the stamps, the history at least doubles. */
  lemma SizeDoubles(system: string, said: seq<Said>, t: Said)
    requires NoPrompts(t.own) && CountOf(said, t.row.box) < WINDOW
    ensures |Remembered(system, said + [t], t.row.box)| == 2 * |Remembered(system, said, t.row.box)| + |t.own|
  {
    RowsCounted(system, said, t.row.box);
    OrderedSnoc(system, said, t);
    InsertReplays(Ordered(system, said, t.row.box), StoredRow(system, said, t));
    StoredRowTells(system, said, t);
  }

  /** So n turns of a box, up to 20, hand the next one at least 2^n - 1 messages. */
  lemma {:induction false} HistoryIsExponential(system: string, said: seq<Said>, box: string)
    requires AllNoPrompts(said) && AllSpeak(said) && CountOf(said, box) <= WINDOW
    ensures |Remembered(system, said, box)| + 1 >= Power2(CountOf(said, box))
  {
    if said != [] {
      InitOf(said, box);
      HistoryIsExponential(system, said[..|said| - 1], box);
      OneTurnDoubles(system, said[..|said| - 1], said[|said| - 1], box);
      Doubling(|Remembered(system, said[..|said| - 1], box)|, CountOf(said[..|said| - 1], box));
    }
  }

  lemma OneTurnDoubles(system: string, said: seq<Said>, t: Said, box: string)
    requires NoPrompts(t.own) && t.own != [] && (t.row.box == box ==> CountOf(said, box) < WINDOW)
    ensures |Remembered(system, said + [t], box)| >=
            if t.row.box == box then 2 * |Remembered(system, said, box)| + 1 else |Remembered(system, said, box)|
  {
    if t.row.box == box {
      SizeDoubles(system, said, t);
    } else {
      OtherBox(system, said, t, box);
    }
  }

  lemma Doubling(h: nat, n: nat)
    requires h + 1 >= Power2(n)
    ensures 2 * h + 2 >= Power2(n + 1)
  {}
}
