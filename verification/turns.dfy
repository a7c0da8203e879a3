/** The ai_turns table (relay/internal/store/turns.go). */
module TurnTable {
  import opened Wire
  import opened Assembly

  datatype Chat =
    | System(text: string)
    | User(text: string)
    | Assistant(text: string, calls: seq<ToolCall>)
    | Answer(callID: string, result: string)

  /** One turn; `messages` is None when the stored text is not a message list. */
  datatype Row = Row(id: string, box: string, userText: string, messages: Option<seq<Chat>>, model: string,
                     tokensIn: int, tokensOut: int, cents: int, stop: string, at: int)

  function BoxRows(rows: seq<Row>, box: string): seq<Row> {
    if rows == [] then []
    else BoxRows(rows[..|rows| - 1], box) + if rows[|rows| - 1].box == box then [rows[|rows| - 1]] else []
  }

  // ORDER BY created_at DESC over the index (box_id, created_at DESC): equal times keep row order.
  function InsertByTime(newest: seq<Row>, r: Row): seq<Row> {
    if newest == [] || r.at > newest[0].at then [r] + newest
    else [newest[0]] + InsertByTime(newest[1..], r)
  }

  function ByTime(rows: seq<Row>): seq<Row> {
    if rows == [] then [] else InsertByTime(ByTime(rows[..|rows| - 1]), rows[|rows| - 1])
  }

  function Limit(limit: int): nat { if limit <= 0 then 50 else limit }

  function First<T>(xs: seq<T>, n: nat): seq<T> { if n < |xs| then xs[..n] else xs }

  function Newest(rows: seq<Row>, box: string, limit: int): seq<Row> {
    First(ByTime(BoxRows(rows, box)), Limit(limit))
  }

  ghost predicate NewestFirst(rows: seq<Row>) {
    forall i, j :: 0 <= i < j < |rows| ==> rows[i].at >= rows[j].at
  }

  lemma {:induction false} InsertKeepsRows(newest: seq<Row>, r: Row)
    ensures multiset(InsertByTime(newest, r)) == multiset(newest) + multiset{r}
  {
    if newest != [] && r.at <= newest[0].at {
      InsertKeepsRows(newest[1..], r);
      assert newest == [newest[0]] + newest[1..];
    }
  }

  /** All rows of a list are stamped no later than `at`. */
  ghost predicate NotAfter(rows: seq<Row>, at: int) { forall i :: 0 <= i < |rows| ==> rows[i].at <= at }

  lemma {:induction false} InsertStaysBelow(newest: seq<Row>, r: Row, at: int)
    requires NotAfter(newest, at) && r.at <= at
    ensures NotAfter(InsertByTime(newest, r), at)
  {
    if newest != [] && r.at <= newest[0].at { InsertStaysBelow(newest[1..], r, at); }
  }

  lemma {:induction false} InsertByTimeSorts(newest: seq<Row>, r: Row)
    requires NewestFirst(newest)
    ensures NewestFirst(InsertByTime(newest, r))
  {
    if newest != [] && r.at <= newest[0].at {
      InsertByTimeSorts(newest[1..], r);
      InsertStaysBelow(newest[1..], r, newest[0].at);
    }
  }

  lemma OneMoreRow(rows: seq<Row>, r: Row)
    requires NewestFirst(ByTime(rows)) && multiset(ByTime(rows)) == multiset(rows)
    ensures NewestFirst(ByTime(rows + [r])) && multiset(ByTime(rows + [r])) == multiset(rows + [r])
  {
    assert (rows + [r])[..|rows|] == rows;
    InsertByTimeSorts(ByTime(rows), r);
    InsertKeepsRows(ByTime(rows), r);
  }

  lemma {:induction false} ByTimeSorts(rows: seq<Row>)
    ensures NewestFirst(ByTime(rows)) && multiset(ByTime(rows)) == multiset(rows)
  {
    if rows != [] {
      ByTimeSorts(rows[..|rows| - 1]);
      OneMoreRow(rows[..|rows| - 1], rows[|rows| - 1]);
      assert rows == rows[..|rows| - 1] + [rows[|rows| - 1]];
    }
  }

  /** Recent returns the newest rows of the box, newest first: nothing left out is newer. */
  lemma NewestIsNewest(rows: seq<Row>, box: string, limit: int, i: nat, j: nat)
    requires var all := ByTime(BoxRows(rows, box)); i < |Newest(rows, box, limit)| <= j < |all|
    ensures Newest(rows, box, limit)[i].at >= ByTime(BoxRows(rows, box))[j].at
  {
    ByTimeSorts(BoxRows(rows, box));
  }

  lemma {:induction false} BoxRowsHold(rows: seq<Row>, box: string)
    ensures forall r :: r in BoxRows(rows, box) <==> r in rows && r.box == box
  {
    if rows != [] {
      BoxRowsHold(rows[..|rows| - 1], box);
      assert rows == rows[..|rows| - 1] + [rows[|rows| - 1]];
    }
  }

  /** The newest rows are rows of the box, newest first, and all of them if fewer than the limit. */
  lemma NewestMeans(rows: seq<Row>, box: string, limit: int)
    ensures |Newest(rows, box, limit)| <= (if limit <= 0 then 50 else limit)
    ensures NewestFirst(Newest(rows, box, limit))
    ensures forall r :: r in Newest(rows, box, limit) ==> r in rows && r.box == box
    ensures |Newest(rows, box, limit)| < (if limit <= 0 then 50 else limit) ==>
              forall r :: r in rows && r.box == box ==> r in Newest(rows, box, limit)
  {
    var mine := BoxRows(rows, box);
    ByTimeSorts(mine);
    BoxRowsHold(rows, box);
    assert forall r :: r in ByTime(mine) <==> r in multiset(mine) by {
      assert forall r :: r in ByTime(mine) <==> r in multiset(ByTime(mine));
    }
    assert forall r :: r in Newest(rows, box, limit) ==> r in ByTime(mine);
  }

  class Turns {
    var rows: seq<Row>

    constructor ()
      ensures rows == []
    { rows := []; }

    // The primary key refuses a second row with the id, the foreign key an unknown box.
    method Insert(r: Row, boxes: set<string>, now: int) returns (ok: bool)
      modifies this
      ensures ok <==> r.box in boxes && forall x :: x in old(rows) ==> x.id != r.id
      ensures rows == if ok then old(rows) + [if r.at == 0 then r.(at := now) else r] else old(rows)
    {
      ok := r.box in boxes;
      for i := 0 to |rows|
        invariant ok <==> r.box in boxes && forall j :: 0 <= j < i ==> rows[j].id != r.id
      {
        if rows[i].id == r.id { ok := false; }
      }
      if ok { rows := rows + [if r.at == 0 then r.(at := now) else r]; }
    }

    method Recent(box: string, limit: int) returns (out: seq<Row>)
      ensures out == Newest(rows, box, limit)
      ensures |out| <= (if limit <= 0 then 50 else limit)
      ensures (forall r :: r in out ==> r in rows && r.box == box) && NewestFirst(out)
      ensures |out| < (if limit <= 0 then 50 else limit) ==> forall r :: r in rows && r.box == box ==> r in out
    {
      var n := if limit <= 0 then 50 else limit;
      out := [];
      for i := 0 to |rows|
        invariant out == ByTime(BoxRows(rows[..i], box))
      {
        ghost var mine := BoxRows(rows[..i], box);
        assert rows[..i + 1][..i] == rows[..i] && mine + [] == mine;
        assert (mine + [rows[i]])[..|mine|] == mine;
        if rows[i].box == box { out := InsertByTime(out, rows[i]); }
      }
      assert rows[..|rows|] == rows;
      NewestMeans(rows, box, limit);
      if n < |out| { out := out[..n]; }
    }
  }
}
