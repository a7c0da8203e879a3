/**
 The message protocol: every tool call an assistant message makes is answered, right
 after it and in order, in every message list a turn sends or stores.
 */
module Pairing {
  import opened Assembly
  import opened TurnTable
  import opened Conversation
  import opened Memory

  /** One answer per call, in the order of the calls. */
  ghost predicate AnswersTo(calls: seq<ToolCall>, answers: seq<Chat>) {
    |answers| == |calls| && forall k :: 0 <= k < |calls| ==> answers[k].Answer? && answers[k].callID == calls[k].id
  }

  /** An assistant message at i is followed by the answers to its calls. */
  ghost predicate Answered(msgs: seq<Chat>, i: nat) requires i < |msgs| {
    msgs[i].Assistant? ==>
      var next := i + 1 + |msgs[i].calls|;
      next <= |msgs| && AnswersTo(msgs[i].calls, msgs[i + 1..next])
  }

  ghost predicate Paired(msgs: seq<Chat>) { forall i :: 0 <= i < |msgs| ==> Answered(msgs, i) }

  lemma AnsweredLeft(a: seq<Chat>, b: seq<Chat>, i: nat)
    requires i < |a| && Answered(a, i)
    ensures Answered(a + b, i)
  {
    if a[i].Assistant? {
      var next := i + 1 + |a[i].calls|;
      assert (a + b)[i + 1..next] == a[i + 1..next];
    }
  }

  lemma AnsweredRight(a: seq<Chat>, b: seq<Chat>, i: nat)
    requires i < |b| && Answered(b, i)
    ensures Answered(a + b, |a| + i)
  {
    assert (a + b)[|a| + i] == b[i];
    if b[i].Assistant? {
      var next := i + 1 + |b[i].calls|;
      assert (a + b)[|a| + i + 1..|a| + next] == b[i + 1..next];
    }
  }

  lemma PairedConcat(a: seq<Chat>, b: seq<Chat>)
    requires Paired(a) && Paired(b)
    ensures Paired(a + b)
  {
    forall i | 0 <= i < |a + b| ensures Answered(a + b, i) {
      if i < |a| { AnsweredLeft(a, b, i); } else { AnsweredRight(a, b, i - |a|); }
    }
  }

  /** One assistant message with all its answers. */
  lemma ExchangeIsPaired(text: string, calls: seq<ToolCall>, answers: seq<Chat>)
    requires AnswersTo(calls, answers)
    ensures Paired([Assistant(text, calls)] + answers)
  {
    var all := [Assistant(text, calls)] + answers;
    assert all[1..1 + |calls|] == answers;
    forall i | 0 <= i < |all| ensures Answered(all, i) {
      if i > 0 { assert all[i] == answers[i - 1]; }
    }
  }

  ghost predicate Sound(p: Progress) { NoPrompts(p.own) && p.own != [] && (!p.end.Gone? ==> Paired(p.own)) }

  /** A turn that gets to be stored has answered every call, however it ended. */
  lemma {:induction false} OwnIsPaired(turn: string, text: string, world: World, n: nat)
    ensures Sound(After(turn, text, world, n))
  {
    if n == 0 {
      assert After(turn, text, world, 0).own == [User(text)];
    } else {
      OwnIsPaired(turn, text, world, n - 1);
      OneMoreIteration(turn, After(turn, text, world, n - 1), world(n - 1));
    }
  }

  lemma OneMoreIteration(turn: string, p: Progress, it: Iteration)
    requires Sound(p)
    ensures p.end.Going? ==> Sound(Iterate(turn, p, it))
  {
    var r := ReplyOf(it.stream.responses);
    var n := Min(|r.calls|, |it.results|);
    AnswersMatch(r.calls, it.results, n);
    ExchangeAppended(p.own, r.content, r.calls, Answers(r.calls, it.results, n));
  }

  lemma ExchangeAppended(own: seq<Chat>, text: string, calls: seq<ToolCall>, answers: seq<Chat>)
    requires NoPrompts(own) && NoPrompts(answers)
    ensures NoPrompts(own + [Assistant(text, calls)] + answers)
    ensures Paired(own) && AnswersTo(calls, answers) ==> Paired(own + [Assistant(text, calls)] + answers)
  {
    assert own + [Assistant(text, calls)] + answers == own + ([Assistant(text, calls)] + answers);
    if Paired(own) && AnswersTo(calls, answers) {
      ExchangeIsPaired(text, calls, answers);
      PairedConcat(own, [Assistant(text, calls)] + answers);
    }
  }

  ghost predicate AllPaired(said: seq<Said>) { forall i :: 0 <= i < |said| ==> Paired(said[i].own) }

  ghost predicate TellPaired(rows: seq<Row>) { forall i :: 0 <= i < |rows| ==> Paired(Told(rows[i])) }

  lemma {:induction false} ReplayIsPaired(newest: seq<Row>)
    requires TellPaired(newest)
    ensures Paired(Replay(newest))
  {
    if newest != [] {
      ReplayIsPaired(newest[1..]);
      PairedConcat(Replay(newest[1..]), Told(newest[0]));
    }
  }

  lemma {:induction false} BoxRowsAreRows(rows: seq<Row>, box: string, r: Row)
    requires r in BoxRows(rows, box)
    ensures r in rows
  {
    if r in BoxRows(rows[..|rows| - 1], box) { BoxRowsAreRows(rows[..|rows| - 1], box, r); }
  }

  lemma NewestTellPaired(rows: seq<Row>, box: string)
    requires TellPaired(rows)
    ensures TellPaired(Newest(rows, box, WINDOW))
  {
    var newest := Newest(rows, box, WINDOW);
    ByTimeSorts(BoxRows(rows, box));
    forall i | 0 <= i < |newest| ensures Paired(Told(newest[i])) {
      assert newest[i] == ByTime(BoxRows(rows, box))[i];
      assert newest[i] in multiset(ByTime(BoxRows(rows, box)));
      BoxRowsAreRows(rows, box, newest[i]);
    }
  }

  lemma {:induction false} TablesTellPaired(system: string, said: seq<Said>)
    requires AllNoPrompts(said) && AllPaired(said)
    ensures TellPaired(Table(system, said))
  {
    if said != [] {
      var init, t := said[..|said| - 1], said[|said| - 1];
      assert forall i :: 0 <= i < |init| ==> init[i] == said[i];
      TablesTellPaired(system, init);
      HistoryIsPaired(system, init, t.row.box);
      PairedConcat(Remembered(system, init, t.row.box), t.own);
      StoredRowTells(system, init, t);
      assert said == init + [t];
      TableSnoc(system, init, t);
    }
  }

  lemma HistoryIsPaired(system: string, said: seq<Said>, box: string)
    requires TellPaired(Table(system, said))
    ensures Paired(Remembered(system, said, box))
  {
    NewestTellPaired(Table(system, said), box);
    ReplayIsPaired(Newest(Table(system, said), box, WINDOW));
  }
}
