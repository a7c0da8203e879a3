/**
 The replay of a joining socket against the live traffic that reaches it meanwhile:
 exactly when it can complete, and exactly when it comes first.
 */
module ProtocolReplay {
  import opened Wire
  import opened Stream
  import opened Protocol
  import opened ProtocolInvariant
  import opened ProtocolTheorems

  lemma RunSnoc(actions: seq<Action>, a: Action)
    ensures Run(actions + [a]) == Step(Run(actions), a)
  {
    assert (actions + [a])[..|actions|] == actions;
  }

  // ----- when a replay can complete -----

  /** A registered socket that has still to finish its replay. */
  predicate Waiting(k: Socket) {
    k.open && !k.doomed && (k.phase.Replaying? || (k.phase.Joined? && k.lastSeq > 0))
  }

  /** The channel slots it takes: what was put there, replayed or live, and what is still to come. */
  function Slots(s: State, k: Socket): nat {
    |k.sent| + if k.phase.Joined? then |After(s.log, k.lastSeq)| else |Todo(k)|
  }

  /** Nothing leads from here to a finished replay. */
  ghost predicate Stuck(s: State, k: Socket) {
    || k.doomed || !k.open
    || (k.phase.Live? && k.ranged.None?)
    || (Waiting(k) && k.drained == 0 && Slots(s, k) > SEND_BUFFER)
  }

  lemma LogTailGrows(log: seq<Message>, m: Message, afterSeq: int)
    ensures |After(log + [m], afterSeq)| >= |After(log, afterSeq)|
  {
    AfterSnoc(log, m, afterSeq);
  }

  predicate OthersAct(a: Action) {
    a.Broadcast? || a.Forward? || a.Connect? || a.Incr? || a.IncrLost? || a.Append? || a.AppendLost? || a.Abort?
  }

  lemma StuckWhileOthersAct(s: State, id: nat, a: Action)
    requires id in s.sockets && OthersAct(a) && Stuck(s, s.sockets[id])
    ensures id in Step(s, a).sockets && Stuck(Step(s, a), Step(s, a).sockets[id])
  {
    if (a.Append? || a.AppendLost?) && s.At(a.w).Numbered? {
      LogTailGrows(s.log, s.At(a.w).msg, s.sockets[id].lastSeq);
    }
  }

  lemma StuckItself(s: State, id: nat, k: Socket, a: Action)
    requires SocketInv(s, k) && !OthersAct(a) && Stuck(s, k)
    ensures Stuck(s, SocketStep(s, id, k, a))
  {}

  lemma StuckStays(s: State, id: nat, a: Action)
    requires id in s.sockets && SocketInv(s, s.sockets[id]) && Stuck(s, s.sockets[id])
    ensures id in Step(s, a).sockets && Stuck(Step(s, a), Step(s, a).sockets[id])
  {
    if OthersAct(a) {
      StuckWhileOthersAct(s, id, a);
    } else {
      StuckItself(s, id, s.sockets[id], a);
      StuckIgnoresOthers(s, Step(s, a), Step(s, a).sockets[id]);
    }
  }

  lemma StuckIgnoresOthers(s: State, t: State, k: Socket)
    requires t.log == s.log && Stuck(s, k)
    ensures Stuck(t, k)
  {}

  ghost predicate StuckAt(s: State, id: nat) { id in s.sockets && Stuck(s, s.sockets[id]) }

  lemma SocketKeepsInv(actions: seq<Action>, id: nat)
    requires id in Run(actions).sockets
    ensures SocketInv(Run(actions), Run(actions).sockets[id])
  {
    RunInv(actions);
  }

  lemma StuckOneMore(actions: seq<Action>, a: Action, id: nat)
    requires StuckAt(Run(actions), id)
    ensures StuckAt(Run(actions + [a]), id)
  {
    SocketKeepsInv(actions, id);
    RunSnoc(actions, a);
    StuckStays(Run(actions), id, a);
  }

  lemma {:induction false} StuckForever(before: seq<Action>, more: seq<Action>, id: nat)
    requires StuckAt(Run(before), id)
    ensures StuckAt(Run(before + more), id)
  {
    if more == [] {
      assert before + more == before;
    } else {
      var init, a := more[..|more| - 1], more[|more| - 1];
      StuckForever(before, init, id);
      StuckOneMore(before + init, a, id);
      assert before + more == before + init + [a];
    }
  }

  /** One replay send when there is room. */
  lemma SendsOne(s: State, id: nat)
    requires id in s.sockets && s.sockets[id].open && !s.sockets[id].doomed
    requires s.sockets[id].phase.Replaying? && s.sockets[id].phase.todo != [] && s.sockets[id].HasRoom()
    ensures var k, k' := s.sockets[id], Step(s, ReplayNext(id)).sockets[id];
            k'.open && !k'.doomed && k'.drained == k.drained && |k'.sent| == |k.sent| + 1 &&
            k'.phase.Replaying? && |k'.phase.todo| == |k.phase.todo| - 1 && k'.ranged == k.ranged
  {}

  lemma {:induction false} Finishes(before: seq<Action>, id: nat) returns (more: seq<Action>)
    requires id in Run(before).sockets && Waiting(Run(before).sockets[id])
    requires Run(before).sockets[id].phase.Replaying? && Run(before).sockets[id].ranged.Some?
    requires Run(before).sockets[id].drained == 0 && Slots(Run(before), Run(before).sockets[id]) <= SEND_BUFFER
    ensures id in Run(before + more).sockets && CaughtUp(Run(before + more).sockets[id])
    decreases |Todo(Run(before).sockets[id])|
  {
    var s := Run(before);
    if s.sockets[id].phase.todo == [] {
      RunSnoc(before, GoLive(id));
      more := [GoLive(id)];
    } else {
      SendsOne(s, id);
      RunSnoc(before, ReplayNext(id));
      var rest := Finishes(before + [ReplayNext(id)], id);
      assert before + [ReplayNext(id)] + rest == before + ([ReplayNext(id)] + rest);
      more := [ReplayNext(id)] + rest;
    }
  }

  lemma Starts(before: seq<Action>, id: nat) returns (more: seq<Action>)
    requires id in Run(before).sockets && Waiting(Run(before).sockets[id]) && Run(before).sockets[id].drained == 0
    requires Run(before).sockets[id].ranged.Some? || Run(before).sockets[id].phase.Joined?
    requires Slots(Run(before), Run(before).sockets[id]) <= SEND_BUFFER
    ensures id in Run(before + more).sockets && CaughtUp(Run(before + more).sockets[id])
  {
    if Run(before).sockets[id].phase.Joined? {
      RunSnoc(before, RangeOk(id));
      var rest := Finishes(before + [RangeOk(id)], id);
      assert before + [RangeOk(id)] + rest == before + ([RangeOk(id)] + rest);
      more := [RangeOk(id)] + rest;
    } else {
      more := Finishes(before, id);
    }
  }

  /** A joining socket can still catch up if and only if the 64 slots hold everything: the live
      broadcasts it was offered since it registered, what was replayed, and what is still to be
      replayed. The write loop that would drain the channel starts only after the replay. */
  lemma ReplayCanCompleteIff(before: seq<Action>, id: nat)
    requires id in Run(before).sockets && Waiting(Run(before).sockets[id])
    ensures (exists more :: id in Run(before + more).sockets && CaughtUp(Run(before + more).sockets[id]))
            <==> Slots(Run(before), Run(before).sockets[id]) <= SEND_BUFFER
  {
    SocketKeepsInv(before, id);
    var s, k := Run(before), Run(before).sockets[id];
    if Slots(s, k) <= SEND_BUFFER {
      var more := Starts(before, id);
    } else {
      forall more ensures !(id in Run(before + more).sockets && CaughtUp(Run(before + more).sockets[id])) {
        StuckForever(before, more, id);
      }
    }
  }

  // ----- when the replay comes first -----

  /** No live broadcast precedes a replayed entry in the channel. */
  predicate ReplayFirst(sent: seq<Item>) {
    sent == [] ||
    (ReplayFirst(sent[..|sent| - 1]) && (sent[|sent| - 1].Replayed? ==> Casts(sent[..|sent| - 1]) == []))
  }

  lemma {:induction false} NoCasts(sent: seq<Item>)
    ensures Casts(sent) == [] <==> forall i :: 0 <= i < |sent| ==> !sent[i].Cast?
  {
    if sent != [] { NoCasts(sent[..|sent| - 1]); }
  }

  lemma {:induction false} ReplayFirstMeans(sent: seq<Item>)
    ensures ReplayFirst(sent) <==> forall i, j :: 0 <= i < j < |sent| ==> !(sent[i].Cast? && sent[j].Replayed?)
  {
    if sent != [] {
      ReplayFirstMeans(sent[..|sent| - 1]);
      NoCasts(sent[..|sent| - 1]);
    }
  }

  /** ReplayNext(id) would put an entry on the channel now. */
  predicate SendsReplay(s: State, id: nat) {
    id in s.sockets && s.sockets[id].open && s.sockets[id].HasRoom() &&
    s.sockets[id].phase.Replaying? && s.sockets[id].phase.todo != []
  }

  /** If a replays an entry to the socket, nothing has been broadcast since it registered. */
  predicate QuietSend(s: State, a: Action, id: nat) {
    a == ReplayNext(id) && SendsReplay(s, id) ==> s.cast == s.sockets[id].base
  }

  predicate QuietReplay(actions: seq<Action>, id: nat) {
    actions == [] ||
    (QuietReplay(actions[..|actions| - 1], id) && QuietSend(Run(actions[..|actions| - 1]), actions[|actions| - 1], id))
  }

  lemma FirstSnoc(sent: seq<Item>, x: Item)
    ensures ReplayFirst(sent + [x]) <==> ReplayFirst(sent) && (x.Replayed? ==> Casts(sent) == [])
  {
    assert (sent + [x])[..|sent|] == sent;
  }

  /** From k to k' at most one item was added, and not a replayed one. */
  predicate AddsNoReplay(k: Socket, k': Socket) {
    && (k'.open ==> k.open) && (!k'.doomed ==> !k.doomed)
    && (k'.sent == k.sent || (|k'.sent| > 0 && k'.sent[..|k'.sent| - 1] == k.sent && !k'.sent[|k'.sent| - 1].Replayed?))
  }

  lemma PutAdds(k: Socket, x: Item)
    requires !x.Replayed?
    ensures AddsNoReplay(k, k.Put(x)) && AddsNoReplay(k, k.Offer(x))
  {
    assert (k.sent + [x])[..|k.sent|] == k.sent;
  }

  lemma OwnAdds(s: State, id: nat, k: Socket, a: Action)
    requires !a.ReplayNext?
    ensures AddsNoReplay(k, SocketStep(s, id, k, a))
  {
    if a.Notify? { PutAdds(k, Notice(a.notice)); }
  }

  lemma ReplayAdds(s: State, id: nat, k: Socket, a: Action)
    requires a.ReplayNext?
    ensures var k' := SocketStep(s, id, k, a);
            if k.phase.Replaying? && k.phase.todo != [] && k.open && k.HasRoom()
            then k' == k.Put(Replayed(k.phase.todo[0])).(phase := k'.phase) else k' == k.(phase := k'.phase)
  {}

  lemma OthersAdd(s: State, id: nat, a: Action)
    requires id in s.sockets && OthersAct(a)
    ensures id in Step(s, a).sockets && AddsNoReplay(s.sockets[id], Step(s, a).sockets[id])
  {
    var k := s.sockets[id];
    if a.Broadcast? && s.At(a.w).Stored? { PutAdds(k, Cast(s.At(a.w).msg)); }
    if a.Forward? { PutAdds(k, Forwarded(a.msg)); }
  }

  /** What one step puts on a socket's channel. */
  lemma ChannelStep(s: State, id: nat, a: Action)
    requires id in s.sockets
    ensures id in Step(s, a).sockets
    ensures var k, k' := s.sockets[id], Step(s, a).sockets[id];
            if a == ReplayNext(id) && SendsReplay(s, id)
            then k'.sent == k.sent + [Replayed(k.phase.todo[0])] && k'.open == k.open && k'.doomed == k.doomed
            else AddsNoReplay(k, k')
  {
    if OthersAct(a) {
      OthersAdd(s, id, a);
    } else if a.ReplayNext? {
      ReplayAdds(s, id, s.sockets[id], a);
    } else {
      OwnAdds(s, id, s.sockets[id], a);
    }
  }

  lemma EmptyCasts(s: State, k: Socket)
    requires LiveInv(s, k) && k.open && !k.doomed
    ensures Casts(k.sent) == [] <==> s.cast == k.base
  {
    assert Casts(k.sent) != [] ==> Casts(k.sent)[0].seqNo in Seqs(Casts(k.sent));
    assert s.cast == k.base + (s.cast - k.base);
    if Casts(k.sent) == [] { assert Seqs(Casts(k.sent)) == {}; }
  }

  predicate Up(s: State, id: nat) { id in s.sockets && s.sockets[id].open && !s.sockets[id].doomed }

  /** The documented order, replay before live traffic, holds for a socket that stays in the hub if
      and only if nothing was broadcast between its registration and any of its replay sends. */
  lemma {:induction false} ReplayFirstIff(actions: seq<Action>, id: nat)
    requires Up(Run(actions), id)
    ensures ReplayFirst(Run(actions).sockets[id].sent) <==> QuietReplay(actions, id)
  {
    if actions != [] {
      var init, a := actions[..|actions| - 1], actions[|actions| - 1];
      if id in Run(init).sockets {
        SocketKeepsInv(init, id);
        OneMoreStep(Run(init), a, id);
        ReplayFirstIff(init, id);
      } else {
        NewcomerIsQuiet(init, id);
        NewcomerHoldsNothing(Run(init), a, id);
      }
    }
  }

  lemma NewcomerHoldsNothing(s: State, a: Action, id: nat)
    requires id !in s.sockets && id in Step(s, a).sockets
    ensures Step(s, a).sockets[id].sent == [] && QuietSend(s, a, id)
  {}

  lemma AddedElsewhere(k: Socket, k': Socket)
    requires AddsNoReplay(k, k')
    ensures ReplayFirst(k'.sent) <==> ReplayFirst(k.sent)
  {
    if k'.sent != k.sent {
      FirstSnoc(k.sent, k'.sent[|k'.sent| - 1]);
      assert k'.sent == k.sent + [k'.sent[|k'.sent| - 1]];
    }
  }

  lemma OneMoreStep(s: State, a: Action, id: nat)
    requires id in s.sockets && SocketInv(s, s.sockets[id]) && Up(Step(s, a), id)
    ensures Up(s, id)
    ensures ReplayFirst(Step(s, a).sockets[id].sent) <==> ReplayFirst(s.sockets[id].sent) && QuietSend(s, a, id)
  {
    var k, k' := s.sockets[id], Step(s, a).sockets[id];
    ChannelStep(s, id, a);
    if a == ReplayNext(id) && SendsReplay(s, id) {
      EmptyCasts(s, k);
      FirstSnoc(k.sent, Replayed(k.phase.todo[0]));
    } else {
      AddedElsewhere(k, k');
    }
  }

  /** Before it connects a socket is replayed nothing. */
  lemma {:induction false} NewcomerIsQuiet(actions: seq<Action>, id: nat)
    requires id !in Run(actions).sockets
    ensures QuietReplay(actions, id)
  {
    if actions != [] {
      SocketsStay(Run(actions[..|actions| - 1]), actions[|actions| - 1], id);
      NewcomerIsQuiet(actions[..|actions| - 1], id);
    }
  }

  lemma SocketsStay(s: State, a: Action, id: nat)
    ensures id in s.sockets ==> id in Step(s, a).sockets
  {}

  // ----- a run in which it does not -----

  const BODY := Message(0, "", "", "", RoleProvider, OpUpsert, "", "", 0)
  const ONE := BODY.(seqNo := 1)
  const TWO := BODY.(seqNo := 2)
  const HTTP := OnHttp(0)

  /** A second write is stored when a client that holds the first one reconnects, and broadcast
      before the relay reads the log for it. */
  const OVERTAKEN: seq<Action> := [
    Incr(HTTP, BODY), Append(HTTP), Broadcast(HTTP), Incr(HTTP, BODY), Append(HTTP),
    Connect(1, 1), Broadcast(HTTP), RangeOk(1), ReplayNext(1), GoLive(1)]

  function Joiner(phase: Phase, sent: seq<Item>, ranged: Option<nat>): map<nat, Socket> {
    map[1 := Socket(1, RoleUnspecified, phase, sent, 0, true, false, {1}, ranged)]
  }

  function Overtaken(i: nat): State {
    var second := State(2, [ONE, TWO], map[], map[HTTP := Stored(TWO)], map[1 := HTTP, 2 := HTTP], {1}, {});
    var cast := second.(writers := map[HTTP := Idle], cast := {1, 2});
    match i
    case 0 => INIT
    case 1 => State(1, [], map[], map[HTTP := Numbered(ONE)], map[1 := HTTP], {}, {})
    case 2 => State(1, [ONE], map[], map[HTTP := Stored(ONE)], map[1 := HTTP], {}, {})
    case 3 => State(1, [ONE], map[], map[HTTP := Idle], map[1 := HTTP], {1}, {})
    case 4 => State(2, [ONE], map[], map[HTTP := Numbered(TWO)], map[1 := HTTP, 2 := HTTP], {1}, {})
    case 5 => second
    case 6 => second.(sockets := Joiner(Joined, [], None))
    case 7 => cast.(sockets := Joiner(Joined, [Cast(TWO)], None))
    case 8 => cast.(sockets := Joiner(Replaying([TWO]), [Cast(TWO)], Some(2)))
    case 9 => cast.(sockets := Joiner(Replaying([]), [Cast(TWO), Replayed(TWO)], Some(2)))
    case _ => cast.(sockets := Joiner(Phase.Live, [Cast(TWO), Replayed(TWO)], Some(2)))
  }

  lemma OvertakenStep(i: nat)
    requires i < |OVERTAKEN|
    ensures Step(Overtaken(i), OVERTAKEN[i]) == Overtaken(i + 1)
  {
    if i < 6 && i != 2 {
      OvertakenWrites(i);
    } else if i == 7 {
      OvertakenRange();
    } else if i == 8 {
      OvertakenReplay();
    } else if i == 9 {
      OvertakenLive();
    } else {
      OvertakenCast(i);
    }
  }

  lemma OvertakenWrites(i: nat)
    requires i < 6 && i != 2
    ensures Step(Overtaken(i), OVERTAKEN[i]) == Overtaken(i + 1)
  {
    assert [] + [ONE] == [ONE] && [ONE] + [TWO] == [ONE, TWO];
  }

  lemma OvertakenRange()
    ensures Step(Overtaken(7), OVERTAKEN[7]) == Overtaken(8)
  {
    AfterSnoc([], ONE, 1);
    AfterSnoc([ONE], TWO, 1);
    assert [] + [ONE] == [ONE] && [ONE] + [TWO] == [ONE, TWO] && [] + [TWO] == [TWO];
    assert After([ONE, TWO], 1) == [TWO];
    assert SocketStep(Overtaken(7), 1, Overtaken(7).sockets[1], OVERTAKEN[7]) == Overtaken(8).sockets[1];
    assert Overtaken(7).sockets[1 := Overtaken(8).sockets[1]] == Overtaken(8).sockets;
  }

  lemma OvertakenReplay()
    ensures Step(Overtaken(8), OVERTAKEN[8]) == Overtaken(9)
  {
    var k := Overtaken(8).sockets[1];
    assert [TWO][1..] == [] && [Cast(TWO)] + [Replayed(TWO)] == [Cast(TWO), Replayed(TWO)];
    assert SocketStep(Overtaken(8), 1, k, OVERTAKEN[8]) == Overtaken(9).sockets[1];
    assert Overtaken(8).sockets[1 := Overtaken(9).sockets[1]] == Overtaken(9).sockets;
  }

  lemma OvertakenLive()
    ensures Step(Overtaken(9), OVERTAKEN[9]) == Overtaken(10)
  {
    assert SocketStep(Overtaken(9), 1, Overtaken(9).sockets[1], OVERTAKEN[9]) == Overtaken(10).sockets[1];
    assert Overtaken(9).sockets[1 := Overtaken(10).sockets[1]] == Overtaken(10).sockets;
  }

  lemma OvertakenCast(i: nat)
    requires i == 2 || i == 6
    ensures Step(Overtaken(i), OVERTAKEN[i]) == Overtaken(i + 1)
  {
    var s, t := Overtaken(i), Step(Overtaken(i), OVERTAKEN[i]);
    assert t.cast == Overtaken(i + 1).cast && t.writers == Overtaken(i + 1).writers;
    assert i == 6 ==> s.sockets[1].Put(Cast(TWO)) == Overtaken(7).sockets[1];
    assert t.sockets == Overtaken(i + 1).sockets;
  }

  lemma {:induction false} OvertakenRuns(i: nat)
    requires i <= |OVERTAKEN|
    ensures Run(OVERTAKEN[..i]) == Overtaken(i)
  {
    if i > 0 {
      OvertakenRuns(i - 1);
      OvertakenStep(i - 1);
      assert OVERTAKEN[..i][..i - 1] == OVERTAKEN[..i - 1];
    }
  }

  /** Live traffic does overtake the replay: a caught-up socket that got the broadcast first, then
      the same entry again, so two copies do occur. */
  lemma LiveCanComeFirst()
    ensures 1 in Run(OVERTAKEN).sockets
    ensures var k := Run(OVERTAKEN).sockets[1];
            CaughtUp(k) && k.sent == [Cast(TWO), Replayed(TWO)] && !ReplayFirst(k.sent) && Copies(k, TWO) == 2
  {
    OvertakenRuns(|OVERTAKEN|);
    assert OVERTAKEN[..|OVERTAKEN|] == OVERTAKEN;
    var sent := [Cast(TWO), Replayed(TWO)];
    assert sent[..1] == [Cast(TWO)];
    CastsSnoc([], Cast(TWO));
    CastsSnoc([Cast(TWO)], Replayed(TWO));
    assert [] + [Cast(TWO)] == [Cast(TWO)] && [Cast(TWO)] + [Replayed(TWO)] == sent;
  }
}
