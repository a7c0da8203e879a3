/**
 A client that connects, receives and reconnects any number of times while the
 relay runs, and the exact condition under which a session leaves it with every
 entry of the log.
 */
module SyncClient {
  import opened Wire
  import opened Stream
  import opened Protocol
  import opened ProtocolInvariant
  import opened ProtocolTheorems
  import opened ProtocolReplay

  /** `held` is what the client has stored, `before` what it had stored when the
      current session was opened. */
  datatype World = World(s: State, held: set<Message>, before: set<Message>, session: Option<nat>)

  datatype Move =
    | Relay(a: Action)
    | Open(id: nat, lastSeq: int)
    | Receive
    | HangUp

  const START := World(INIT, {}, {}, None)

  function ItemMessages(x: Item): set<Message> {
    match x
    case Cast(m) => {m}
    case Replayed(m) => {m}
    case _ => {}
  }

  // The messages the client got from the first n items of a channel.
  ghost function Got(items: seq<Item>, n: nat): set<Message>
    requires n <= |items|
  {
    set i, m | 0 <= i < n && m in ItemMessages(items[i]) :: m
  }

  /** The actions the move makes the relay take. */
  function Actions(w: World, mv: Move): seq<Action> {
    match mv
    case Relay(a) => if a.Drain? && w.session == Some(a.id) then [] else [a]
    case Open(id, lastSeq) => if id in w.s.sockets then [] else [Connect(id, lastSeq)]
    case Receive => if w.session.Some? then [Drain(w.session.value)] else []
    case HangUp => []
  }

  function Perform(w: World, mv: Move): World {
    var s := if Actions(w, mv) == [] then w.s else Step(w.s, Actions(w, mv)[0]);
    match mv
    case Relay(_) => w.(s := s)
    case Open(id, _) =>
      if id in w.s.sockets then w else World(s, w.held, w.held, Some(id))
    case Receive =>
      if w.session.None? || w.session.value !in w.s.sockets then w
      else
        var k, k' := w.s.sockets[w.session.value], s.sockets[w.session.value];
        if k.drained < k'.drained <= |k'.sent|
        then w.(s := s, held := w.held + ItemMessages(k'.sent[k.drained])) else w
    case HangUp => w.(session := None)
  }

  function Live(moves: seq<Move>): World {
    if moves == [] then START else Perform(Live(moves[..|moves| - 1]), moves[|moves| - 1])
  }

  /** What the client holds is what it held before the session and what the session delivered. */
  ghost predicate ClientInv(w: World) {
    w.session.Some? ==>
      && w.session.value in w.s.sockets
      && var k := w.s.sockets[w.session.value];
         k.drained <= |k.sent| && w.held == w.before + Got(k.sent, k.drained)
  }

  /** The relay's side of a client run is itself a run of the protocol. */
  lemma {:induction false} RelaySide(moves: seq<Move>) returns (actions: seq<Action>)
    ensures Run(actions) == Live(moves).s
  {
    actions := [];
    if moves != [] {
      var w, mv := Live(moves[..|moves| - 1]), moves[|moves| - 1];
      actions := RelaySide(moves[..|moves| - 1]);
      var next := Actions(w, mv);
      if next != [] {
        var longer := actions + next;
        assert longer[..|longer| - 1] == actions && longer[|longer| - 1] == next[0];
        if Live(moves).s != w.s {
          actions := longer;
        }
      }
    }
  }

  /** A socket's channel history only grows, and only the write loop drains it. */
  lemma HistoryGrows(s: State, a: Action, id: nat)
    requires id in s.sockets
    ensures id in Step(s, a).sockets
    ensures s.sockets[id].sent <= Step(s, a).sockets[id].sent
    ensures !(a.Drain? && a.id == id) ==> Step(s, a).sockets[id].drained == s.sockets[id].drained
    ensures s.sockets[id].drained <= Step(s, a).sockets[id].drained <= s.sockets[id].drained + 1
  {
  }

  lemma GotPrefix(xs: seq<Item>, ys: seq<Item>, n: nat)
    requires n <= |xs| && xs <= ys
    ensures Got(xs, n) == Got(ys, n)
  {
    forall i | 0 <= i < n ensures xs[i] == ys[i] {}
  }

  lemma GotNext(xs: seq<Item>, n: nat)
    requires n < |xs|
    ensures Got(xs, n + 1) == Got(xs, n) + ItemMessages(xs[n])
  {
  }

  lemma {:induction false} LiveInv(moves: seq<Move>)
    ensures ClientInv(Live(moves))
  {
    if moves != [] {
      var w, mv := Live(moves[..|moves| - 1]), moves[|moves| - 1];
      LiveInv(moves[..|moves| - 1]);
      PerformKeeps(w, mv);
    }
  }

  lemma PerformKeeps(w: World, mv: Move)
    requires ClientInv(w)
    ensures ClientInv(Perform(w, mv))
  {
    var w' := Perform(w, mv);
    if w.session.Some? && !mv.HangUp? && !mv.Open? && Actions(w, mv) != [] {
      var id := w.session.value;
      var a := Actions(w, mv)[0];
      HistoryGrows(w.s, a, id);
      var k, k' := w.s.sockets[id], Step(w.s, a).sockets[id];
      GotPrefix(k.sent, k'.sent, k.drained);
      if mv.Receive? && k.drained < k'.drained <= |k'.sent| {
        GotNext(k'.sent, k.drained);
      }
    }
  }

  /** No write in progress: every stored entry has been broadcast, or its writer has lost track of it. */
  ghost predicate Quiet(s: State) {
    forall w :: w in s.writers ==> !s.writers[w].Stored?
  }

  /** A session that caught up and was drained, with no write under way. */
  ghost predicate Settled(w: World) {
    && w.session.Some? && w.session.value in w.s.sockets
    && CaughtUp(w.s.sockets[w.session.value])
    && w.s.sockets[w.session.value].drained == |w.s.sockets[w.session.value].sent|
    && Quiet(w.s)
  }

  /** The client held, when it connected, every entry up to its last_seq that will not be broadcast
      any more: it had been by then, or never is because its writer lost track of it. */
  ghost predicate SafeResume(w: World)
    requires w.session.Some? && w.session.value in w.s.sockets
  {
    var k := w.s.sockets[w.session.value];
    forall m :: m in w.s.log && m.seqNo in k.base + w.s.orphans && m.seqNo <= k.lastSeq ==> m in w.before
  }

  /** Every entry that its writer lost track of was in the log when the session read it, or held before. */
  ghost predicate OrphansReached(w: World)
    requires w.session.Some? && w.session.value in w.s.sockets && w.s.sockets[w.session.value].ranged.Some?
    requires w.s.sockets[w.session.value].ranged.value <= |w.s.log|
  {
    forall m :: m in w.s.log && m.seqNo in w.s.orphans ==>
                  m in w.s.log[..w.s.sockets[w.session.value].ranged.value] || m in w.before
  }

  lemma {:induction false} GotAll(items: seq<Item>)
    ensures forall m :: m in Got(items, |items|) <==> m in Casts(items) || m in Replays(items)
  {
    if items != [] {
      var init, x := items[..|items| - 1], items[|items| - 1];
      GotAll(init);
      GotPrefix(init, items, |init|);
      GotNext(items, |init|);
      assert items == init + [x];
      CastsSnoc(init, x);
    }
  }

  /** What a settled session did not deliver. */
  lemma NotDelivered(moves: seq<Move>, m: Message)
    requires Settled(Live(moves)) && m in Live(moves).s.log
    ensures var w := Live(moves); var k := w.s.sockets[w.session.value];
            k.ranged.value <= |w.s.log| &&
            (m in w.held <==>
               m in w.before || (m.seqNo in w.s.cast && m.seqNo !in k.base)
               || (m in w.s.log[..k.ranged.value] && m.seqNo > k.lastSeq))
  {
    var w := Live(moves);
    var actions := RelaySide(moves);
    LiveInv(moves);
    GotAll(w.s.sockets[w.session.value].sent);
    SentExactly(actions, w.session.value, m);
  }

  /** What was broadcast before the session's socket registered was in the log when the relay read it. */
  lemma BaseIsRead(moves: seq<Move>, m: Message)
    requires Settled(Live(moves)) && m in Live(moves).s.log
    ensures var w := Live(moves); var k := w.s.sockets[w.session.value];
            && k.ranged.value <= |w.s.log|
            && (m.seqNo in k.base ==> m.seqNo in w.s.cast && m in w.s.log[..k.ranged.value])
            && (m.seqNo in w.s.cast <==> m.seqNo !in w.s.orphans)
  {
    var w := Live(moves);
    var k := w.s.sockets[w.session.value];
    var actions := RelaySide(moves);
    RunInv(actions);
    assert SocketInv(w.s, k) && Accounted(w.s, m);
    if m.seqNo in k.base {
      var r :| r in w.s.log[..k.ranged.value] && r.seqNo == m.seqNo;
      SameNumberSameMessage(w.s.log, r, m);
    }
  }

  /** Delivery over whole runs: after any number of reconnects, whatever replies were lost, a settled
      session leaves the client with every entry of the log if and only if it resumed from a safe
      last_seq and read every entry whose writer lost track of it. */
  lemma SettledSessionIsComplete(moves: seq<Move>)
    requires Settled(Live(moves))
    ensures Live(moves).s.sockets[Live(moves).session.value].ranged.value <= |Live(moves).s.log|
    ensures (forall m :: m in Live(moves).s.log ==> m in Live(moves).held)
            <==> SafeResume(Live(moves)) && OrphansReached(Live(moves))
  {
    var w := Live(moves);
    var k := w.s.sockets[w.session.value];
    var actions := RelaySide(moves);
    RunInv(actions);
    assert SocketInv(w.s, k);
    forall m | m in w.s.log
      ensures m in w.held <==>
              (m.seqNo in k.base + w.s.orphans && m.seqNo <= k.lastSeq ==> m in w.before)
              && (m.seqNo in w.s.orphans ==> m in w.s.log[..k.ranged.value] || m in w.before)
    {
      NotDelivered(moves, m);
      BaseIsRead(moves, m);
    }
  }

  /** Whatever the client holds is an entry of the log. */
  lemma {:induction false} HeldIsStored(moves: seq<Move>)
    ensures forall m :: m in Live(moves).held || m in Live(moves).before ==> m in Live(moves).s.log
  {
    if moves != [] {
      var w, mv := Live(moves[..|moves| - 1]), moves[|moves| - 1];
      var w' := Live(moves);
      HeldIsStored(moves[..|moves| - 1]);
      LogGrows(moves[..|moves| - 1], mv);
      LiveInv(moves);
      if mv.Receive? && w'.held != w.held {
        var actions := RelaySide(moves);
        RunInv(actions);
        var k := w'.s.sockets[w'.session.value];
        assert SocketInv(w'.s, k);
        DeliveredIsStored(w'.s, k);
      }
    }
  }

  lemma DeliveredIsStored(s: State, k: Socket)
    requires SocketInv(s, k)
    ensures forall m :: m in Got(k.sent, k.drained) ==> m in s.log
  {
    GotAll(k.sent);
    if k.ranged.Some? { AfterIsTheTail(s.log[..k.ranged.value], k.lastSeq); }
    forall m | m in Got(k.sent, k.drained) ensures m in s.log {
      assert m in Got(k.sent, |k.sent|);
      if m in Replays(k.sent) {
        var i :| 0 <= i < |Replays(k.sent)| && Replays(k.sent)[i] == m;
        assert After(s.log[..k.ranged.value], k.lastSeq)[i] == m;
      }
    }
  }

  lemma LogGrows(moves: seq<Move>, mv: Move)
    ensures Live(moves).s.log <= Perform(Live(moves), mv).s.log
  {
    var w := Live(moves);
    var actions := RelaySide(moves);
    RunInv(actions);
    if Actions(w, mv) != [] { WritesPreserved(w.s, Actions(w, mv)[0]); }
  }

  ghost predicate HoldsNumber(held: set<Message>, n: int) {
    exists m :: m in held && m.seqNo == n
  }

  /** A client can check safety by itself: holding an entry for every number up to L is enough. */
  lemma ContiguousResumeIsSafe(moves: seq<Move>)
    requires Live(moves).session.Some? && Live(moves).session.value in Live(moves).s.sockets
    requires forall n :: 1 <= n <= Live(moves).s.sockets[Live(moves).session.value].lastSeq ==>
               HoldsNumber(Live(moves).before, n)
    ensures SafeResume(Live(moves))
  {
    var w := Live(moves);
    var k := w.s.sockets[w.session.value];
    var actions := RelaySide(moves);
    RunInv(actions);
    HeldIsStored(moves);
    forall m | m in w.s.log && m.seqNo <= k.lastSeq ensures m in w.before {
      assert HoldsNumber(w.before, m.seqNo);
      var c :| c in w.before && c.seqNo == m.seqNo;
      SameNumberSameMessage(w.s.log, c, m);
    }
  }

  // ----- a lost reply -----

  lemma LiveSnoc(moves: seq<Move>, mv: Move)
    ensures Live(moves + [mv]) == Perform(Live(moves), mv)
  {
    assert (moves + [mv])[..|moves|] == moves;
  }

  /** An HTTP write whose XADD reply is lost: stored, never broadcast. */
  function LostWrite(request: nat): seq<Move> {
    [Relay(Incr(OnHttp(request), BODY))] + [Relay(AppendLost(OnHttp(request)))]
  }

  lemma LostDraw(moves: seq<Move>, request: nat)
    requires Live(moves).s.At(OnHttp(request)).Idle?
    ensures var w, w' := Live(moves), Live(moves + [Relay(Incr(OnHttp(request), BODY))]);
            var m := BODY.(seqNo := w.s.counter + 1);
            && w'.held == w.held && w'.session == w.session && w'.s.sockets == w.s.sockets && w'.s.log == w.s.log
            && w'.s.At(OnHttp(request)) == Numbered(m) && w'.s.writers == w.s.writers[OnHttp(request) := Numbered(m)]
  {
    LiveSnoc(moves, Relay(Incr(OnHttp(request), BODY)));
  }

  lemma LostStore(moves: seq<Move>, request: nat, m: Message)
    requires Live(moves).s.At(OnHttp(request)) == Numbered(m)
    ensures var w, w' := Live(moves), Live(moves + [Relay(AppendLost(OnHttp(request)))]);
            && w'.held == w.held && w'.session == w.session && w'.s.sockets == w.s.sockets
            && w'.s.log == w.s.log + [m] && w'.s.writers == w.s.writers[OnHttp(request) := Idle]
  {
    LiveSnoc(moves, Relay(AppendLost(OnHttp(request))));
  }

  lemma LostWriteStores(moves: seq<Move>, request: nat)
    requires Live(moves).s.At(OnHttp(request)).Idle?
    ensures var w, w' := Live(moves), Live(moves + LostWrite(request)); var m := BODY.(seqNo := w.s.counter + 1);
            && w'.held == w.held && w'.session == w.session && w'.s.sockets == w.s.sockets
            && w'.s.log == w.s.log + [m] && w'.s.writers == w.s.writers[OnHttp(request) := Idle]
  {
    var draw := [Relay(Incr(OnHttp(request), BODY))];
    LostDraw(moves, request);
    LostStore(moves + draw, request, BODY.(seqNo := Live(moves).s.counter + 1));
    assert moves + LostWrite(request) == moves + draw + [Relay(AppendLost(OnHttp(request)))];
  }

  /** Every settled session misses such a write, and is still settled. */
  lemma LostReplyIsMissed(moves: seq<Move>, request: nat)
    requires Settled(Live(moves)) && Live(moves).s.At(OnHttp(request)).Idle?
    ensures var w, w' := Live(moves), Live(moves + LostWrite(request)); var m := BODY.(seqNo := w.s.counter + 1);
            Settled(w') && m in w'.s.log && m !in w'.held
  {
    var actions := RelaySide(moves);
    RunInv(actions);
    HeldIsStored(moves);
    LostWriteStores(moves, request);
    var w := Live(moves);
    assert (w.s.log + [BODY.(seqNo := w.s.counter + 1)])[|w.s.log|] == BODY.(seqNo := w.s.counter + 1);
  }

  // ----- resuming from the highest number seen is not safe -----

  const SLOW := OnHttp(0)
  const FAST := OnHttp(1)

  /** The slow writer draws 1 and the fast one 2; the fast one stores and broadcasts first; the client sees 2 and
      reconnects from 2 after the slow one has stored and broadcast 1. */
  const RACE_THEN_RESUME: seq<Move> := [
    Open(0, 0), Relay(SkipCatchup(0)),
    Relay(Incr(SLOW, BODY)), Relay(Incr(FAST, BODY)),
    Relay(Append(FAST)), Relay(Broadcast(FAST)), Receive, HangUp,
    Relay(Append(SLOW)), Relay(Broadcast(SLOW)),
    Open(1, 2), Relay(RangeOk(1)), Relay(GoLive(1))]

  function First(sent: seq<Item>, drained: nat): Socket {
    Socket(0, RoleUnspecified, Phase.Live, sent, drained, true, false, {}, None)
  }

  function Second(phase: Phase, ranged: Option<nat>): Socket {
    Socket(2, RoleUnspecified, phase, [], 0, true, false, {1, 2}, ranged)
  }

  function Race(log: seq<Message>, k: Socket, slow: Write, fast: Write, cast: set<int>): State {
    State(2, log, map[0 := k], map[SLOW := slow, FAST := fast], map[1 := SLOW, 2 := FAST], cast, {})
  }

  /** The world before the i-th move of the race. */
  function RaceWorld(i: nat): World {
    var late := Race([TWO, ONE], First([Cast(TWO), Cast(ONE)], 1), Idle, Idle, {1, 2});
    match i
    case 0 => START
    case 1 => World(INIT.(sockets := map[0 := First([], 0).(phase := Joined)]), {}, {}, Some(0))
    case 2 => World(INIT.(sockets := map[0 := First([], 0)]), {}, {}, Some(0))
    case 3 => World(State(1, [], map[0 := First([], 0)], map[SLOW := Numbered(ONE)], map[1 := SLOW], {}, {}), {}, {}, Some(0))
    case 4 => World(Race([], First([], 0), Numbered(ONE), Numbered(TWO), {}), {}, {}, Some(0))
    case 5 => World(Race([TWO], First([], 0), Numbered(ONE), Stored(TWO), {}), {}, {}, Some(0))
    case 6 => World(Race([TWO], First([Cast(TWO)], 0), Numbered(ONE), Idle, {2}), {}, {}, Some(0))
    case 7 => World(Race([TWO], First([Cast(TWO)], 1), Numbered(ONE), Idle, {2}), {TWO}, {}, Some(0))
    case 8 => World(Race([TWO], First([Cast(TWO)], 1), Numbered(ONE), Idle, {2}), {TWO}, {}, None)
    case 9 => World(Race([TWO, ONE], First([Cast(TWO)], 1), Stored(ONE), Idle, {2}), {TWO}, {}, None)
    case 10 => World(late, {TWO}, {}, None)
    case 11 => World(late.(sockets := late.sockets[1 := Second(Joined, None)]), {TWO}, {TWO}, Some(1))
    case 12 => World(late.(sockets := late.sockets[1 := Second(Replaying([]), Some(2))]), {TWO}, {TWO}, Some(1))
    case _ => World(late.(sockets := late.sockets[1 := Second(Phase.Live, Some(2))]), {TWO}, {TWO}, Some(1))
  }

  lemma RaceStep(i: nat)
    requires i < |RACE_THEN_RESUME|
    ensures Perform(RaceWorld(i), RACE_THEN_RESUME[i]) == RaceWorld(i + 1)
  {
    if i == 5 {
      FastCast();
    } else if i == 9 {
      SlowCast();
    } else if i == 11 {
      RaceRange();
    } else if i < 5 {
      RaceStart(i);
    } else if i < 9 {
      RaceHangUp(i);
    } else {
      RaceResume(i);
    }
  }

  lemma RaceHangUp(i: nat)
    requires i in {6, 7, 8}
    ensures Perform(RaceWorld(i), RACE_THEN_RESUME[i]) == RaceWorld(i + 1)
  {
    if i == 6 { assert ItemMessages(Cast(TWO)) == {TWO}; }
  }

  lemma RaceResume(i: nat)
    requires i in {10, 12}
    ensures Perform(RaceWorld(i), RACE_THEN_RESUME[i]) == RaceWorld(i + 1)
  {}

  lemma RaceStart(i: nat)
    requires i < 5
    ensures Perform(RaceWorld(i), RACE_THEN_RESUME[i]) == RaceWorld(i + 1)
  {
  }

  lemma FastCast()
    ensures Perform(RaceWorld(5), RACE_THEN_RESUME[5]) == RaceWorld(6)
  {
    var w := RaceWorld(5);
    var k, t := w.s.sockets[0], Step(w.s, RACE_THEN_RESUME[5].a);
    OneSocketCast(k, Cast(TWO));
    assert w.s.sockets == map[0 := k] && k.Put(Cast(TWO)) == RaceWorld(6).s.sockets[0];
    assert t.cast == RaceWorld(6).s.cast && t.writers == RaceWorld(6).s.writers;
  }

  lemma SlowCast()
    ensures Perform(RaceWorld(9), RACE_THEN_RESUME[9]) == RaceWorld(10)
  {
    var w := RaceWorld(9);
    var k, t := w.s.sockets[0], Step(w.s, RACE_THEN_RESUME[9].a);
    OneSocketCast(k, Cast(ONE));
    assert w.s.sockets == map[0 := k] && k.Put(Cast(ONE)) == RaceWorld(10).s.sockets[0];
    assert t.cast == RaceWorld(10).s.cast && t.writers == RaceWorld(10).s.writers;
  }

  lemma OneSocketCast(k: Socket, x: Item)
    requires k.open && k.HasRoom()
    ensures CastAll(map[0 := k], x) == map[0 := k.Put(x)]
  {}

  lemma RaceRange()
    ensures Perform(RaceWorld(11), RACE_THEN_RESUME[11]) == RaceWorld(12)
  {
    assert [TWO, ONE][..1] == [TWO] && [TWO][..0] == [];
    assert After([TWO], 2) == [];
  }

  lemma RaceOneMore(moves: seq<Move>, i: nat)
    requires i < |RACE_THEN_RESUME| && Live(moves) == RaceWorld(i)
    ensures Live(moves + [RACE_THEN_RESUME[i]]) == RaceWorld(i + 1)
  {
    LiveSnoc(moves, RACE_THEN_RESUME[i]);
    RaceStep(i);
  }

  lemma {:induction false} RaceRuns(i: nat)
    requires i <= |RACE_THEN_RESUME|
    ensures Live(RACE_THEN_RESUME[..i]) == RaceWorld(i)
  {
    if i > 0 {
      RaceRuns(i - 1);
      RaceOneMore(RACE_THEN_RESUME[..i - 1], i - 1);
      assert RACE_THEN_RESUME[..i] == RACE_THEN_RESUME[..i - 1] + [RACE_THEN_RESUME[i - 1]];
    }
  }

  /** Resuming from the highest number seen loses entries: a settled session of such a client can miss one for good. */
  lemma HighestSeenIsNotSafe()
    ensures var w := Live(RACE_THEN_RESUME);
            && Settled(w) && w.s.orphans == {}
            && w.before == {TWO} && w.s.sockets[w.session.value].lastSeq == 2
            && ONE in w.s.log && ONE !in w.held
  {
    RaceRuns(|RACE_THEN_RESUME|);
    assert RACE_THEN_RESUME[..|RACE_THEN_RESUME|] == RACE_THEN_RESUME;
    assert RaceWorld(13).s.log[1] == ONE;
  }
}
