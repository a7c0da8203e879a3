/**
 The 64 slots at their limit: a replay of 64 entries can complete, and one live
 broadcast during it is enough that it never does.
 */
module ProtocolLimit {
  import opened Wire
  import opened Stream
  import opened Protocol
  import opened ProtocolInvariant
  import opened ProtocolTheorems
  import opened ProtocolReplay

  /** One whole write over HTTP. */
  const WRITE: seq<Action> := [Incr(HTTP, BODY), Append(HTTP), Broadcast(HTTP)]

  function Writes(n: nat): seq<Action> {
    if n == 0 then [] else Writes(n - 1) + WRITE
  }

  lemma Draws(actions: seq<Action>)
    requires Run(actions).At(HTTP).Idle?
    ensures var s, t := Run(actions), Run(actions + [Incr(HTTP, BODY)]);
            t.At(HTTP) == Numbered(BODY.(seqNo := s.counter + 1)) && t.counter == s.counter + 1
            && t.log == s.log && t.sockets == s.sockets
  {
    RunSnoc(actions, Incr(HTTP, BODY));
  }

  lemma Stores(actions: seq<Action>)
    requires Run(actions).At(HTTP).Numbered?
    ensures var s, t := Run(actions), Run(actions + [Append(HTTP)]);
            t.At(HTTP) == Stored(s.At(HTTP).msg) && t.counter == s.counter
            && t.log == s.log + [s.At(HTTP).msg] && t.sockets == s.sockets
  {
    RunSnoc(actions, Append(HTTP));
  }

  lemma Broadcasts(actions: seq<Action>)
    requires Run(actions).At(HTTP).Stored?
    ensures var s, t := Run(actions), Run(actions + [Broadcast(HTTP)]);
            t.At(HTTP).Idle? && t.counter == s.counter && t.log == s.log
            && t.sockets == CastAll(s.sockets, Cast(s.At(HTTP).msg))
  {
    RunSnoc(actions, Broadcast(HTTP));
  }

  /** A write appends its entry and offers it to every socket. */
  lemma OneWrite(actions: seq<Action>)
    requires Run(actions).At(HTTP).Idle?
    ensures var s, t := Run(actions), Run(actions + WRITE); var m := BODY.(seqNo := s.counter + 1);
            t.At(HTTP).Idle? && t.counter == s.counter + 1 && t.log == s.log + [m] && t.sockets == CastAll(s.sockets, Cast(m))
  {
    var a, b, c := [Incr(HTTP, BODY)], [Append(HTTP)], [Broadcast(HTTP)];
    Draws(actions);
    Stores(actions + a);
    Broadcasts(actions + a + b);
    assert actions + WRITE == actions + a + b + c;
  }

  /** No socket, and n entries in the log, all but the first above number 1. */
  predicate Wrote(s: State, n: nat) {
    s.At(HTTP).Idle? && s.counter == n && s.sockets == map[] && |After(s.log, 1)| == if n == 0 then 0 else n - 1
  }

  lemma WroteOneMore(actions: seq<Action>, n: nat)
    requires Wrote(Run(actions), n)
    ensures Wrote(Run(actions + WRITE), n + 1)
  {
    OneWrite(actions);
    AfterSnoc(Run(actions).log, BODY.(seqNo := n + 1), 1);
  }

  lemma {:induction false} Written(n: nat)
    ensures Wrote(Run(Writes(n)), n)
  {
    if n > 0 {
      Written(n - 1);
      WroteOneMore(Writes(n - 1), n - 1);
    }
  }

  /** A client that holds number 1 connects when SEND_BUFFER more entries are stored, and the relay
      reads them for it. */
  function FullReplay(): seq<Action> { Writes(SEND_BUFFER + 1) + [Connect(1, 1)] + [RangeOk(1)] }

  lemma ReplayIsFull()
    ensures var s := Run(FullReplay());
            s.At(HTTP).Idle? && 1 in s.sockets && Waiting(s.sockets[1])
            && s.sockets[1].phase.Replaying? && s.sockets[1].sent == [] && s.sockets[1].drained == 0
            && |Todo(s.sockets[1])| == SEND_BUFFER
  {
    Written(SEND_BUFFER + 1);
    RunSnoc(Writes(SEND_BUFFER + 1), Connect(1, 1));
    RunSnoc(Writes(SEND_BUFFER + 1) + [Connect(1, 1)], RangeOk(1));
  }

  /** The replay fills the channel to the last slot and can complete; after one more write it cannot,
      whatever happens. */
  lemma OneBroadcastTooMany()
    ensures exists more :: 1 in Run(FullReplay() + more).sockets && CaughtUp(Run(FullReplay() + more).sockets[1])
    ensures 1 in Run(FullReplay() + WRITE).sockets && Waiting(Run(FullReplay() + WRITE).sockets[1])
    ensures forall more :: 1 in Run(FullReplay() + WRITE + more).sockets
                           && !CaughtUp(Run(FullReplay() + WRITE + more).sockets[1])
  {
    ReplayIsFull();
    ReplayCanCompleteIff(FullReplay(), 1);
    OneWrite(FullReplay());
    ReplayCanCompleteIff(FullReplay() + WRITE, 1);
    forall more ensures 1 in Run(FullReplay() + WRITE + more).sockets { StaysIn(FullReplay() + WRITE, more, 1); }
  }

  lemma {:induction false} StaysIn(before: seq<Action>, more: seq<Action>, id: nat)
    requires id in Run(before).sockets
    ensures id in Run(before + more).sockets
  {
    if more == [] {
      assert before + more == before;
    } else {
      var init := more[..|more| - 1];
      StaysIn(before, init, id);
      RunSnoc(before + init, more[|more| - 1]);
      assert before + more == before + init + [more[|more| - 1]];
      SocketsStay(Run(before + init), more[|more| - 1], id);
    }
  }
}
