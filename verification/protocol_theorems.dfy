/**
 What every run of the sync protocol guarantees: order of numbers, no gap for a
 socket that caught up, at most two copies of anything, and the limits of the
 replay.
 */
module ProtocolTheorems {
  import opened Wire
  import opened Stream
  import opened Protocol
  import opened ProtocolInvariant

  /** The numbers of the log are distinct and at most the counter, and every writer's
      messages are increasing both in the log and in every channel. */
  lemma SequenceSafety(actions: seq<Action>)
    ensures var s := Run(actions);
            && DistinctSeqs(s.log)
            && (forall m :: m in s.log ==> 1 <= m.seqNo <= s.counter)
            && Ordered(s.log, s.author)
            && forall id :: id in s.sockets ==> Ordered(Casts(s.sockets[id].sent), s.author)
  {
    RunInv(actions);
    var s := Run(actions);
    forall id | id in s.sockets ensures Ordered(Casts(s.sockets[id].sent), s.author) {
      assert SocketInv(s, s.sockets[id]);
    }
  }

  /** A socket whose replay succeeded, that is still registered and was never dropped from a broadcast. */
  predicate CaughtUp(k: Socket) {
    k.phase.Live? && k.open && !k.doomed && k.ranged.Some?
  }

  /** What a caught-up socket has been sent, exactly: the broadcasts since it registered,
      and the entries above its last_seq that were in the log when it read it. */
  lemma SentExactly(actions: seq<Action>, id: nat, m: Message)
    requires id in Run(actions).sockets && CaughtUp(Run(actions).sockets[id]) && m in Run(actions).log
    ensures var s := Run(actions); var k := s.sockets[id];
            && k.ranged.value <= |s.log|
            && (m in Casts(k.sent) <==> m.seqNo in s.cast && m.seqNo !in k.base)
            && (m in Replays(k.sent) <==> m in s.log[..k.ranged.value] && m.seqNo > k.lastSeq)
  {
    RunInv(actions);
    var s := Run(actions);
    var k := s.sockets[id];
    assert SocketInv(s, k);
    assert Replays(k.sent) + [] == Replays(k.sent);
    AfterIsTheTail(s.log[..k.ranged.value], k.lastSeq);
    if m.seqNo in s.cast && m.seqNo !in k.base {
      assert m.seqNo in Seqs(Casts(k.sent));
      var c :| c in Casts(k.sent) && c.seqNo == m.seqNo;
      SameNumberSameMessage(s.log, c, m);
    }
    if m in Casts(k.sent) { assert m.seqNo in Seqs(Casts(k.sent)); }
  }

  lemma SameNumberSameMessage(log: seq<Message>, a: Message, b: Message)
    requires DistinctSeqs(log) && a in log && b in log && a.seqNo == b.seqNo
    ensures a == b
  {
    var i :| 0 <= i < |log| && log[i] == a;
    var j :| 0 <= j < |log| && log[j] == b;
    assert i == j;
  }

  /** Nothing is put on a channel more than twice, whatever happens to the socket. */
  lemma AtMostTwice(actions: seq<Action>, id: nat, m: Message)
    requires id in Run(actions).sockets
    ensures Copies(Run(actions).sockets[id], m) <= 2
  {
    RunInv(actions);
    var s := Run(actions);
    var k := s.sockets[id];
    assert SocketInv(s, k);
    DistinctOnce(Casts(k.sent), m);
    if k.ranged.Some? {
      var n := k.ranged.value;
      AfterIsTheTail(s.log[..n], k.lastSeq);
      DistinctOnce(Replays(k.sent), m);
    }
  }

  lemma {:induction false} DistinctOnce(ms: seq<Message>, m: Message)
    requires DistinctSeqs(ms)
    ensures multiset(ms)[m] <= 1
  {
    if ms != [] {
      var init, last := ms[..|ms| - 1], ms[|ms| - 1];
      DistinctOnce(init, m);
      assert ms == init + [last];
      if last == m {
        forall i | 0 <= i < |init| ensures init[i] != m { assert ms[i].seqNo != last.seqNo; }
      }
    }
  }

  /** No gap on reconnect: a caught-up socket has been sent every later entry once or twice,
      unless the entry's writer has not broadcast it yet or lost track of it. */
  lemma NoGap(actions: seq<Action>, id: nat, m: Message)
    requires id in Run(actions).sockets && CaughtUp(Run(actions).sockets[id])
    requires m in Run(actions).log && m.seqNo > Run(actions).sockets[id].lastSeq
    requires m.seqNo !in Run(actions).orphans && !HeldByWriter(Run(actions), m)
    ensures 1 <= Copies(Run(actions).sockets[id], m) <= 2
  {
    RunInv(actions);
    AtMostTwice(actions, id, m);
    SentExactly(actions, id, m);
    var s := Run(actions);
    var k := s.sockets[id];
    assert SocketInv(s, k) && Accounted(s, m);
    if m.seqNo in k.base {
      var r :| r in s.log[..k.ranged.value] && r.seqNo == m.seqNo;
      SameNumberSameMessage(s.log, r, m);
    }
  }

  /** No replay ever carries number 1, nor anything at all to a socket without last_seq:
      a replay needs last_seq >= 1 and carries only what is above it. */
  lemma FirstEntryIsNeverReplayed(actions: seq<Action>, id: nat, m: Message)
    requires id in Run(actions).sockets && m in Replays(Run(actions).sockets[id].sent)
    ensures m.seqNo > 1 && Run(actions).sockets[id].lastSeq > 0
  {
    RunInv(actions);
    var s := Run(actions);
    var k := s.sockets[id];
    assert SocketInv(s, k);
    AfterIsTheTail(s.log[..k.ranged.value], k.lastSeq);
  }
}
