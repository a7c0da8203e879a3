/**
 The invariant of the sync protocol and its proof over every run.
 */
module ProtocolInvariant {
  import opened Wire
  import opened Stream
  import opened Protocol

  ghost predicate DrawnBy(author: map<int, Writer>, n: int, w: Writer) {
    n in author && author[n] == w
  }

  /** Numbers, log and writers. */
  ghost predicate WritesInv(s: State) {
    && s.counter >= 0
    && DistinctSeqs(s.log)
    && (forall m :: m in s.log ==> 1 <= m.seqNo <= s.counter && m.seqNo in s.author)
    && (forall n :: n in s.author ==> 1 <= n <= s.counter)
    && (forall w :: w in s.writers ==> WriteInv(s, w, s.writers[w]))
    && Ordered(s.log, s.author)
    && s.cast !! s.orphans
    && s.cast + s.orphans <= Seqs(s.log)
    && (forall m :: m in s.log ==> Accounted(s, m))
  }

  /** One writer in flight: its number is its own, it is fresh until stored, and not broadcast once stored. */
  ghost predicate WriteInv(s: State, w: Writer, st: Write) {
    match st
    case Idle => true
    case Numbered(msg) =>
      && DrawnBy(s.author, msg.seqNo, w)
      && (forall m :: m in s.log && DrawnBy(s.author, m.seqNo, w) ==> m.seqNo < msg.seqNo)
    case Stored(msg) =>
      && DrawnBy(s.author, msg.seqNo, w)
      && msg in s.log && msg.seqNo !in s.cast && msg.seqNo !in s.orphans
      && (forall m :: m in s.log && DrawnBy(s.author, m.seqNo, w) ==> m.seqNo <= msg.seqNo)
  }

  /** Every stored entry has been broadcast, was orphaned, or is still held by its writer. */
  ghost predicate Accounted(s: State, m: Message) {
    m.seqNo in s.cast || m.seqNo in s.orphans || HeldByWriter(s, m)
  }

  ghost predicate HeldByWriter(s: State, m: Message) {
    m.seqNo in s.author && s.At(s.author[m.seqNo]) == Stored(m)
  }

  /** Messages of one writer appear in increasing order. */
  ghost predicate Ordered(ms: seq<Message>, author: map<int, Writer>) {
    forall i, j ::
      0 <= i < j < |ms| && SameAuthor(author, ms[i].seqNo, ms[j].seqNo) ==> ms[i].seqNo < ms[j].seqNo
  }

  ghost predicate SameAuthor(author: map<int, Writer>, a: int, b: int) {
    a in author && b in author && author[a] == author[b]
  }

  /** One socket: what it holds of the live traffic and of the replay. */
  ghost predicate SocketInv(s: State, k: Socket) {
    && LiveInv(s, k)
    && ReplayInv(s, k)
    && k.drained <= |k.sent| && |k.sent| - k.drained <= SEND_BUFFER
    && (k.phase.Joined? || k.phase.Replaying? ==> k.drained == 0)
    && (k.phase.Gone? ==> !k.open)
    && (!k.open && !k.phase.Gone? ==> k.doomed)
  }

  /** An undoomed registered socket holds exactly the broadcasts made since it registered. */
  ghost predicate LiveInv(s: State, k: Socket) {
    var casts := Casts(k.sent);
    && k.base <= s.cast
    && (forall m :: m in casts ==> m in s.log)
    && Seqs(casts) <= s.cast - k.base
    && (k.open && !k.doomed ==> Seqs(casts) == s.cast - k.base)
    && DistinctSeqs(casts)
    && Ordered(casts, s.author)
  }

  /** What the socket has been replayed plus what is still to come is the log tail read by Range. */
  ghost predicate ReplayInv(s: State, k: Socket) {
    match k.ranged
    case None => Replays(k.sent) == [] && !k.phase.Replaying?
    case Some(n) =>
      && n <= |s.log| && !k.phase.Joined? && k.lastSeq > 0
      && k.base <= Seqs(s.log[..n])
      && Replays(k.sent) <= After(s.log[..n], k.lastSeq)
      && (k.open ==> Replays(k.sent) + Todo(k) == After(s.log[..n], k.lastSeq))
      && (k.open && k.phase.Live? ==> |After(s.log[..n], k.lastSeq)| <= SEND_BUFFER)
  }

  function Todo(k: Socket): seq<Message> {
    if k.phase.Replaying? then k.phase.todo else []
  }

  ghost predicate Inv(s: State) {
    && WritesInv(s)
    && forall id :: id in s.sockets ==> SocketInv(s, s.sockets[id])
  }

  // ----- channel contents -----

  lemma CastsSnoc(items: seq<Item>, x: Item)
    ensures Casts(items + [x]) == if x.Cast? then Casts(items) + [x.m] else Casts(items)
    ensures Replays(items + [x]) == if x.Replayed? then Replays(items) + [x.m] else Replays(items)
  {
    assert (items + [x])[..|items|] == items;
  }

  lemma {:induction false} ReplaysBounded(items: seq<Item>)
    ensures |Replays(items)| <= |items|
  {
    if items != [] { ReplaysBounded(items[..|items| - 1]); }
  }

  lemma SeqsSnoc(ms: seq<Message>, m: Message)
    ensures Seqs(ms + [m]) == Seqs(ms) + {m.seqNo}
  {
    forall x | x in ms + [m] ensures x in ms || x == m {}
    assert (ms + [m])[|ms|] == m;
    forall x | x in ms ensures x in ms + [m] {}
  }

  // ----- writers -----

  /** The log and the authors only grow, so what was stored or drawn stays so. */
  ghost predicate Extends(s: State, t: State) {
    && s.log <= t.log
    && s.cast <= t.cast
    && (forall n :: n in s.author ==> n in t.author && t.author[n] == s.author[n])
  }

  lemma WritesPreserved(s: State, a: Action)
    requires WritesInv(s)
    ensures WritesInv(Step(s, a)) && Extends(s, Step(s, a))
  {
    match a
    case Incr(w, msg) => IncrPreserves(s, w, msg);
    case Append(w) => AppendPreserves(s, w, a);
    case AppendLost(w) => AppendPreserves(s, w, a);
    case Abort(w) => AbortPreserves(s, w);
    case Broadcast(w) => BroadcastPreserves(s, w);
    case _ =>
      NoWrite(s, a);
      WritesFrame(s, Step(s, a));
  }

  /** The steps that touch no writer, no number and no log entry. */
  lemma NoWrite(s: State, a: Action)
    requires !a.Incr? && !a.Append? && !a.AppendLost? && !a.Abort? && !a.Broadcast?
    ensures var t := Step(s, a);
            && t.counter >= s.counter && t.log == s.log && t.writers == s.writers
            && t.author == s.author && t.cast == s.cast && t.orphans == s.orphans
  {
  }

  lemma WritesFrame(s: State, t: State)
    requires WritesInv(s) && t.counter >= s.counter && t.log == s.log && t.writers == s.writers
    requires t.author == s.author && t.cast == s.cast && t.orphans == s.orphans
    ensures WritesInv(t) && Extends(s, t)
  {
    assert forall w :: w in t.writers ==> WriteInv(s, w, s.writers[w]);
    assert forall m :: m in t.log ==> Accounted(s, m);
  }

  lemma IncrPreserves(s: State, w: Writer, msg: Message)
    requires WritesInv(s)
    ensures WritesInv(Step(s, Incr(w, msg))) && Extends(s, Step(s, Incr(w, msg)))
  {
    var t := Step(s, Incr(w, msg));
    if s.At(w).Idle? && s.CanWrite(w) {
      forall v | v in t.writers ensures WriteInv(t, v, t.writers[v]) { IncrKeepsWriter(s, t, w, msg, v); }
      forall m | m in t.log ensures Accounted(t, m) { assert Accounted(s, m); }
      assert Ordered(t.log, t.author) by {
        forall i | 0 <= i < |s.log| ensures s.log[i].seqNo <= s.counter { assert s.log[i] in s.log; }
      }
    }
  }

  lemma IncrKeepsWriter(s: State, t: State, w: Writer, msg: Message, v: Writer)
    requires WritesInv(s) && s.At(w).Idle? && s.CanWrite(w) && t == Step(s, Incr(w, msg)) && v in t.writers
    ensures WriteInv(t, v, t.writers[v])
  {
    if v != w { assert WriteInv(s, v, s.writers[v]); }
  }

  lemma AbortPreserves(s: State, w: Writer)
    requires WritesInv(s)
    ensures WritesInv(Step(s, Abort(w))) && Extends(s, Step(s, Abort(w)))
  {
    var t := Step(s, Abort(w));
    if t != s {
      forall v | v in t.writers ensures WriteInv(t, v, t.writers[v]) {
        if v != w { assert WriteInv(s, v, s.writers[v]); }
      }
      forall m | m in t.log ensures Accounted(t, m) { assert Accounted(s, m); }
    }
  }

  /** A drawn number that is not stored yet is above everything its writer stored, so storing it keeps the log in order. */
  lemma NumberIsFresh(s: State, w: Writer)
    requires WritesInv(s) && s.At(w).Numbered?
    ensures forall i :: 0 <= i < |s.log| ==> s.log[i].seqNo != s.At(w).msg.seqNo
    ensures DistinctSeqs(s.log + [s.At(w).msg]) && Ordered(s.log + [s.At(w).msg], s.author)
  {
    var msg := s.At(w).msg;
    assert WriteInv(s, w, s.writers[w]);
    forall i | 0 <= i < |s.log|
      ensures s.log[i].seqNo != msg.seqNo
      ensures SameAuthor(s.author, s.log[i].seqNo, msg.seqNo) ==> s.log[i].seqNo < msg.seqNo
    {
      assert s.log[i] in s.log;
      if DrawnBy(s.author, s.log[i].seqNo, w) {}
    }
  }

  lemma AppendPreserves(s: State, w: Writer, a: Action)
    requires WritesInv(s) && (a == Append(w) || a == AppendLost(w))
    ensures WritesInv(Step(s, a)) && Extends(s, Step(s, a))
  {
    var t := Step(s, a);
    if s.At(w).Numbered? {
      var msg := s.At(w).msg;
      assert WriteInv(s, w, s.writers[w]);
      NumberIsFresh(s, w);
      SeqsSnoc(s.log, msg);
      assert t.log[|s.log|] == msg;
      forall v | v in t.writers ensures WriteInv(t, v, t.writers[v]) {
        AppendKeepsWriter(s, t, w, v);
      }
      forall m | m in t.log ensures Accounted(t, m) { AppendKeepsAccount(s, t, w, m); }
    }
  }

  lemma AppendKeepsAccount(s: State, t: State, w: Writer, m: Message)
    requires WritesInv(s) && s.At(w).Numbered? && m in t.log
    requires t == Step(s, Append(w)) || t == Step(s, AppendLost(w))
    ensures Accounted(t, m)
  {
    var msg := s.At(w).msg;
    assert WriteInv(s, w, s.writers[w]);
    if m != msg { assert m in s.log && Accounted(s, m); }
  }

  lemma AppendKeepsWriter(s: State, t: State, w: Writer, v: Writer)
    requires WritesInv(s) && s.At(w).Numbered? && v in t.writers
    requires t == Step(s, Append(w)) || t == Step(s, AppendLost(w))
    ensures WriteInv(t, v, t.writers[v])
  {
    var msg := s.At(w).msg;
    assert WriteInv(s, w, s.writers[w]);
    if v == w {
      assert t.log[|s.log|] == msg;
    } else {
      assert WriteInv(s, v, s.writers[v]);
      NumberIsFresh(s, w);
    }
  }

  lemma BroadcastPreserves(s: State, w: Writer)
    requires WritesInv(s)
    ensures WritesInv(Step(s, Broadcast(w))) && Extends(s, Step(s, Broadcast(w)))
  {
    var t := Step(s, Broadcast(w));
    if t != s {
      var msg := s.At(w).msg;
      assert WriteInv(s, w, s.writers[w]);
      forall v | v in t.writers ensures WriteInv(t, v, t.writers[v]) {
        if v != w { assert WriteInv(s, v, s.writers[v]); }
      }
      forall m | m in t.log ensures Accounted(t, m) { assert Accounted(s, m); }
    }
  }

  // ----- sockets -----

  /** A socket that a step does not touch keeps its invariant, if the step broadcasts nothing to it. */
  lemma SocketFrame(s: State, t: State, k: Socket)
    requires WritesInv(s) && WritesInv(t) && Extends(s, t) && SocketInv(s, k)
    requires t.cast == s.cast || !k.open
    ensures SocketInv(t, k)
  {
    KeepsOrder(s, t, k);
    if k.ranged.Some? {
      assert t.log[..k.ranged.value] == s.log[..k.ranged.value];
    }
  }

  lemma KeepsOrder(s: State, t: State, k: Socket)
    requires WritesInv(s) && Extends(s, t) && LiveInv(s, k)
    ensures Ordered(Casts(k.sent), t.author)
    ensures forall m :: m in Casts(k.sent) ==> m in t.log
  {
    var casts := Casts(k.sent);
    forall i, j | 0 <= i < j < |casts| && SameAuthor(t.author, casts[i].seqNo, casts[j].seqNo)
      ensures casts[i].seqNo < casts[j].seqNo
    {
      assert casts[i] in casts && casts[j] in casts;
      assert SameAuthor(s.author, casts[i].seqNo, casts[j].seqNo);
    }
  }

  /** Offering a freshly broadcast message to an open socket. */
  lemma OfferCast(s: State, t: State, w: Writer, k: Socket)
    requires WritesInv(s) && SocketInv(s, k) && k.open && s.At(w).Stored?
    requires t.log == s.log && t.author == s.author && t.cast == s.cast + {s.At(w).msg.seqNo}
    ensures SocketInv(t, k.Offer(Cast(s.At(w).msg)))
  {
    if k.HasRoom() {
      CastsSnoc(k.sent, Cast(s.At(w).msg));
      PutCast(s, t, w, k);
    } else {
      DoomedKeepsLive(s, t, k);
    }
  }

  lemma DoomedKeepsLive(s: State, t: State, k: Socket)
    requires LiveInv(s, k) && t.log == s.log && t.author == s.author && s.cast <= t.cast
    ensures LiveInv(t, k.(doomed := true))
  {
  }

  lemma PutCast(s: State, t: State, w: Writer, k: Socket)
    requires LiveInv(s, k) && s.At(w).Stored? && WriteInv(s, w, s.At(w))
    requires t.log == s.log && t.author == s.author && t.cast == s.cast + {s.At(w).msg.seqNo}
    ensures LiveInv(t, k.Put(Cast(s.At(w).msg)))
  {
    var msg := s.At(w).msg;
    CastsSnoc(k.sent, Cast(msg));
    SeqsSnoc(Casts(k.sent), msg);
    CastIsNew(s, w, k);
    DistinctSnoc(Casts(k.sent), msg);
    OrderedSnoc(Casts(k.sent), msg, s.author);
  }

  /** A broadcast in the making has a number the channel does not hold, above its writer's others. */
  lemma CastIsNew(s: State, w: Writer, k: Socket)
    requires LiveInv(s, k) && s.At(w).Stored? && WriteInv(s, w, s.At(w))
    ensures var msg, casts := s.At(w).msg, Casts(k.sent);
            && msg.seqNo !in Seqs(casts) && msg.seqNo !in k.base
            && forall i :: 0 <= i < |casts| && SameAuthor(s.author, casts[i].seqNo, msg.seqNo) ==> casts[i].seqNo < msg.seqNo
  {
    var msg, casts := s.At(w).msg, Casts(k.sent);
    forall i | 0 <= i < |casts| && SameAuthor(s.author, casts[i].seqNo, msg.seqNo) ensures casts[i].seqNo < msg.seqNo {
      assert casts[i] in casts && casts[i].seqNo in Seqs(casts);
      assert DrawnBy(s.author, casts[i].seqNo, w);
    }
  }

  lemma DistinctSnoc(ms: seq<Message>, m: Message)
    requires DistinctSeqs(ms) && m.seqNo !in Seqs(ms)
    ensures DistinctSeqs(ms + [m])
  {
    forall i | 0 <= i < |ms| ensures ms[i].seqNo != m.seqNo { assert ms[i] in ms; }
  }

  lemma OrderedSnoc(ms: seq<Message>, m: Message, author: map<int, Writer>)
    requires Ordered(ms, author)
    requires forall i :: 0 <= i < |ms| && SameAuthor(author, ms[i].seqNo, m.seqNo) ==> ms[i].seqNo < m.seqNo
    ensures Ordered(ms + [m], author)
  {}

  /** Items that carry no broadcast and no replay leave the socket's promises as they were. */
  lemma PutOther(s: State, k: Socket, x: Item)
    requires SocketInv(s, k) && k.open && (x.Forwarded? || x.Notice?)
    ensures SocketInv(s, k.Offer(x))
  {
    CastsSnoc(k.sent, x);
  }

  lemma RangePreserves(s: State, id: nat, k: Socket)
    requires s.cast <= Seqs(s.log) && SocketInv(s, k)
    ensures SocketInv(s, SocketStep(s, id, k, RangeOk(id)))
  {
    assert s.log[..|s.log|] == s.log;
  }

  lemma ReplayPreserves(s: State, id: nat, k: Socket)
    requires SocketInv(s, k)
    ensures SocketInv(s, SocketStep(s, id, k, ReplayNext(id)))
  {
    if k.phase.Replaying? && k.phase.todo != [] && k.open && k.HasRoom() {
      var m := k.phase.todo[0];
      var k' := k.Put(Replayed(m)).(phase := Replaying(k.phase.todo[1..]));
      CastsSnoc(k.sent, Replayed(m));
      SameCasts(s, k, k');
      OneReplayed(s, k, k');
    }
  }

  lemma SameCasts(s: State, k: Socket, k': Socket)
    requires LiveInv(s, k) && Casts(k'.sent) == Casts(k.sent)
    requires k'.base == k.base && k'.open == k.open && k'.doomed == k.doomed
    ensures LiveInv(s, k')
  {}

  lemma OneReplayed(s: State, k: Socket, k': Socket)
    requires ReplayInv(s, k) && k.phase.Replaying? && k.phase.todo != [] && k.open
    requires k' == k.(sent := k'.sent, phase := Replaying(k.phase.todo[1..]))
    requires Replays(k'.sent) == Replays(k.sent) + [k.phase.todo[0]]
    ensures ReplayInv(s, k')
  {
    assert Replays(k.sent) + k.phase.todo == Replays(k'.sent) + k.phase.todo[1..];
  }

  lemma GoLivePreserves(s: State, id: nat, k: Socket)
    requires SocketInv(s, k)
    ensures SocketInv(s, SocketStep(s, id, k, GoLive(id)))
  {
    assert Replays(k.sent) + [] == Replays(k.sent);
    ReplaysBounded(k.sent);
  }

  lemma SocketStepPreserves(s: State, id: nat, k: Socket, a: Action)
    requires s.cast <= Seqs(s.log) && SocketInv(s, k)
    ensures SocketInv(s, SocketStep(s, id, k, a))
  {
    match a
    case RangeOk(_) => RangePreserves(s, id, k);
    case ReplayNext(_) => ReplayPreserves(s, id, k);
    case GoLive(_) => GoLivePreserves(s, id, k);
    case Notify(_, notice) =>
      if k.phase.Live? && k.open && k.HasRoom() { PutOther(s, k, Notice(notice)); }
    case _ => OtherStepsPreserve(s, id, k, a);
  }

  lemma OtherStepsPreserve(s: State, id: nat, k: Socket, a: Action)
    requires SocketInv(s, k) && !a.RangeOk? && !a.ReplayNext? && !a.GoLive? && !a.Notify?
    ensures SocketInv(s, SocketStep(s, id, k, a))
  {
    var k' := SocketStep(s, id, k, a);
    assert k'.sent == k.sent && k'.base == k.base && k'.ranged == k.ranged && k'.lastSeq == k.lastSeq;
    assert Todo(k') == Todo(k);
  }

  lemma SocketsPreserved(s: State, a: Action, id: nat)
    requires Inv(s) && id in Step(s, a).sockets
    ensures SocketInv(Step(s, a), Step(s, a).sockets[id])
  {
    WritesPreserved(s, a);
    if id in s.sockets {
      SocketChange(s, a, id);
      SocketKept(s, Step(s, a), a, id, s.sockets[id], Step(s, a).sockets[id]);
    } else {
      NewSocket(s, a, id);
    }
  }

  lemma NewSocket(s: State, a: Action, id: nat)
    requires WritesInv(s) && id !in s.sockets && id in Step(s, a).sockets
    ensures SocketInv(Step(s, a), Step(s, a).sockets[id])
  {
    assert a.Connect? && Casts([]) == [] && Replays([]) == [];
  }

  lemma SocketKept(s: State, t: State, a: Action, id: nat, k: Socket, k': Socket)
    requires WritesInv(s) && WritesInv(t) && Extends(s, t) && SocketInv(s, k)
    requires Changed(s, t, a, id, k, k')
    ensures SocketInv(t, k')
  {
    if a.Broadcast? && s.At(a.w).Stored? && k.open { OfferCast(s, t, a.w, k); }
    else { OwnStep(s, t, a, id, k, k'); }
  }

  ghost predicate Changed(s: State, t: State, a: Action, id: nat, k: Socket, k': Socket) {
    if a.Broadcast? && s.At(a.w).Stored? && k.open then
      && k' == k.Offer(Cast(s.At(a.w).msg))
      && t.log == s.log && t.author == s.author && t.cast == s.cast + {s.At(a.w).msg.seqNo}
    else
      && (t.cast == s.cast || (k' == k && !k.open))
      && (k' == k || k' == SocketStep(s, id, k, a) || (a.Forward? && k.open && k' == k.Offer(Forwarded(a.msg))))
  }

  /** What one step can do to one socket. */
  lemma SocketChange(s: State, a: Action, id: nat)
    requires id in s.sockets
    ensures id in Step(s, a).sockets
    ensures Changed(s, Step(s, a), a, id, s.sockets[id], Step(s, a).sockets[id])
  {
  }

  /** Every step but an offered broadcast: the new value meets the invariant of the old state, hence of the new one. */
  lemma OwnStep(s: State, t: State, a: Action, id: nat, k: Socket, k': Socket)
    requires WritesInv(s) && WritesInv(t) && Extends(s, t) && SocketInv(s, k)
    requires t.cast == s.cast || (k' == k && !k.open)
    requires k' == k || k' == SocketStep(s, id, k, a) || (a.Forward? && k.open && k' == k.Offer(Forwarded(a.msg)))
    ensures SocketInv(t, k')
  {
    assert SocketInv(s, k') by { OwnValue(s, a, id, k, k'); }
    SocketFrame(s, t, k');
  }

  lemma OwnValue(s: State, a: Action, id: nat, k: Socket, k': Socket)
    requires s.cast <= Seqs(s.log) && SocketInv(s, k)
    requires k' == k || k' == SocketStep(s, id, k, a) || (a.Forward? && k.open && k' == k.Offer(Forwarded(a.msg)))
    ensures SocketInv(s, k')
  {
    if k' == k {
    } else if k' == SocketStep(s, id, k, a) {
      SocketStepPreserves(s, id, k, a);
    } else {
      PutOther(s, k, Forwarded(a.msg));
    }
  }

  /** The invariant holds after every run. */
  lemma {:induction false} RunInv(actions: seq<Action>)
    ensures Inv(Run(actions))
  {
    if actions != [] {
      var s, a := Run(actions[..|actions| - 1]), actions[|actions| - 1];
      RunInv(actions[..|actions| - 1]);
      WritesPreserved(s, a);
      forall id | id in Step(s, a).sockets ensures SocketInv(Step(s, a), Step(s, a).sockets[id]) {
        SocketsPreserved(s, a, id);
      }
    }
  }
}
