/**
 The sync path of one namespace as a transition system: any number of sockets
 that join, replay, go live, get evicted and leave, and any number of writers
 (sockets and HTTP schema requests) whose INCR, XADD and Broadcast are three
 separate steps.  Every interleaving of the steps is a run.

 Sources: relay/internal/handler/ws.go, handler/schema.go, hub/hub.go, hub/conn.go.
 */
module Protocol {
  import opened Wire
  import opened Stream

  /** What a send channel carries: a live broadcast, a replayed log entry, a
      connector message forwarded to providers, or a quota notice. */
  datatype Item = Cast(m: Message) | Replayed(m: Message) | Forwarded(m: Message) | Notice(m: Message)

  datatype Phase = Joined | Replaying(todo: seq<Message>) | Live | Gone

  /** `sent` is every item ever put on the channel and `drained` how many of
      them WriteLoop has taken, so the channel holds sent[drained..].
      `base` and `ranged` record the broadcast set at Register and the log
      length at Range. */
  datatype Socket = Socket(
    lastSeq: int, role: Role, phase: Phase,
    sent: seq<Item>, drained: nat,
    open: bool, doomed: bool,
    base: set<int>, ranged: Option<nat>)
  {
    predicate HasRoom() { |sent| - drained < SEND_BUFFER }

    function Put(x: Item): Socket { this.(sent := sent + [x]) }

    // Broadcast's non-blocking send; a full channel dooms the socket.
    function Offer(x: Item): Socket {
      if HasRoom() then Put(x) else this.(doomed := true)
    }
  }

  datatype Writer = OnSocket(id: nat) | OnHttp(request: nat)

  datatype Write = Idle | Numbered(msg: Message) | Stored(msg: Message)

  /** `cast` holds the numbers broadcast so far, `orphans` those stored by a
      writer that then saw an error, `author` who drew each number. */
  datatype State = State(
    counter: int, log: seq<Message>,
    sockets: map<nat, Socket>, writers: map<Writer, Write>,
    author: map<int, Writer>, cast: set<int>, orphans: set<int>)
  {
    function At(w: Writer): Write { if w in writers then writers[w] else Idle }

    // A socket's messages are handled by its read loop, which starts after the replay.
    predicate CanWrite(w: Writer) {
      w.OnSocket? ==> w.id in sockets && sockets[w.id].phase.Live?
    }
  }

  datatype Action =
    | Connect(id: nat, lastSeq: int)
    | RangeOk(id: nat) | RangeFail(id: nat) | SkipCatchup(id: nat)
    | ReplayNext(id: nat) | GoLive(id: nat)
    | Drain(id: nat)
    | SetRole(id: nat, role: Role)
    | Incr(w: Writer, msg: Message) | IncrLost
    | Append(w: Writer) | AppendLost(w: Writer) | Abort(w: Writer)
    | Broadcast(w: Writer)
    | Forward(id: nat, msg: Message) | Notify(id: nat, notice: Message)
    | Evict(id: nat) | Leave(id: nat)

  const INIT := State(0, [], map[], map[], map[], {}, {})

  function WithSocket(s: State, id: nat, k: Socket): State {
    s.(sockets := s.sockets[id := k])
  }

  /** Hub.Broadcast to all roles: one snapshot of the registered sockets, one offer to each. */
  function CastAll(sockets: map<nat, Socket>, x: Item): map<nat, Socket> {
    map id | id in sockets :: if sockets[id].open then sockets[id].Offer(x) else sockets[id]
  }

  /** Hub.Broadcast to providers, leaving out the origin. */
  function CastProviders(sockets: map<nat, Socket>, origin: nat, x: Item): map<nat, Socket> {
    map id | id in sockets ::
      if sockets[id].open && id != origin && sockets[id].role.IsProvider() then sockets[id].Offer(x)
      else sockets[id]
  }

  /** One step of a socket's own life.  A step whose guard fails changes nothing. */
  function SocketStep(s: State, id: nat, k: Socket, a: Action): Socket {
    match a
    case RangeOk(_) =>
      if k.phase.Joined? && k.lastSeq > 0
      then k.(phase := Replaying(After(s.log, k.lastSeq)), ranged := Some(|s.log|)) else k
    case RangeFail(_) =>
      if k.phase.Joined? && k.lastSeq > 0 then k.(phase := Live) else k
    case SkipCatchup(_) =>
      if k.phase.Joined? && k.lastSeq <= 0 then k.(phase := Live) else k
    case ReplayNext(_) =>
      if !k.phase.Replaying? || k.phase.todo == [] then k
      // A send on the closed channel panics, the panic is recovered, and the loop goes on.
      else if !k.open then k.(phase := Replaying(k.phase.todo[1..]))
      else if k.HasRoom() then k.Put(Replayed(k.phase.todo[0])).(phase := Replaying(k.phase.todo[1..]))
      else k
    case GoLive(_) =>
      if k.phase.Replaying? && k.phase.todo == [] then k.(phase := Live) else k
    case Drain(_) =>
      if (k.phase.Live? || k.phase.Gone?) && k.drained < |k.sent| then k.(drained := k.drained + 1) else k
    case SetRole(_, role) =>
      if k.phase.Live? then k.(role := role) else k
    case Notify(_, notice) =>
      if k.phase.Live? && k.open && k.HasRoom() then k.Put(Notice(notice)) else k
    case Evict(_) =>
      if k.doomed then k.(open := false) else k
    case Leave(_) =>
      if k.phase.Live? && s.At(OnSocket(id)).Idle? then k.(phase := Gone, open := false) else k
    case _ => k
  }

  function Step(s: State, a: Action): State {
    match a
    case Connect(id, lastSeq) =>
      if id in s.sockets then s
      else WithSocket(s, id,
                      Socket(if lastSeq > 0 then lastSeq else 0, RoleUnspecified, Joined,
                             [], 0, true, false, s.cast, None))
    case Incr(w, msg) =>
      if s.At(w).Idle? && s.CanWrite(w) then
        s.(counter := s.counter + 1,
           writers := s.writers[w := Numbered(msg.(seqNo := s.counter + 1))],
           author := s.author[s.counter + 1 := w])
      else s
    case IncrLost => s.(counter := s.counter + 1)
    case Append(w) =>
      if s.At(w).Numbered? then
        s.(log := s.log + [s.At(w).msg], writers := s.writers[w := Stored(s.At(w).msg)])
      else s
    case AppendLost(w) =>
      if s.At(w).Numbered? then
        s.(log := s.log + [s.At(w).msg], writers := s.writers[w := Idle],
           orphans := s.orphans + {s.At(w).msg.seqNo})
      else s
    case Abort(w) =>
      if s.At(w).Numbered? then s.(writers := s.writers[w := Idle]) else s
    case Broadcast(w) =>
      if s.At(w).Stored? then
        s.(sockets := CastAll(s.sockets, Cast(s.At(w).msg)),
           cast := s.cast + {s.At(w).msg.seqNo},
           writers := s.writers[w := Idle])
      else s
    case Forward(id, msg) =>
      if id in s.sockets && s.sockets[id].phase.Live? then
        s.(sockets := CastProviders(s.sockets, id, Forwarded(msg)))
      else s
    case _ =>
      if a.id in s.sockets then WithSocket(s, a.id, SocketStep(s, a.id, s.sockets[a.id], a)) else s
  }

  /** The state after a run: any sequence of actions, in any order. */
  function Run(actions: seq<Action>): State {
    if actions == [] then INIT
    else Step(Run(actions[..|actions| - 1]), actions[|actions| - 1])
  }

  function Casts(items: seq<Item>): seq<Message> {
    if items == [] then []
    else
      var init := Casts(items[..|items| - 1]);
      match items[|items| - 1]
      case Cast(m) => init + [m]
      case _ => init
  }

  function Replays(items: seq<Item>): seq<Message> {
    if items == [] then []
    else
      var init := Replays(items[..|items| - 1]);
      match items[|items| - 1]
      case Replayed(m) => init + [m]
      case _ => init
  }

  /** How often message m was put on the channel, live or replayed. */
  ghost function Copies(k: Socket, m: Message): nat {
    multiset(Casts(k.sent))[m] + multiset(Replays(k.sent))[m]
  }
}
