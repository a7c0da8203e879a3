/**
 The in-memory fanout layer (relay/internal/hub/hub.go, hub/conn.go): connections
 with a bounded send channel and the per-namespace registry.  One call of a
 method is one atomic step; the goroutine that a full channel starts is recorded
 in `evicting` and runs as a later Unregister.
 */
module Hub {
  import opened Wire

  datatype RoleFilter = AllRoles | ProvidersOnly | ConnectorsOnly

  predicate RoleMatches(r: Role, f: RoleFilter) {
    match f
    case ProvidersOnly => r.IsProvider()
    case ConnectorsOnly => r.IsConnector()
    case AllRoles => true
  }

  class Conn {
    const deviceID: string
    const userID: string
    const ns: string
    var role: Role
    var send: seq<Message>
    var closed: bool

    constructor (deviceID: string, userID: string, ns: string)
      ensures this.deviceID == deviceID && this.userID == userID && this.ns == ns
      ensures role == RoleUnspecified && send == [] && !closed
    {
      this.deviceID, this.userID, this.ns := deviceID, userID, ns;
      role, send, closed := RoleUnspecified, [], false;
    }

    predicate HasRoom() reads this`send { |send| < SEND_BUFFER }

    // The non-blocking send of a broadcast.  Sending on a closed channel is a panic in Go.
    method Send(msg: Message) returns (ok: bool)
      requires !closed
      modifies this`send
      ensures ok <==> old(HasRoom())
      ensures send == if ok then old(send) + [msg] else old(send)
    {
      ok := HasRoom();
      if ok { send := send + [msg]; }
    }

    // A call that has returned: it waited for room, or the channel was closed, the panic was
    // recovered and the error result is nil all the same. `failed` is that result's truth.
    method SendBlocking(msg: Message) returns (failed: bool)
      requires HasRoom() || closed
      modifies this`send
      ensures !failed
      ensures send == if closed then old(send) else old(send) + [msg]
    {
      if !closed { send := send + [msg]; }
      failed := false;
    }

    // One turn of the write loop: the oldest message, or None once closed and drained.
    method Receive() returns (r: Option<Message>)
      requires send != [] || closed
      modifies this`send
      ensures old(send) == [] ==> r == None && send == []
      ensures old(send) != [] ==> r == Some(old(send)[0]) && send == old(send)[1..]
    {
      if send == [] { return None; }
      r, send := Some(send[0]), send[1..];
    }
  }

  class Hub {
    var nsMap: map<string, set<Conn>>
    var evicting: set<Conn>

    constructor ()
      ensures nsMap == map[] && evicting == {} && Valid()
    { nsMap, evicting := map[], {}; }

    function Members(ns: string): set<Conn> reads this`nsMap {
      if ns in nsMap then nsMap[ns] else {}
    }

    ghost function Conns(): set<Conn> reads this`nsMap {
      set ns, c | ns in nsMap && c in nsMap[ns] :: c
    }

    /** A connection is registered under its own namespace and registered only while its
        channel is open; no namespace is kept empty. */
    ghost predicate Valid() reads this`nsMap, Conns()`closed {
      forall ns :: ns in nsMap ==>
        nsMap[ns] != {} && forall c :: c in nsMap[ns] ==> c in Conns() && c.ns == ns && !c.closed
    }

    method Register(c: Conn)
      requires Valid() && !c.closed
      modifies this`nsMap
      ensures Valid() && nsMap == old(nsMap)[c.ns := old(Members(c.ns)) + {c}]
    {
      nsMap := nsMap[c.ns := Members(c.ns) + {c}];
      assert forall x :: x in Conns() ==> x == c || x in old(Conns());
      forall ns | ns in nsMap
        ensures nsMap[ns] != {} && forall x :: x in nsMap[ns] ==> x in Conns() && x.ns == ns && !x.closed
      {
        forall x | x in nsMap[ns] ensures x in Conns() && x.ns == ns && !x.closed {
          if x != c { assert ns in old(nsMap) && x in old(nsMap)[ns]; }
        }
      }
    }

    // Safe to call repeatedly: only the call that finds c registered closes its channel.
    method Unregister(c: Conn)
      requires Valid()
      modifies this`nsMap, c`closed
      ensures Valid()
      ensures forall ns :: Members(ns) == old(Members(ns)) - (if ns == c.ns then {c} else {})
      ensures c.closed <==> old(c.closed) || c in old(Members(c.ns))
    {
      if c.ns in nsMap && c in nsMap[c.ns] {
        var rest := nsMap[c.ns] - {c};
        ghost var before := nsMap;
        nsMap := if rest == {} then map ns | ns in nsMap && ns != c.ns :: nsMap[ns] else nsMap[c.ns := rest];
        c.closed := true;
        forall ns | ns in nsMap
          ensures nsMap[ns] != {} && forall x :: x in nsMap[ns] ==> x in Conns() && x.ns == ns && !x.closed
        {
          forall x | x in nsMap[ns] ensures x in Conns() && x.ns == ns && !x.closed {
            assert ns in before && x in before[ns];
          }
        }
      }
    }

    predicate IsTarget(c: Conn, filter: RoleFilter, origin: Conn?) reads c`role {
      c != origin && RoleMatches(c.role, filter)
    }

    // The part of Broadcast done under the read lock: each matching member once.
    method Targets(ns: string, filter: RoleFilter, origin: Conn?) returns (targets: seq<Conn>)
      ensures forall c :: c in targets <==> c in Members(ns) && IsTarget(c, filter, origin)
      ensures forall i, j :: 0 <= i < j < |targets| ==> targets[i] != targets[j]
    {
      targets := [];
      var todo := Members(ns);
      while todo != {}
        invariant todo <= Members(ns)
        invariant forall c :: c in targets <==> c in Members(ns) - todo && IsTarget(c, filter, origin)
        invariant forall i, j :: 0 <= i < j < |targets| ==> targets[i] != targets[j]
        decreases todo
      {
        var c :| c in todo;
        assert c !in targets;
        todo := todo - {c};
        if c != origin && RoleMatches(c.role, filter) {
          targets := targets + [c];
        }
      }
    }

    // The part of Broadcast done after the lock is released: one non-blocking send each.
    method Deliver(msg: Message, targets: seq<Conn>)
      requires forall i, j :: 0 <= i < j < |targets| ==> targets[i] != targets[j]
      requires forall c :: c in targets ==> !c.closed
      modifies this`evicting, (set c | c in targets)`send
      ensures forall c :: c in targets ==>
                c.send == if |old(c.send)| < SEND_BUFFER then old(c.send) + [msg] else old(c.send)
      ensures forall c :: c in evicting <==>
                c in old(evicting) || (c in targets && |old(c.send)| >= SEND_BUFFER)
    {
      for i := 0 to |targets|
        invariant forall j :: i <= j < |targets| ==> targets[j].send == old(targets[j].send)
        invariant forall j :: 0 <= j < i ==>
                    targets[j].send == if |old(targets[j].send)| < SEND_BUFFER
                                       then old(targets[j].send) + [msg] else old(targets[j].send)
        invariant forall c :: c in evicting <==>
                    c in old(evicting) || exists j :: 0 <= j < i && targets[j] == c && |old(targets[j].send)| >= SEND_BUFFER
      {
        var ok := targets[i].Send(msg);
        if !ok { evicting := evicting + {targets[i]}; }
      }
    }

    // Never blocks: a target with a full channel is scheduled for eviction instead.
    method Broadcast(msg: Message, filter: RoleFilter, origin: Conn?)
      requires Valid()
      modifies this`evicting, Members(msg.ns)`send
      ensures Valid() && nsMap == old(nsMap)
      ensures forall c :: c in Members(msg.ns) ==>
                c.send == if IsTarget(c, filter, origin) && old(c.HasRoom()) then old(c.send) + [msg] else old(c.send)
      ensures forall c :: c in evicting <==>
                c in old(evicting) || (c in Members(msg.ns) && IsTarget(c, filter, origin) && !old(c.HasRoom()))
    {
      var targets := Targets(msg.ns, filter, origin);
      forall c | c in targets ensures !c.closed { assert c in Members(msg.ns); }
      Deliver(msg, targets);
    }
  }
}
