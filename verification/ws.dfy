/**
 The /ws endpoint (relay/internal/handler/ws.go) and the schema broadcast
 (relay/internal/handler/schema.go) run to completion on the real stores: what
 one undisturbed call does.  The protocol modules take the same calls apart into
 steps that interleave.
 */
module Ws {
  import opened Wire
  import opened Stream
  import opened Hub

  /** What the quota gate says: a gate that fails does not drop data. */
  datatype Gate = Allow | Exceeded | Broken

  /** How the outside world treats one inbound message: whether the user's schema
      accepts it (None: validation is off), the gate, the two Redis calls, the clock. */
  datatype Outcome = Outcome(schema: Option<bool>, gate: Gate, incrOk: bool, addOk: bool, now: int)

  datatype Fate = CrossNamespace | Invalid | OverQuota | NotNumbered | NotStored | Published | Relayed

  /** Where makeRead ends for a message, decided branch by branch. */
  function FateOf(ns: string, msg: Message, w: Outcome): Fate {
    if msg.ns != "" && msg.ns != ns then CrossNamespace
    else if !msg.role.IsProvider() then Relayed
    else if (msg.op.OpUpsert? || msg.op.OpDelete?) && w.schema == Some(false) then Invalid
    else if w.gate.Exceeded? then OverQuota
    else if ns == "" || !w.incrOk then NotNumbered
    else if !w.addOk then NotStored
    else Published
  }

  class Server {
    const numbers: Sequencer
    const log: Store
    const hub: Hub

    constructor ()
      ensures fresh(numbers) && fresh(log) && fresh(hub) && hub.Valid()
      ensures hub.nsMap == map[] && numbers.counters == map[] && log.entries == map[]
    {
      numbers := new Sequencer();
      log := new Store();
      hub := new Hub();
    }

    // The message as the relay passes it on: identity comes from the socket's token.
    function Stamped(c: Conn, msg: Message): Message {
      msg.(deviceID := c.deviceID, userID := c.userID, ns := c.ns)
    }

    function NoticeFor(c: Conn, msg: Message, now: int): Message {
      Message(0, c.deviceID, c.userID, c.ns, RoleProvider, OpQuotaExceeded, msg.table, "", now)
    }

    method Publish(ns: string, msg: Message, incrOk: bool, addOk: bool) returns (fate: Fate)
      requires hub.Valid() && msg.ns == ns
      modifies numbers, log, hub`evicting, hub.Members(ns)`send
      ensures hub.Valid() && hub.nsMap == old(hub.nsMap)
      ensures fate == if ns == "" || !incrOk then NotNumbered else if !addOk then NotStored else Published
      ensures numbers.Current(ns) == old(numbers.Current(ns)) + if fate.NotNumbered? then 0 else 1
      ensures var sent := msg.(seqNo := numbers.Current(ns));
              && log.Log(ns) == (if fate.Published? then old(log.Log(ns)) + [sent] else old(log.Log(ns)))
              && forall c :: c in hub.Members(ns) ==>
                   c.send == if fate.Published? && |old(c.send)| < SEND_BUFFER then old(c.send) + [sent] else old(c.send)
      ensures forall other :: other != ns ==>
                numbers.Current(other) == old(numbers.Current(other)) && log.Log(other) == old(log.Log(other))
    {
      var n := numbers.Next(ns, incrOk);
      if n.None? { return NotNumbered; }
      var sent := msg.(seqNo := n.value);
      var stored := log.Append(ns, sent, addOk);
      if !stored { return NotStored; }
      hub.Broadcast(sent, AllRoles, null);
      fate := Published;
    }

    // The counter and the log of a namespace after a call that reached `fate` with message m.
    twostate predicate Recorded(ns: string, m: Message, fate: Fate)
      reads this, numbers, log
    {
      && numbers.Current(ns) == old(numbers.Current(ns)) + (if fate.NotStored? || fate.Published? then 1 else 0)
      && log.Log(ns) == (if fate.Published? then old(log.Log(ns)) + [m.(seqNo := numbers.Current(ns))] else old(log.Log(ns)))
      && forall other :: other != ns ==>
           numbers.Current(other) == old(numbers.Current(other)) && log.Log(other) == old(log.Log(other))
    }

    // What a call by c that reached `fate` with message m put on the channel of k.
    twostate predicate Offered(k: Conn, c: Conn, m: Message, fate: Fate)
      reads numbers, k`send
    {
      if fate.Published? then
        k.send == old(k.send) + if |old(k.send)| < SEND_BUFFER then [m.(seqNo := numbers.Current(c.ns))] else []
      else if fate.Relayed? then
        k.send == old(k.send) + if k != c && old(k.role).IsProvider() && |old(k.send)| < SEND_BUFFER then [m] else []
      else k != c ==> k.send == old(k.send)
    }

    // The sender's own channel where nothing is broadcast.
    twostate predicate Notified(c: Conn, m: Message, fate: Fate, now: int)
      reads c`send
    {
      && (fate.OverQuota? ==> c.send == if old(c.closed) then old(c.send) else old(c.send) + [NoticeFor(c, m, now)])
      && (!fate.Published? && !fate.Relayed? && !fate.OverQuota? ==> c.send == old(c.send))
    }

    // The channels of c's namespace after a call that reached `fate` with message m.
    twostate predicate Sent(c: Conn, m: Message, fate: Fate, now: int)
      reads numbers, hub`nsMap, hub.Members(c.ns)`send, c`send
    {
      Notified(c, m, fate, now) &&
      forall k :: k in old(hub.Members(c.ns)) && k in hub.Members(c.ns) ==> Offered(k, c, m, fate)
    }

    // The provider branch of makeRead.  A notice waits for room in the sender's channel.
    method Provider(c: Conn, m: Message, w: Outcome) returns (fate: Fate)
      requires hub.Valid() && m.ns == c.ns && m.role.IsProvider()
      requires FateOf(c.ns, m, w).OverQuota? ==> c.HasRoom() || c.closed
      modifies numbers, log, hub`evicting, hub.Members(c.ns)`send, c`send
      ensures hub.Valid() && hub.nsMap == old(hub.nsMap)
      ensures fate == FateOf(c.ns, m, w)
      ensures Recorded(c.ns, m, fate) && Sent(c, m, fate, w.now)
    {
      if w.schema.Some? && (m.op.OpUpsert? || m.op.OpDelete?) && !w.schema.value {
        return Invalid;
      }
      if w.gate.Exceeded? {
        var _ := c.SendBlocking(NoticeFor(c, m, w.now));
        return OverQuota;
      }
      fate := Publish(c.ns, m, w.incrOk, w.addOk);
    }

    // The connector branch: providers only, not the sender, no number and no log entry.
    method Connector(c: Conn, m: Message, now: int)
      requires hub.Valid() && m.ns == c.ns
      modifies hub`evicting, hub.Members(c.ns)`send
      ensures hub.Valid() && hub.nsMap == old(hub.nsMap)
      ensures Recorded(c.ns, m, Relayed) && Sent(c, m, Relayed, now)
    {
      hub.Broadcast(m, ProvidersOnly, c);
    }

    // makeRead after the namespace check.
    method Dispatch(c: Conn, m: Message, w: Outcome) returns (fate: Fate)
      requires hub.Valid() && m.ns == c.ns
      requires FateOf(c.ns, m, w).OverQuota? ==> c.HasRoom() || c.closed
      modifies numbers, log, hub`evicting, hub.Members(c.ns)`send, c`send
      ensures hub.Valid() && hub.nsMap == old(hub.nsMap)
      ensures fate == FateOf(c.ns, m, w)
      ensures Recorded(c.ns, m, fate) && Sent(c, m, fate, w.now)
    {
      if m.role.IsProvider() {
        fate := Provider(c, m, w);
      } else {
        Connector(c, m, w.now);
        fate := Relayed;
      }
    }

    // Counters and logs of all namespaces are as they were.
    twostate predicate NothingKept()
      reads numbers, log
    {
      forall ns :: numbers.Current(ns) == old(numbers.Current(ns)) && log.Log(ns) == old(log.Log(ns))
    }

    // Nobody else in the namespace got anything.
    twostate predicate OthersGotNothing(c: Conn)
      reads hub`nsMap, hub.Members(c.ns)`send
    {
      forall k :: k in old(hub.Members(c.ns)) && k in hub.Members(c.ns) && k != c ==> k.send == old(k.send)
    }

    // m is stored under the next number and offered to every member of the namespace, the sender included.
    twostate predicate Delivered(c: Conn, m: Message)
      reads numbers, log, hub`nsMap, hub.Members(c.ns)`send
    {
      var n := old(numbers.Current(c.ns)) + 1;
      && numbers.Current(c.ns) == n && log.Log(c.ns) == old(log.Log(c.ns)) + [m.(seqNo := n)]
      && forall k :: k in old(hub.Members(c.ns)) && k in hub.Members(c.ns) ==>
           k.send == if |old(k.send)| < SEND_BUFFER then old(k.send) + [m.(seqNo := n)] else old(k.send)
    }

    // makeRead, branch by branch.
    method Handle(c: Conn, msg: Message, w: Outcome) returns (fate: Fate)
      requires hub.Valid()
      requires FateOf(c.ns, msg, w).OverQuota? ==> c.HasRoom() || c.closed
      modifies numbers, log, hub`evicting, hub.Members(c.ns)`send, c`send, c`role
      ensures hub.Valid() && hub.nsMap == old(hub.nsMap)
      ensures fate == FateOf(c.ns, msg, w) && c.role == msg.role
      ensures Recorded(c.ns, Stamped(c, msg), fate) && Sent(c, Stamped(c, msg), fate, w.now)
    {
      c.role := msg.role;
      assert hub.Valid() && hub.Members(c.ns) == old(hub.Members(c.ns));
      if msg.ns != "" && msg.ns != c.ns {
        fate := CrossNamespace;
      } else {
        fate := Dispatch(c, Stamped(c, msg), w);
        assert Recorded(c.ns, Stamped(c, msg), fate);
      }
    }

    // makeRead, and what that means for the namespace.
    method Inbound(c: Conn, msg: Message, w: Outcome) returns (fate: Fate)
      requires hub.Valid()
      requires FateOf(c.ns, msg, w).OverQuota? ==> c.HasRoom() || c.closed
      modifies numbers, log, hub`evicting, hub.Members(c.ns)`send, c`send, c`role
      ensures hub.Valid() && hub.nsMap == old(hub.nsMap)
      ensures fate == FateOf(c.ns, msg, w) && c.role == msg.role
      ensures Recorded(c.ns, Stamped(c, msg), fate) && Sent(c, Stamped(c, msg), fate, w.now)
      // A foreign namespace, or a data operation that the schema refuses: nothing happens.
      ensures (msg.ns != "" && msg.ns != c.ns)
              || ((msg.role.RoleProvider? || msg.role.RoleBoth?) && (msg.op.OpUpsert? || msg.op.OpDelete?) && w.schema == Some(false)) ==>
                NothingKept() && OthersGotNothing(c) && c.send == old(c.send)
      // Any other write of a provider goes through unless the gate says the quota is exceeded or Redis fails.
      ensures (msg.ns == "" || msg.ns == c.ns) && (msg.role.RoleProvider? || msg.role.RoleBoth?)
              && (msg.op.OpUpsert? || msg.op.OpDelete? ==> w.schema != Some(false))
              && !w.gate.Exceeded? && w.incrOk && w.addOk && c.ns != "" ==>
                Delivered(c, msg.(deviceID := c.deviceID, userID := c.userID, ns := c.ns))
      // The quota notice, and nothing else, is the answer to a write beyond the quota.
      ensures (msg.ns == "" || msg.ns == c.ns) && (msg.role.RoleProvider? || msg.role.RoleBoth?)
              && (msg.op.OpUpsert? || msg.op.OpDelete? ==> w.schema != Some(false)) && w.gate.Exceeded? ==>
                && NothingKept() && OthersGotNothing(c)
                && c.send == if c.closed then old(c.send)
                             else old(c.send) + [Message(0, c.deviceID, c.userID, c.ns, RoleProvider, OpQuotaExceeded, msg.table, "", w.now)]
      // A write that gets no number leaves nothing; one that is not stored leaves the number drawn.
      ensures (msg.ns == "" || msg.ns == c.ns) && (msg.role.RoleProvider? || msg.role.RoleBoth?) && !w.gate.Exceeded? && !(w.incrOk && w.addOk && c.ns != "") ==>
                (forall ns :: log.Log(ns) == old(log.Log(ns))) && OthersGotNothing(c) && c.send == old(c.send)
      // What is no provider's is passed on to the other providers and leaves no trace.
      ensures (msg.ns == "" || msg.ns == c.ns) && !(msg.role.RoleProvider? || msg.role.RoleBoth?) ==>
                NothingKept() && forall k :: k in old(hub.Members(c.ns)) && k in hub.Members(c.ns) ==>
                  k.send == old(k.send) + if k != c && (old(k.role).RoleProvider? || old(k.role).RoleBoth?) && |old(k.send)| < SEND_BUFFER
                                          then [msg.(deviceID := c.deviceID, userID := c.userID, ns := c.ns)] else []
    {
      fate := Handle(c, msg, w);
    }

    // A schema change comes from no device and wears the provider role.
    function SchemaMessage(userID: string, op: Op, payload: string, now: int): Message {
      Message(0, "", userID, userID, RoleProvider, op, "_schema", payload, now)
    }

    // broadcastSchema: an HTTP schema change is published like a provider write.
    method BroadcastSchema(userID: string, op: Op, payload: string, now: int, incrOk: bool, addOk: bool)
      returns (fate: Fate)
      requires hub.Valid()
      modifies numbers, log, hub`evicting, hub.Members(userID)`send
      ensures hub.Valid() && hub.nsMap == old(hub.nsMap)
      ensures fate == if userID == "" || !incrOk then NotNumbered else if !addOk then NotStored else Published
      ensures Recorded(userID, SchemaMessage(userID, op, payload, now), fate)
      ensures forall c :: c in hub.Members(userID) ==>
                c.send == if fate.Published? && |old(c.send)| < SEND_BUFFER
                          then old(c.send) + [SchemaMessage(userID, op, payload, now).(seqNo := numbers.Current(userID))]
                          else old(c.send)
    {
      fate := Publish(userID, SchemaMessage(userID, op, payload, now), incrOk, addOk);
    }

    function Replay(c: Conn, lastSeq: int, rangeOk: bool): seq<Message> reads log {
      if lastSeq > 0 && rangeOk then After(log.Log(c.ns), lastSeq) else []
    }

    // The replay loop of WS while nothing else happens: it comes through exactly when the channel
    // has room for everything or is closed, and waits forever once the channel is full.
    method CatchUp(c: Conn, lastSeq: int, rangeOk: bool) returns (done: bool)
      requires |c.send| <= SEND_BUFFER
      modifies c`send
      ensures lastSeq <= 0 || !rangeOk ==> done && c.send == old(c.send)
      ensures lastSeq > 0 && rangeOk && done && !c.closed ==> c.send == old(c.send) + After(log.Log(c.ns), lastSeq)
      ensures done <==> c.closed || |old(c.send)| + |Replay(c, lastSeq, rangeOk)| <= SEND_BUFFER
      ensures c.send == if c.closed then old(c.send)
                        else old(c.send) + if done then Replay(c, lastSeq, rangeOk) else Replay(c, lastSeq, rangeOk)[..SEND_BUFFER - |old(c.send)|]
    {
      if lastSeq <= 0 || !rangeOk { return true; }
      var msgs := log.Range(c.ns, lastSeq);
      for i := 0 to |msgs|
        invariant c.send == if c.closed then old(c.send) else old(c.send) + msgs[..i]
        invariant |c.send| <= SEND_BUFFER
      {
        if !c.closed && !c.HasRoom() { return false; }
        var failed := c.SendBlocking(msgs[i]);
        if failed { return true; }
        assert msgs[..i + 1] == msgs[..i] + [msgs[i]];
      }
      assert msgs[..|msgs|] == msgs;
      done := true;
    }
  }
}
