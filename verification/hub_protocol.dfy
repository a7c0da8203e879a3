/** The channels of the protocol's sockets are the connections' channels. */
module HubProtocol {
  import opened Wire
  import opened Protocol

  /** The channel contents of a protocol socket, as the wire sees them. */
  function Buffered(k: Protocol.Socket): seq<Message>
    requires k.drained <= |k.sent|
  {
    seq(|k.sent| - k.drained, i requires 0 <= i < |k.sent| - k.drained => k.sent[k.drained + i].m)
  }

  /** The protocol's Offer does to a channel what one target's share of Broadcast does. */
  lemma OfferIsSend(k: Protocol.Socket, x: Protocol.Item)
    requires k.drained <= |k.sent|
    ensures k.Offer(x).drained == k.drained <= |k.Offer(x).sent|
    ensures Buffered(k.Offer(x)) ==
            if |Buffered(k)| < SEND_BUFFER then Buffered(k) + [x.m] else Buffered(k)
    ensures k.Offer(x).doomed <==> k.doomed || |Buffered(k)| >= SEND_BUFFER
  {
    if k.HasRoom() {
      var k' := k.Offer(x);
      forall i | 0 <= i < |Buffered(k')| ensures Buffered(k')[i] == (Buffered(k) + [x.m])[i] {}
    }
  }
}
