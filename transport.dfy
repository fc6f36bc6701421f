/** The socket transport as the relay sees it: named events addressed to connection ids. */
module Transport {

  /** The body of a client message: a JSON object, its fields read as strings. */
  type Payload = map<string, string>

  /** The events the relay sends, with their payloads. */
  datatype Event =
    | ConnectionStatus(connected: bool, socketId: string, timestamp: int)   // 'connection_status'
    | InvalidJoinStatus(message: string)                                    // 'join_status' for a malformed request
    | JoinStatus(message: string, roomId: string, role: string, success: bool) // 'join_status'
    | LeaveStatus(message: string)                                          // 'leave_status'
    | SyncEvent(data: Payload, serverForwardTime: int)                      // 'sync_event': the host's body plus a stamp
    | RoomClosed(reason: string, timestamp: int)                            // 'room_closed'

  /** One event sent to one connection. */
  datatype Delivery = Delivery(recipient: string, event: Event)

  /** The same event sent to each of `recipients`, in their order. */
  function Broadcast(recipients: seq<string>, event: Event): (r: seq<Delivery>)
    ensures |r| == |recipients|
    ensures forall i | 0 <= i < |r| :: r[i] == Delivery(recipients[i], event)
    ensures forall d | d in r :: d.event == event && d.recipient in recipients
    ensures forall x | x in recipients :: Delivery(x, event) in r
  {
    seq(|recipients|, i requires 0 <= i < |recipients| => Delivery(recipients[i], event))
  }

  /** Sending to one more recipient extends the broadcast by one delivery. */
  lemma BroadcastStep(recipients: seq<string>, i: nat, event: Event)
    requires i < |recipients|
    ensures Broadcast(recipients[..i + 1], event) == Broadcast(recipients[..i], event) + [Delivery(recipients[i], event)]
  {
  }

  /** The connection layer: everything emitted, in order. */
  class Server {
    var outbox: seq<Delivery>

    constructor()
      ensures outbox == []
    {
      outbox := [];
    }

    /** `server.to(recipient).emit(...)` or `client.emit(...)`. */
    method EmitTo(recipient: string, event: Event)
      modifies this
      ensures outbox == old(outbox) + [Delivery(recipient, event)]
    {
      outbox := outbox + [Delivery(recipient, event)];
    }

    /** `recipients.forEach(id => server.to(id).emit(...))`: one emit per recipient, in order. */
    method EmitEach(recipients: seq<string>, event: Event)
      modifies this
      ensures outbox == old(outbox) + Broadcast(recipients, event)
    {
      for i := 0 to |recipients|
        invariant outbox == old(outbox) + Broadcast(recipients[..i], event)
      {
        BroadcastStep(recipients, i, event);
        EmitTo(recipients[i], event);
      }
      assert recipients[..|recipients|] == recipients;
    }
  }
}
