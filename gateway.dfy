/**
 * The socket gateway of the multiplayer relay: it checks each incoming message, calls the relay service
 * and answers the sending socket. Every handler runs to completion before the next one starts.
 */
module Gateway {
  import opened Wrappers
  import opened Transport
  import opened Relay
  import opened RelayService
  import Strings

  const INVALID_ROOM_DATA := "Invalid room data"
  const LEFT_ROOM := "Left room successfully"

  /** A string field of a message body; a field that is not there reads as `undefined`. */
  function Field(data: Payload, key: string): (r: Option<string>)
    ensures r.Some? <==> key in data
    ensures r.Some? ==> r.value == data[key]
  {
    if key in data then Some(data[key]) else None
  }

  /** Under the gateway no room is ever keyed by the empty string, so every index entry is acted on by a disconnect. */
  lemma IndexedMeansRegistered(s: Registry, socketId: string)
    requires Inv(s) && "" !in s.rooms
    ensures socketId in s.socketToRoom <==> Registered(s, socketId)
  {
  }

  /** A disconnect or leave under the gateway leaves the socket with no index entry and no statistics. */
  lemma DisconnectForgetsSocket(s: Registry, socketId: string, now: int)
    requires Inv(s) && "" !in s.rooms
    ensures var next := Disconnect(s, socketId, now).next;
      socketId !in next.socketToRoom && socketId !in next.networkStats && "" !in next.rooms
  {
    IndexedMeansRegistered(s, socketId);
  }

  class MultiplayGateway {
    const service: MultiplayService
    const server: Server

    ghost predicate Valid()
      reads this, service
    {
      service.Valid() && "" !in service.rooms
    }

    constructor(service: MultiplayService, server: Server)
      requires service.Valid() && "" !in service.rooms
      ensures this.service == service && this.server == server
      ensures Valid()
    {
      this.service := service;
      this.server := server;
    }

    /** handleConnection: only a connection_status greeting to the new socket; nothing is registered. */
    method HandleConnection(clientId: string, now: int)
      modifies server
      ensures server.outbox == old(server.outbox) + [Delivery(clientId, ConnectionStatus(true, clientId, now))]
    {
      server.EmitTo(clientId, ConnectionStatus(true, clientId, now));
    }

    /** handleDisconnect: the service's cleanup for the departing socket. */
    method HandleDisconnect(clientId: string, now: int)
      requires Valid()
      modifies service, server
      ensures Valid()
      ensures service.State() == Disconnect(old(service.State()), clientId, now).next
      ensures server.outbox == old(server.outbox) + Disconnect(old(service.State()), clientId, now).deliveries
      ensures clientId !in service.socketToRoom && clientId !in service.networkStats
    {
      DisconnectForgetsSocket(service.State(), clientId, now);
      service.HandleDisconnect(clientId, server, now);
    }

    /** handleJoinRoom: a body without a truthy roomId and role is refused before the service is called. */
    method HandleJoinRoom(data: Payload, clientId: string, now: int)
      requires Valid()
      modifies service, server
      ensures Valid()
      ensures var roomId := Field(data, "roomId");
        var role := Field(data, "role");
        if !Strings.Truthy(roomId) || !Strings.Truthy(role) then
          && service.State() == old(service.State())
          && server.outbox == old(server.outbox) + [Delivery(clientId, InvalidJoinStatus(INVALID_ROOM_DATA))]
        else
          var o := Join(old(service.State()), roomId.value, role.value, clientId, now);
          && service.State() == o.next
          && server.outbox == old(server.outbox) +
               [Delivery(clientId, JoinStatus(o.message, roomId.value, role.value, o.message == JOINED))]
    {
      var roomId := Field(data, "roomId");
      var role := Field(data, "role");
      if !Strings.Truthy(roomId) || !Strings.Truthy(role) {
        server.EmitTo(clientId, InvalidJoinStatus(INVALID_ROOM_DATA));
        return;
      }
      var result := service.CreateOrJoinRoom(roomId.value, role.value, clientId, now);
      server.EmitTo(clientId, JoinStatus(result, roomId.value, role.value, result == JOINED));
    }

    /** handlePlaybackEvent: a body without a truthy roomId is dropped; otherwise the sender is the client. */
    method HandlePlaybackEvent(data: Payload, clientId: string, now: int)
      requires Valid()
      modifies service, server
      ensures Valid()
      ensures var roomId := Field(data, "roomId");
        if !Strings.Truthy(roomId) then
          service.State() == old(service.State()) && server.outbox == old(server.outbox)
        else
          var o := Forward(old(service.State()), roomId.value, clientId, data, now);
          service.State() == o.next && server.outbox == old(server.outbox) + o.deliveries
    {
      var roomId := Field(data, "roomId");
      if !Strings.Truthy(roomId) {
        return;
      }
      var _ := service.ForwardEvent(roomId.value, clientId, data, server, now);
    }

    /** handleLeaveRoom: the disconnect cleanup keyed on the socket's recorded room, then a leave_status reply. */
    method HandleLeaveRoom(data: Payload, clientId: string, now: int)
      requires Valid()
      modifies service, server
      ensures Valid()
      ensures var o := Disconnect(old(service.State()), clientId, now);
        && service.State() == o.next
        && server.outbox == old(server.outbox) + o.deliveries + [Delivery(clientId, LeaveStatus(LEFT_ROOM))]
      ensures clientId !in service.socketToRoom && clientId !in service.networkStats
    {
      DisconnectForgetsSocket(service.State(), clientId, now);
      service.HandleDisconnect(clientId, server, now);
      server.EmitTo(clientId, LeaveStatus(LEFT_ROOM));
    }

    /** The service's five-minute timer firing at time `now`. */
    method Tick(now: int)
      requires Valid()
      modifies service
      ensures Valid()
      ensures service.State() == Sweep(old(service.State()), now)
    {
      service.CleanupInactiveRooms(now);
    }
  }

  /**
   * Only a room's host gets anything delivered by a playback_event: any other sender, a follower included,
   * changes nothing and reaches nobody.
   */
  lemma OnlyHostPublishes(s: Registry, roomId: string, senderId: string, data: Payload, now: int)
    requires roomId in s.rooms ==> s.rooms[roomId].hostSocketId != senderId
    ensures Forward(s, roomId, senderId, data, now) == ForwardOutcome(false, s, [])
  {
  }
}
