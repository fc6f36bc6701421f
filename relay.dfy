/**
 * The room relay registry of the multiplayer service: rooms keyed by a caller-chosen id, each with one
 * host socket and at most ten follower sockets, a reverse index from socket to room, and per-socket
 * network statistics. The abstract state is the value `Registry`; the transition functions below
 * (Join, Forward, Disconnect, Sweep) say what each operation does to it, and class MultiplayService
 * performs them step by step on its three maps and is proved to agree with them.
 */
module Relay {
  import opened Seqs
  import opened Transport

  const MAX_FOLLOWERS: nat := 10
  /** Thirty minutes, in milliseconds. */
  const INACTIVE_THRESHOLD: int := 30 * 60 * 1000
  const HOST_ROLE := "host"

  const JOINED := "joined"
  const ROOM_EXISTS := "Room already exists with different host"
  const ROOM_NOT_FOUND := "Room not found - check room ID or wait for host to create it"
  const ROOM_FULL := "Room is full - maximum 10 followers allowed"
  const HOST_DISCONNECTED := "Host disconnected"

  /** A room: its host, its followers in the order they joined (a set: no socket twice), and two timestamps in ms. */
  datatype Room = Room(hostSocketId: string, followers: seq<string>, createdAt: int, lastActivity: int)

  datatype NetworkStats = NetworkStats(
    connectionTime: int, lastPingTime: int, avgRtt: int, rttHistory: seq<int>, messageCount: nat)

  /** The service's three maps. */
  datatype Registry = Registry(
    rooms: map<string, Room>,
    socketToRoom: map<string, string>,
    networkStats: map<string, NetworkStats>)

  predicate IsParticipant(room: Room, socketId: string) {
    socketId == room.hostSocketId || socketId in room.followers
  }

  /** A room nobody has joined or forwarded to for more than thirty minutes. */
  predicate Idle(room: Room, now: int) {
    now - room.lastActivity > INACTIVE_THRESHOLD
  }

  /**
   * What the service keeps true: every room has at most ten followers, none listed twice, and every
   * index entry names a present room in which that socket is the host or a follower.
   */
  ghost predicate Inv(s: Registry) {
    && (forall id | id in s.rooms :: |s.rooms[id].followers| <= MAX_FOLLOWERS && NoDup(s.rooms[id].followers))
    && (forall x | x in s.socketToRoom ::
          s.socketToRoom[x] in s.rooms && IsParticipant(s.rooms[s.socketToRoom[x]], x))
  }

  // ---------------------------------------------------------------------------------------------
  // Joining

  datatype JoinOutcome = JoinOutcome(message: string, next: Registry)

  /** createOrJoinRoom: a 'host' creates a room that must not exist yet; any other role joins one as a follower. */
  function Join(s: Registry, roomId: string, role: string, socketId: string, now: int): (r: JoinOutcome)
    ensures r.message != JOINED ==> r.next == s
    ensures role == HOST_ROLE ==> (r.message == JOINED <==> roomId !in s.rooms)
    ensures role == HOST_ROLE && roomId in s.rooms ==> r.message == ROOM_EXISTS
    ensures role != HOST_ROLE ==>
      (r.message == JOINED <==> roomId in s.rooms && |s.rooms[roomId].followers| < MAX_FOLLOWERS)
    ensures role != HOST_ROLE && roomId !in s.rooms ==> r.message == ROOM_NOT_FOUND
    ensures role != HOST_ROLE && roomId in s.rooms && |s.rooms[roomId].followers| >= MAX_FOLLOWERS ==>
      r.message == ROOM_FULL
    ensures r.message == JOINED ==>
      && r.next.socketToRoom == s.socketToRoom[socketId := roomId]
      && r.next.networkStats == s.networkStats
      && r.next.rooms.Keys == s.rooms.Keys + {roomId}
      && (forall id | id in s.rooms && id != roomId :: r.next.rooms[id] == s.rooms[id])
      && IsParticipant(r.next.rooms[roomId], socketId)
      && r.next.rooms[roomId].lastActivity == now
    ensures r.message == JOINED && role == HOST_ROLE ==> r.next.rooms[roomId] == Room(socketId, [], now, now)
    ensures r.message == JOINED && role != HOST_ROLE ==>
      var before := s.rooms[roomId];
      var after := r.next.rooms[roomId];
      && after.hostSocketId == before.hostSocketId
      && after.createdAt == before.createdAt
      && Elems(after.followers) == Elems(before.followers) + {socketId}
      && |before.followers| <= |after.followers|
      && after.followers[..|before.followers|] == before.followers
    ensures Inv(s) ==> Inv(r.next)
  {
    if role == HOST_ROLE then
      if roomId in s.rooms then JoinOutcome(ROOM_EXISTS, s)
      else
        JoinOutcome(JOINED, s.(rooms := s.rooms[roomId := Room(socketId, [], now, now)],
                               socketToRoom := s.socketToRoom[socketId := roomId]))
    else if roomId !in s.rooms then JoinOutcome(ROOM_NOT_FOUND, s)
    else
      var room := s.rooms[roomId];
      if |room.followers| >= MAX_FOLLOWERS then JoinOutcome(ROOM_FULL, s)
      else
        var joined := room.(followers := Insert(room.followers, socketId), lastActivity := now);
        JoinOutcome(JOINED, s.(rooms := s.rooms[roomId := joined],
                               socketToRoom := s.socketToRoom[socketId := roomId]))
  }

  // ---------------------------------------------------------------------------------------------
  // Forwarding

  datatype ForwardOutcome = ForwardOutcome(forwarded: bool, next: Registry, deliveries: seq<Delivery>)

  /** forwardEvent: only the room's host may publish; each follower gets the body stamped with one forward time. */
  function Forward(s: Registry, roomId: string, senderId: string, data: Payload, now: int): (r: ForwardOutcome)
    ensures r.forwarded <==> roomId in s.rooms && s.rooms[roomId].hostSocketId == senderId
    ensures !r.forwarded ==> r.next == s && r.deliveries == []
    ensures r.forwarded ==>
      && r.next.socketToRoom == s.socketToRoom
      && r.next.networkStats == s.networkStats
      && r.next.rooms == s.rooms[roomId := s.rooms[roomId].(lastActivity := now)]
      && r.deliveries == Broadcast(s.rooms[roomId].followers, SyncEvent(data, now))
    ensures Inv(s) ==> Inv(r.next)
  {
    if roomId !in s.rooms then ForwardOutcome(false, s, [])
    else
      var room := s.rooms[roomId];
      if room.hostSocketId != senderId then ForwardOutcome(false, s, [])
      else
        ForwardOutcome(true, s.(rooms := s.rooms[roomId := room.(lastActivity := now)]),
                       Broadcast(room.followers, SyncEvent(data, now)))
  }

  /** A forwarded event reaches every follower of the room exactly once, and nobody else. */
  lemma ForwardReachesEachFollowerOnce(s: Registry, roomId: string, senderId: string, data: Payload, now: int)
    requires Inv(s)
    requires Forward(s, roomId, senderId, data, now).forwarded
    ensures var ds := Forward(s, roomId, senderId, data, now).deliveries;
      && (forall d | d in ds :: d.event == SyncEvent(data, now) && d.recipient in s.rooms[roomId].followers)
      && (forall f | f in s.rooms[roomId].followers :: Delivery(f, SyncEvent(data, now)) in ds)
      && (forall i, j | 0 <= i < j < |ds| :: ds[i].recipient != ds[j].recipient)
  {
    var fs := s.rooms[roomId].followers;
    var ds := Forward(s, roomId, senderId, data, now).deliveries;
    forall i, j | 0 <= i < j < |ds| ensures ds[i].recipient != ds[j].recipient {
      assert ds[i].recipient == fs[i] && ds[j].recipient == fs[j];
    }
  }

  // ---------------------------------------------------------------------------------------------
  // Disconnecting and leaving

  /** The socket's index entry names a room that is still present (the only case handleDisconnect acts on). */
  predicate Registered(s: Registry, socketId: string) {
    socketId in s.socketToRoom && s.socketToRoom[socketId] != "" && s.socketToRoom[socketId] in s.rooms
  }

  datatype DisconnectOutcome = DisconnectOutcome(next: Registry, deliveries: seq<Delivery>)

  /**
   * handleDisconnect: the socket's statistics are always dropped; a departing host closes its room, notifies
   * and unregisters every follower; a departing follower only leaves the follower set.
   */
  function Disconnect(s: Registry, socketId: string, now: int): (r: DisconnectOutcome)
    ensures socketId !in r.next.networkStats
    ensures !Registered(s, socketId) ==>
      r.next == s.(networkStats := s.networkStats - {socketId}) && r.deliveries == []
    ensures forall d | d in r.deliveries :: d.event == RoomClosed(HOST_DISCONNECTED, now)
    ensures r.next.rooms.Keys <= s.rooms.Keys
    ensures r.next.socketToRoom.Keys <= s.socketToRoom.Keys
    ensures r.next.networkStats.Keys <= s.networkStats.Keys
    ensures Inv(s) ==> Inv(r.next)
  {
    var stats := s.networkStats - {socketId};
    if !Registered(s, socketId) then DisconnectOutcome(s.(networkStats := stats), [])
    else
      var roomId := s.socketToRoom[socketId];
      var room := s.rooms[roomId];
      if room.hostSocketId == socketId then
        var gone := Elems(room.followers);
        DisconnectOutcome(
          Registry(s.rooms - {roomId}, s.socketToRoom - gone - {socketId}, stats - gone),
          Broadcast(room.followers, RoomClosed(HOST_DISCONNECTED, now)))
      else
        DisconnectOutcome(
          Registry(s.rooms[roomId := room.(followers := Remove(room.followers, socketId))],
                   s.socketToRoom - {socketId}, stats),
          [])
  }

  /**
   * A host's departure: its room is gone, each follower gets exactly one room_closed, and neither the host
   * nor any follower keeps an index entry or statistics; no index entry names the room any more, and every
   * other room, index entry and statistics record stays.
   */
  lemma HostDisconnectClosesRoom(s: Registry, hostId: string, now: int)
    requires Inv(s)
    requires Registered(s, hostId) && s.rooms[s.socketToRoom[hostId]].hostSocketId == hostId
    ensures var roomId := s.socketToRoom[hostId];
      var room := s.rooms[roomId];
      var r := Disconnect(s, hostId, now);
      && roomId !in r.next.rooms
      && r.deliveries == Broadcast(room.followers, RoomClosed(HOST_DISCONNECTED, now))
      && |r.deliveries| == |room.followers|
      && (forall p | IsParticipant(room, p) :: p !in r.next.socketToRoom && p !in r.next.networkStats)
      && (forall x | x in r.next.socketToRoom :: r.next.socketToRoom[x] != roomId)
      && (forall id | id in r.next.rooms :: r.next.rooms[id] == s.rooms[id])
      && r.next.rooms == s.rooms - {roomId}
      && r.next.socketToRoom == s.socketToRoom - Elems(room.followers) - {hostId}
      && r.next.networkStats == s.networkStats - {hostId} - Elems(room.followers)
  {
    var roomId := s.socketToRoom[hostId];
    var room := s.rooms[roomId];
    var r := Disconnect(s, hostId, now);
    forall x | x in r.next.socketToRoom ensures r.next.socketToRoom[x] != roomId {
      assert x in s.socketToRoom && x != hostId && x !in Elems(room.followers);
    }
  }

  /**
   * A follower's departure: the room stays with the same host and timestamps, and only that follower leaves
   * its follower set (the others keep their order), the index and the statistics.
   */
  lemma FollowerDisconnectKeepsRoom(s: Registry, followerId: string, now: int)
    requires Inv(s)
    requires Registered(s, followerId) && s.rooms[s.socketToRoom[followerId]].hostSocketId != followerId
    ensures var roomId := s.socketToRoom[followerId];
      var before := s.rooms[roomId];
      var r := Disconnect(s, followerId, now);
      && r.deliveries == []
      && roomId in r.next.rooms
      && r.next.rooms[roomId].hostSocketId == before.hostSocketId
      && Elems(r.next.rooms[roomId].followers) == Elems(before.followers) - {followerId}
      && (forall id | id in s.rooms && id != roomId :: r.next.rooms[id] == s.rooms[id])
      && r.next.socketToRoom == s.socketToRoom - {followerId}
      && r.next.networkStats == s.networkStats - {followerId}
      && r.next.rooms == s.rooms[roomId := before.(followers := Remove(before.followers, followerId))]
  {
  }

  /** A second disconnect or leave by the same socket changes nothing and notifies nobody. */
  lemma {:induction false} DisconnectTwiceIsNoop(s: Registry, socketId: string, now: int, later: int)
    ensures var once := Disconnect(s, socketId, now).next;
      Disconnect(once, socketId, later) == DisconnectOutcome(once, [])
  {
    var once := Disconnect(s, socketId, now).next;
    assert !Registered(once, socketId);
    assert once.networkStats - {socketId} == once.networkStats;
  }

  // ---------------------------------------------------------------------------------------------
  // Inactivity sweep

  function Expired(rooms: map<string, Room>, now: int): set<string> {
    set id | id in rooms && Idle(rooms[id], now)
  }

  /** The sockets whose index entry names one of `ids`. */
  function MappedTo(index: map<string, string>, ids: set<string>): set<string> {
    set x | x in index && index[x] in ids
  }

  /**
   * cleanupInactiveRooms: drops exactly the rooms idle for more than thirty minutes, with every index entry
   * and statistics record of a socket mapped to one of them; it notifies nobody.
   */
  function Sweep(s: Registry, now: int): (r: Registry)
    ensures forall id :: id in r.rooms <==> id in s.rooms && now - s.rooms[id].lastActivity <= INACTIVE_THRESHOLD
    ensures forall id | id in r.rooms :: r.rooms[id] == s.rooms[id]
    ensures forall x :: x in r.socketToRoom <==>
      x in s.socketToRoom && !(s.socketToRoom[x] in s.rooms && Idle(s.rooms[s.socketToRoom[x]], now))
    ensures forall x | x in r.socketToRoom :: r.socketToRoom[x] == s.socketToRoom[x]
    ensures forall x :: x in r.networkStats <==>
      x in s.networkStats && !(x in s.socketToRoom && s.socketToRoom[x] in s.rooms && Idle(s.rooms[s.socketToRoom[x]], now))
    ensures forall x | x in r.networkStats :: r.networkStats[x] == s.networkStats[x]
    ensures Inv(s) ==> Inv(r)
  {
    var gone := Expired(s.rooms, now);
    var dropped := MappedTo(s.socketToRoom, gone);
    Registry(s.rooms - gone, s.socketToRoom - dropped, s.networkStats - dropped)
  }

  // ---------------------------------------------------------------------------------------------
  // Counting connections

  /** Every socket that is host or follower of one of the rooms `ids`. */
  ghost function ParticipantsOf(rooms: map<string, Room>, ids: set<string>): set<string>
    requires ids <= rooms.Keys
    decreases ids
  {
    if ids == {} then {}
    else
      var id :| id in ids;
      {rooms[id].hostSocketId} + Elems(rooms[id].followers) + ParticipantsOf(rooms, ids - {id})
  }

  lemma {:induction false} ParticipantsOfContains(rooms: map<string, Room>, ids: set<string>, id: string, x: string)
    requires ids <= rooms.Keys && id in ids && IsParticipant(rooms[id], x)
    ensures x in ParticipantsOf(rooms, ids)
    decreases ids
  {
    var id' :| id' in ids && ParticipantsOf(rooms, ids) ==
      {rooms[id'].hostSocketId} + Elems(rooms[id'].followers) + ParticipantsOf(rooms, ids - {id'});
    if id' != id {
      ParticipantsOfContains(rooms, ids - {id'}, id, x);
    } else if x != rooms[id].hostSocketId {
      assert x in Elems(rooms[id].followers);
    }
  }

  lemma {:induction false} ParticipantsOfBound(rooms: map<string, Room>, ids: set<string>)
    requires ids <= rooms.Keys
    requires forall id | id in ids :: |rooms[id].followers| <= MAX_FOLLOWERS
    ensures |ParticipantsOf(rooms, ids)| <= (MAX_FOLLOWERS + 1) * |ids|
    decreases ids
  {
    if ids != {} {
      var id :| id in ids && ParticipantsOf(rooms, ids) ==
        {rooms[id].hostSocketId} + Elems(rooms[id].followers) + ParticipantsOf(rooms, ids - {id});
      ElemsCard(rooms[id].followers);
      ParticipantsOfBound(rooms, ids - {id});
    }
  }

  lemma SubsetCard<T>(a: set<T>, b: set<T>)
    requires a <= b
    ensures |a| <= |b|
  {
    assert b == a + (b - a);
  }

  /** The index holds at most eleven sockets for any one room: its host and at most ten followers. */
  lemma RoomConnectionsBound(s: Registry, roomId: string)
    ensures Inv(s) ==> |set x | x in s.socketToRoom && s.socketToRoom[x] == roomId| <= MAX_FOLLOWERS + 1
  {
    if Inv(s) {
      var indexed := set x | x in s.socketToRoom && s.socketToRoom[x] == roomId;
      if roomId in s.rooms {
        var room := s.rooms[roomId];
        ElemsCard(room.followers);
        SubsetCard(indexed, {room.hostSocketId} + Elems(room.followers));
      } else {
        assert indexed == {};
      }
    }
  }

  /** The index never holds more than eleven times as many sockets as there are rooms. */
  lemma {:induction false} ConnectionsBound(s: Registry)
    ensures Inv(s) ==> |s.socketToRoom| <= (MAX_FOLLOWERS + 1) * |s.rooms|
  {
    if Inv(s) {
      var all := ParticipantsOf(s.rooms, s.rooms.Keys);
      forall x | x in s.socketToRoom.Keys ensures x in all {
        ParticipantsOfContains(s.rooms, s.rooms.Keys, s.socketToRoom[x], x);
      }
      ParticipantsOfBound(s.rooms, s.rooms.Keys);
      SubsetCard(s.socketToRoom.Keys, all);
    }
  }
}

/** The service object: the three maps of module Relay, updated in place by the socket handlers. */
module RelayService {
  import opened Wrappers
  import opened Seqs
  import opened Transport
  import opened Relay

  /** What getRoomInfo reports about one room. */
  datatype RoomView = RoomView(
    roomId: string, hostSocketId: string, followerCount: nat, maxFollowers: nat,
    createdAt: int, lastActivity: int, isActive: bool)

  /** One room's entry in getServerStats. */
  datatype RoomSummary = RoomSummary(followers: nat, createdAt: int, lastActivity: int)

  datatype ServerStats = ServerStats(totalRooms: nat, totalConnections: nat, rooms: map<string, RoomSummary>)

  /** The statistics record a newly connected socket starts with. */
  function FreshStats(now: int): NetworkStats {
    NetworkStats(now, 0, 0, [], 0)
  }

  class MultiplayService {
    var rooms: map<string, Room>
    var socketToRoom: map<string, string>
    var networkStats: map<string, NetworkStats>

    function State(): Registry
      reads this
    {
      Registry(rooms, socketToRoom, networkStats)
    }

    ghost predicate Valid()
      reads this
    {
      Inv(State())
    }

    constructor()
      ensures Valid()
      ensures rooms == map[] && socketToRoom == map[] && networkStats == map[]
    {
      rooms := map[];
      socketToRoom := map[];
      networkStats := map[];
    }

    /** trackConnection: (re)starts the socket's statistics record. */
    method TrackConnection(socketId: string, now: int)
      requires Valid()
      modifies this
      ensures Valid()
      ensures rooms == old(rooms) && socketToRoom == old(socketToRoom)
      ensures networkStats == old(networkStats)[socketId := FreshStats(now)]
    {
      networkStats := networkStats[socketId := FreshStats(now)];
    }

    /** updateNetworkStats: for a tracked socket, records the ping time and counts one more message. */
    method UpdateNetworkStats(socketId: string, clientTimestamp: int, now: int)
      requires Valid()
      modifies this
      ensures Valid()
      ensures rooms == old(rooms) && socketToRoom == old(socketToRoom)
      ensures socketId !in old(networkStats) ==> networkStats == old(networkStats)
      ensures socketId in old(networkStats) ==>
        var before := old(networkStats)[socketId];
        networkStats == old(networkStats)[socketId :=
          before.(lastPingTime := now, messageCount := before.messageCount + 1)]
    {
      if socketId !in networkStats {
        return;
      }
      var stats := networkStats[socketId];
      networkStats := networkStats[socketId := stats.(lastPingTime := now, messageCount := stats.messageCount + 1)];
    }

    /** getNetworkStats: the socket's record, or nothing for an untracked socket. */
    function GetNetworkStats(socketId: string): (r: Option<NetworkStats>)
      reads this
      ensures r.Some? <==> socketId in networkStats
      ensures r.Some? ==> r.value == networkStats[socketId]
    {
      if socketId in networkStats then Some(networkStats[socketId]) else None
    }

    /** createOrJoinRoom: returns 'joined' or the reason the request was refused. */
    method CreateOrJoinRoom(roomId: string, role: string, socketId: string, now: int) returns (result: string)
      requires Valid()
      modifies this
      ensures Valid()
      ensures result == Join(old(State()), roomId, role, socketId, now).message
      ensures State() == Join(old(State()), roomId, role, socketId, now).next
    {
      if role == HOST_ROLE {
        if roomId in rooms {
          return ROOM_EXISTS;
        }
        rooms := rooms[roomId := Room(socketId, [], now, now)];
      } else {
        if roomId !in rooms {
          return ROOM_NOT_FOUND;
        }
        var room := rooms[roomId];
        if |room.followers| >= MAX_FOLLOWERS {
          return ROOM_FULL;
        }
        rooms := rooms[roomId := room.(followers := Insert(room.followers, socketId), lastActivity := now)];
      }
      socketToRoom := socketToRoom[socketId := roomId];
      return JOINED;
    }

    /** forwardEvent: a host's event goes to each follower in turn, all stamped with the same forward time. */
    method ForwardEvent(roomId: string, senderId: string, data: Payload, server: Server, now: int)
      returns (forwarded: bool)
      requires Valid()
      modifies this, server
      ensures Valid()
      ensures forwarded == Forward(old(State()), roomId, senderId, data, now).forwarded
      ensures State() == Forward(old(State()), roomId, senderId, data, now).next
      ensures server.outbox == old(server.outbox) + Forward(old(State()), roomId, senderId, data, now).deliveries
    {
      if roomId !in rooms {
        return false;
      }
      var room := rooms[roomId];
      if room.hostSocketId != senderId {
        return false;
      }
      rooms := rooms[roomId := room.(lastActivity := now)];
      server.EmitEach(room.followers, SyncEvent(data, now));
      return true;
    }

    /** handleDisconnect: see Relay.Disconnect; notifications go out before any follower is unregistered. */
    method HandleDisconnect(socketId: string, server: Server, now: int)
      requires Valid()
      modifies this, server
      ensures Valid()
      ensures State() == Disconnect(old(State()), socketId, now).next
      ensures server.outbox == old(server.outbox) + Disconnect(old(State()), socketId, now).deliveries
    {
      ghost var target := Disconnect(State(), socketId, now);
      var roomId: Option<string> := if socketId in socketToRoom then Some(socketToRoom[socketId]) else None;
      networkStats := networkStats - {socketId};
      if roomId.None? || roomId.value == "" {
        assert State() == target.next;
        return;
      }
      if roomId.value !in rooms {
        return;
      }
      var room := rooms[roomId.value];
      if room.hostSocketId == socketId {
        server.EmitEach(room.followers, RoomClosed(HOST_DISCONNECTED, now));
        Unregister(room.followers);
        rooms := rooms - {roomId.value};
      } else {
        rooms := rooms[roomId.value := room.(followers := Remove(room.followers, socketId))];
      }
      socketToRoom := socketToRoom - {socketId};
      assert State() == target.next;
    }

    /** The second pass over a departing host's followers: drops each one's index entry and statistics. */
    method Unregister(sockets: seq<string>)
      modifies this
      ensures rooms == old(rooms)
      ensures socketToRoom == old(socketToRoom) - Elems(sockets)
      ensures networkStats == old(networkStats) - Elems(sockets)
    {
      for i := 0 to |sockets|
        invariant rooms == old(rooms)
        invariant socketToRoom == old(socketToRoom) - Elems(sockets[..i])
        invariant networkStats == old(networkStats) - Elems(sockets[..i])
      {
        assert Elems(sockets[..i + 1]) == Elems(sockets[..i]) + {sockets[i]} by {
          assert sockets[..i + 1] == sockets[..i] + [sockets[i]];
        }
        socketToRoom := socketToRoom - {sockets[i]};
        networkStats := networkStats - {sockets[i]};
      }
      assert sockets[..|sockets|] == sockets;
    }

    /** The inner pass of cleanupInactiveRooms: unregisters every socket the index maps to `roomId`. */
    method DropSocketsOf(roomId: string)
      modifies this
      ensures rooms == old(rooms)
      ensures socketToRoom == old(socketToRoom) - MappedTo(old(socketToRoom), {roomId})
      ensures networkStats == old(networkStats) - MappedTo(old(socketToRoom), {roomId})
    {
      var pending := socketToRoom.Keys;
      while pending != {}
        invariant pending <= old(socketToRoom).Keys
        invariant rooms == old(rooms)
        invariant socketToRoom == old(socketToRoom) - (MappedTo(old(socketToRoom), {roomId}) - pending)
        invariant networkStats == old(networkStats) - (MappedTo(old(socketToRoom), {roomId}) - pending)
        decreases pending
      {
        var socketId :| socketId in pending;
        if socketToRoom[socketId] == roomId {
          socketToRoom := socketToRoom - {socketId};
          networkStats := networkStats - {socketId};
        }
        pending := pending - {socketId};
      }
    }

    /** cleanupInactiveRooms (run every five minutes by the service's timer): see Relay.Sweep. */
    method CleanupInactiveRooms(now: int)
      requires Valid()
      modifies this
      ensures Valid()
      ensures State() == Sweep(old(State()), now)
    {
      var pending := rooms.Keys;
      ghost var gone := Expired(old(rooms), now);
      while pending != {}
        invariant pending <= old(rooms).Keys
        invariant rooms == old(rooms) - (gone - pending)
        invariant socketToRoom == old(socketToRoom) - MappedTo(old(socketToRoom), gone - pending)
        invariant networkStats == old(networkStats) - MappedTo(old(socketToRoom), gone - pending)
        decreases pending
      {
        var roomId :| roomId in pending;
        var room := rooms[roomId];
        if Idle(room, now) {
          rooms := rooms - {roomId};
          DropStep(old(socketToRoom), gone - pending, roomId);
          DropSocketsOf(roomId);
          assert gone - (pending - {roomId}) == (gone - pending) + {roomId};
        } else {
          assert gone - (pending - {roomId}) == gone - pending;
        }
        pending := pending - {roomId};
      }
      assert gone - pending == gone;
      assert Sweep(old(State()), now) == Registry(rooms, socketToRoom, networkStats);
    }

    /** getRoomInfo: a present room's host, follower count against the limit of ten, and timestamps. */
    function GetRoomInfo(roomId: string): (r: Option<RoomView>)
      reads this
      ensures r.None? <==> roomId !in rooms
      ensures r.Some? ==>
        && r.value.roomId == roomId
        && r.value.hostSocketId == rooms[roomId].hostSocketId
        && r.value.followerCount == |Elems(rooms[roomId].followers)|
        && r.value.maxFollowers == MAX_FOLLOWERS
        && r.value.createdAt == rooms[roomId].createdAt
        && r.value.lastActivity == rooms[roomId].lastActivity
        && r.value.isActive
      ensures Valid() && r.Some? ==> r.value.followerCount <= r.value.maxFollowers
    {
      if roomId !in rooms then None
      else
        var room := rooms[roomId];
        ElemsCard(room.followers);
        Some(RoomView(roomId, room.hostSocketId, |Elems(room.followers)|, MAX_FOLLOWERS,
                      room.createdAt, room.lastActivity, true))
    }

    /** getServerStats: room and connection totals, and each room's follower count and timestamps. */
    function GetServerStats(): (r: ServerStats)
      reads this
      ensures r.totalRooms == |rooms| && r.totalConnections == |socketToRoom|
      ensures r.rooms.Keys == rooms.Keys
      ensures forall id | id in r.rooms ::
        r.rooms[id] == RoomSummary(|Elems(rooms[id].followers)|, rooms[id].createdAt, rooms[id].lastActivity)
      ensures Valid() ==> r.totalConnections <= (MAX_FOLLOWERS + 1) * r.totalRooms
    {
      ConnectionsBound(State());
      ServerStats(|rooms|, |socketToRoom|,
        map id | id in rooms :: RoomSummary(|Elems(rooms[id].followers)|, rooms[id].createdAt, rooms[id].lastActivity))
    }
  }

  /** One more idle room dropped from the index amounts to dropping the sockets mapped to it from what is left. */
  lemma DropStep(index: map<string, string>, done: set<string>, roomId: string)
    requires roomId !in done
    ensures var rest := index - MappedTo(index, done);
      && rest - MappedTo(rest, {roomId}) == index - MappedTo(index, done + {roomId})
      && MappedTo(rest, {roomId}) == MappedTo(index, {roomId})
  {
    var rest := index - MappedTo(index, done);
    assert MappedTo(rest, {roomId}) == MappedTo(index, {roomId});
  }
}
