/** Concrete runs of the relay: a host-and-follower session, and the inactivity sweep around its threshold. */
module Scenarios {
  import opened Seqs
  import opened Transport
  import opened Relay

  const MINUTE := 60 * 1000

  /**
   * Host H opens room "abc", a second would-be host is refused, follower F1 joins, H's play event reaches F1
   * alone, and H's disconnect sends F1 one room_closed and leaves no trace of the room or its members.
   */
  lemma {:induction false} HostFollowerSession(data: Payload)
    ensures var s0 := Registry(map[], map[], map[]);
      var hostJoin := Join(s0, "abc", "host", "H", 1000);
      var rival := Join(hostJoin.next, "abc", "host", "H2", 1500);
      var followerJoin := Join(rival.next, "abc", "follower", "F1", 2000);
      var play := Forward(followerJoin.next, "abc", "H", data, 3000);
      var echo := Forward(play.next, "abc", "F1", data, 3500);
      var close := Disconnect(echo.next, "H", 4000);
      && hostJoin.message == JOINED
      && rival.message == ROOM_EXISTS && rival.next.rooms["abc"].hostSocketId == "H"
      && followerJoin.message == JOINED
      && play.forwarded && play.deliveries == [Delivery("F1", SyncEvent(data, 3000))]
      && !echo.forwarded && echo.deliveries == []
      && close.deliveries == [Delivery("F1", RoomClosed(HOST_DISCONNECTED, 4000))]
      && close.next.rooms == map[] && close.next.socketToRoom == map[]
  {
    var s0 := Registry(map[], map[], map[]);
    HostOpens();
    RivalRefused();
    FollowerJoins();
    HostPlays(data);
    FollowerEchoIgnored(data);
    HostLeaves();
  }

  // The registry after each step of the session.
  const OPENED := Registry(map["abc" := Room("H", [], 1000, 1000)], map["H" := "abc"], map[])
  const JOINED_F1 := Registry(map["abc" := Room("H", ["F1"], 1000, 2000)], map["H" := "abc", "F1" := "abc"], map[])
  const PLAYED := Registry(map["abc" := Room("H", ["F1"], 1000, 3000)], map["H" := "abc", "F1" := "abc"], map[])

  lemma HostOpens()
    ensures Join(Registry(map[], map[], map[]), "abc", "host", "H", 1000) == JoinOutcome(JOINED, OPENED)
  {
  }

  lemma RivalRefused()
    ensures Join(OPENED, "abc", "host", "H2", 1500) == JoinOutcome(ROOM_EXISTS, OPENED)
  {
  }

  lemma FollowerJoins()
    ensures Join(OPENED, "abc", "follower", "F1", 2000) == JoinOutcome(JOINED, JOINED_F1)
  {
    assert Insert([], "F1") == ["F1"];
  }

  lemma HostPlays(data: Payload)
    ensures Forward(JOINED_F1, "abc", "H", data, 3000)
         == ForwardOutcome(true, PLAYED, [Delivery("F1", SyncEvent(data, 3000))])
  {
  }

  lemma FollowerEchoIgnored(data: Payload)
    ensures Forward(PLAYED, "abc", "F1", data, 3500) == ForwardOutcome(false, PLAYED, [])
  {
  }

  lemma HostLeaves()
    ensures Disconnect(PLAYED, "H", 4000)
         == DisconnectOutcome(Registry(map[], map[], map[]), [Delivery("F1", RoomClosed(HOST_DISCONNECTED, 4000))])
  {
    assert Registered(PLAYED, "H");
    assert Elems(["F1"]) == {"F1"};
    assert PLAYED.socketToRoom - {"F1"} - {"H"} == map[];
  }

  /**
   * With the clock at 100 minutes, a room last active 31 minutes ago is swept together with its host's index
   * entry and statistics, while rooms last active 29 and exactly 30 minutes ago stay.
   */
  lemma {:induction false} SweepAroundThreshold(stats: NetworkStats)
    ensures var now := 100 * MINUTE;
      var s := Registry(
        map["stale" := Room("A", [], 0, now - 31 * MINUTE),
            "fresh" := Room("B", [], 0, now - 29 * MINUTE),
            "edge" := Room("C", [], 0, now - 30 * MINUTE)],
        map["A" := "stale", "B" := "fresh"],
        map["A" := stats, "B" := stats]);
      var r := Sweep(s, now);
      && r.rooms.Keys == {"fresh", "edge"}
      && r.socketToRoom == map["B" := "fresh"]
      && r.networkStats == map["B" := stats]
  {
    var now := 100 * MINUTE;
    var s := Registry(
      map["stale" := Room("A", [], 0, now - 31 * MINUTE),
          "fresh" := Room("B", [], 0, now - 29 * MINUTE),
          "edge" := Room("C", [], 0, now - 30 * MINUTE)],
      map["A" := "stale", "B" := "fresh"],
      map["A" := stats, "B" := stats]);
    var r := Sweep(s, now);
    assert "stale" !in r.rooms && "fresh" in r.rooms && "edge" in r.rooms;
    assert "A" !in r.socketToRoom && "B" in r.socketToRoom;
    assert "A" !in r.networkStats && "B" in r.networkStats;
  }
}
