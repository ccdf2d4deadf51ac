/**
 Properties of the session and room state machine: the invariant every
 handler keeps, the name lifecycle, what a join does to the room left
 behind, the corner cases the handlers allow, and the two-player scenario
 of a tavern.
 */
module SessionProps {
  import opened Wrappers
  import opened JsText
  import opened Dice
  import opened Heroes
  import opened Session

  /** No room is kept once it has no members, and every room id is one the
      server generated. */
  predicate RoomsOccupied(s: State) {
    forall id :: id in s.rooms ==> GeneratedId(id) && s.rooms[id].members != {}
  }

  /** Every logged-in user has a non-blank name, and points, if anywhere,
      at a generated room id (so the handlers' truthiness test on the room
      is the same as "has a room"). */
  predicate UsersWellFormed(s: State) {
    forall c :: c in s.users ==>
      && !IsBlank(s.users[c].username)
      && (s.users[c].room.Some? ==> GeneratedId(s.users[c].room.value))
  }

  /** No two connections are logged in under the same name. */
  predicate NamesDistinct(s: State) {
    forall c, d :: c in s.users && d in s.users && s.users[c].username == s.users[d].username ==> c == d
  }

  /** A user whose room still exists is one of its members. (The converse
      does not hold: creating a room while in another leaves the creator a
      member of both.) */
  predicate PointersHeld(s: State) {
    forall c :: c in s.users && s.users[c].room.Some? && s.users[c].room.value in s.rooms ==>
      c in s.rooms[s.users[c].room.value].members
  }

  /** The invariant of the server state. */
  predicate Valid(s: State) {
    RoomsOccupied(s) && UsersWellFormed(s) && NamesDistinct(s) && PointersHeld(s)
  }

  lemma InitValid()
    ensures Valid(Init)
  {
  }

  lemma LoginPreservesValid(s: State, conn: ConnId, username: string)
    requires Valid(s)
    ensures Valid(OnLogin(s, conn, username).state)
  {
  }

  /** The generated id is new: no room has it and no user points at it. */
  predicate FreshId(s: State, id: RoomId) {
    && GeneratedId(id)
    && id !in s.rooms
    && forall c :: c in s.users ==> s.users[c].room != Some(id)
  }

  /** Creating a room keeps the invariant, provided the generated id is
      new. */
  lemma CreateRoomPreservesValid(s: State, conn: ConnId, roomName: string, freshId: RoomId)
    requires Valid(s) && FreshId(s, freshId)
    ensures Valid(OnCreateRoom(s, conn, roomName, freshId).state)
  {
    if conn in s.users && !IsBlank(roomName) {
      CreateKeepsUsers(s, conn, roomName, freshId);
      CreateKeepsPointers(s, conn, roomName, freshId);
    }
  }

  lemma CreateKeepsUsers(s: State, conn: ConnId, roomName: string, freshId: RoomId)
    requires UsersWellFormed(s) && NamesDistinct(s) && FreshId(s, freshId)
    requires conn in s.users && !IsBlank(roomName)
    ensures UsersWellFormed(OnCreateRoom(s, conn, roomName, freshId).state)
    ensures NamesDistinct(OnCreateRoom(s, conn, roomName, freshId).state)
  {
    var s' := OnCreateRoom(s, conn, roomName, freshId).state;
    assert forall c :: c in s'.users ==> c in s.users && s'.users[c].username == s.users[c].username;
  }

  lemma CreateKeepsPointers(s: State, conn: ConnId, roomName: string, freshId: RoomId)
    requires PointersHeld(s) && FreshId(s, freshId)
    requires conn in s.users && !IsBlank(roomName)
    ensures PointersHeld(OnCreateRoom(s, conn, roomName, freshId).state)
  {
    var s' := OnCreateRoom(s, conn, roomName, freshId).state;
    forall c | c in s'.users && s'.users[c].room.Some? && s'.users[c].room.value in s'.rooms
      ensures c in s'.rooms[s'.users[c].room.value].members
    {
      if c != conn {
        assert s'.users[c] == s.users[c];
        assert s.users[c].room.value != freshId;
      }
    }
  }

  lemma JoinRoomPreservesValid(s: State, conn: ConnId, roomId: RoomId, params: HeroParams)
    requires Valid(s)
    ensures Valid(OnJoinRoom(s, conn, roomId, params).state)
  {
    if conn in s.users && roomId in s.rooms {
      JoinKeepsRoomsOccupied(s, conn, roomId, params);
      JoinKeepsUsers(s, conn, roomId, params);
      JoinKeepsPointers(s, conn, roomId, params);
    }
  }

  lemma JoinKeepsRoomsOccupied(s: State, conn: ConnId, roomId: RoomId, params: HeroParams)
    requires RoomsOccupied(s) && conn in s.users && roomId in s.rooms
    ensures RoomsOccupied(OnJoinRoom(s, conn, roomId, params).state)
  {
    var s' := OnJoinRoom(s, conn, roomId, params).state;
    forall id | id in s'.rooms
      ensures GeneratedId(id) && s'.rooms[id].members != {}
    {
      assert id in s.rooms;
    }
  }

  lemma JoinKeepsUsers(s: State, conn: ConnId, roomId: RoomId, params: HeroParams)
    requires RoomsOccupied(s) && UsersWellFormed(s) && NamesDistinct(s)
    requires conn in s.users && roomId in s.rooms
    ensures UsersWellFormed(OnJoinRoom(s, conn, roomId, params).state)
    ensures NamesDistinct(OnJoinRoom(s, conn, roomId, params).state)
  {
    var s' := OnJoinRoom(s, conn, roomId, params).state;
    assert forall c :: c in s'.users ==> c in s.users && s'.users[c].username == s.users[c].username;
  }

  lemma JoinKeepsPointers(s: State, conn: ConnId, roomId: RoomId, params: HeroParams)
    requires PointersHeld(s) && conn in s.users && roomId in s.rooms
    ensures PointersHeld(OnJoinRoom(s, conn, roomId, params).state)
  {
    var s' := OnJoinRoom(s, conn, roomId, params).state;
    forall c | c in s'.users && s'.users[c].room.Some? && s'.users[c].room.value in s'.rooms
      ensures c in s'.rooms[s'.users[c].room.value].members
    {
      if c != conn {
        assert s'.users[c] == s.users[c];
        var id := s.users[c].room.value;
        assert id in s.rooms && c in s.rooms[id].members;
      }
    }
  }

  lemma LeaveRoomPreservesValid(s: State, conn: ConnId)
    requires Valid(s)
    ensures Valid(OnLeaveRoom(s, conn).state)
  {
    if InRoom(s, conn) {
      LeaveKeepsRoomsOccupied(s, conn);
      LeaveKeepsUsers(s, conn);
      LeaveKeepsPointers(s, conn);
    }
  }

  lemma LeaveKeepsRoomsOccupied(s: State, conn: ConnId)
    requires RoomsOccupied(s) && InRoom(s, conn)
    ensures RoomsOccupied(OnLeaveRoom(s, conn).state)
  {
    var s' := OnLeaveRoom(s, conn).state;
    assert forall id :: id in s'.rooms ==> id in s.rooms;
  }

  lemma LeaveKeepsUsers(s: State, conn: ConnId)
    requires UsersWellFormed(s) && NamesDistinct(s) && InRoom(s, conn)
    ensures UsersWellFormed(OnLeaveRoom(s, conn).state)
    ensures NamesDistinct(OnLeaveRoom(s, conn).state)
  {
    var s' := OnLeaveRoom(s, conn).state;
    assert forall c :: c in s'.users ==> c in s.users && s'.users[c].username == s.users[c].username;
  }

  lemma LeaveKeepsPointers(s: State, conn: ConnId)
    requires PointersHeld(s) && InRoom(s, conn)
    ensures PointersHeld(OnLeaveRoom(s, conn).state)
  {
    var s' := OnLeaveRoom(s, conn).state;
    forall c | c in s'.users && s'.users[c].room.Some? && s'.users[c].room.value in s'.rooms
      ensures c in s'.rooms[s'.users[c].room.value].members
    {
      assert s'.users[c] == s.users[c];
    }
  }

  lemma DisconnectPreservesValid(s: State, conn: ConnId)
    requires Valid(s)
    ensures Valid(OnDisconnect(s, conn).state)
  {
    var s' := OnDisconnect(s, conn).state;
    if conn in s.users {
      forall c | c in s'.users && s'.users[c].room.Some? && s'.users[c].room.value in s'.rooms
        ensures c in s'.rooms[s'.users[c].room.value].members
      {
        assert s'.users[c] == s.users[c];
      }
    }
  }

  /** The roll, reset, message and listing handlers touch neither users nor
      rooms, so they keep the invariant. */
  lemma GuardedHandlersPreserveValid(s: State, conn: ConnId, faces: seq<Face>, extra: seq<Face>, message: string)
    requires Valid(s)
    requires FacesFor(s, conn, faces, 1) && FacesFor(s, conn, extra, 0)
    ensures Valid(OnActionRoll(s, conn, faces).state)
    ensures Valid(OnForcedRoll(s, conn, extra).state)
    ensures Valid(OnResetDicePool(s, conn).state)
    ensures Valid(OnSendMessage(s, conn, message).state)
    ensures Valid(OnGetRooms(s).state)
  {
  }

  /** A name is refused while some connection holds it ... */
  lemma HeldNameRefused(s: State, holder: ConnId, other: ConnId)
    requires holder in s.users
    ensures OnLogin(s, other, s.users[holder].username).reply.LoginError?
    ensures OnLogin(s, other, s.users[holder].username).state == s
  {
  }

  /** ... and free again once that connection has disconnected. */
  lemma DisconnectFreesName(s: State, holder: ConnId, other: ConnId)
    requires Valid(s) && holder in s.users
    ensures var name := s.users[holder].username;
      OnLogin(OnDisconnect(s, holder).state, other, name).reply == LoginSuccess(other, name)
  {
    var s' := OnDisconnect(s, holder).state;
    assert forall c :: c in s'.users ==> c in s.users && c != holder && s'.users[c] == s.users[c];
  }

  /** Joining a room from another room takes the caller out of the room it
      was in (deleting it if the caller was its last member) and into the
      new one, which it then points at. */
  lemma JoinLeavesPreviousRoom(s: State, conn: ConnId, roomId: RoomId, params: HeroParams)
    requires conn in s.users && roomId in s.rooms
    requires s.users[conn].room.Some? && s.users[conn].room.value != roomId
    ensures var prev := s.users[conn].room.value;
      var s' := OnJoinRoom(s, conn, roomId, params).state;
      && (prev in s'.rooms <==> prev in s.rooms && s.rooms[prev].members - {conn} != {})
      && (prev in s'.rooms ==> conn !in s'.rooms[prev].members)
      && roomId in s'.rooms && conn in s'.rooms[roomId].members
      && s'.users[conn].room == Some(roomId)
  {
    var prev := s.users[conn].room.value;
    var left := RemoveMember(s.rooms, prev, conn);
    assert roomId in left by {
      assert left - {prev} == s.rooms - {prev};
      assert roomId in s.rooms - {prev};
    }
  }

  /** Creating a room while in another leaves the creator a member of both:
      the old room is not told it has lost the creator. */
  lemma CreateWhileInRoomKeepsOldMembership(s: State, conn: ConnId, roomName: string, freshId: RoomId)
    requires Valid(s) && InRoom(s, conn) && s.users[conn].room.value in s.rooms
    requires FreshId(s, freshId) && !IsBlank(roomName)
    ensures var prev := s.users[conn].room.value;
      var s' := OnCreateRoom(s, conn, roomName, freshId).state;
      && prev in s'.rooms && conn in s'.rooms[prev].members
      && conn in s'.rooms[freshId].members
      && s'.users[conn].room == Some(freshId)
  {
  }

  /** Rejoining the room one is the only member of deletes it, and leaves
      the caller pointing at a room id that is no longer there, while the
      reply still lists the caller as the room's only member. */
  lemma RejoinOwnRoomAsSoleMember(s: State, conn: ConnId, params: HeroParams)
    requires InRoom(s, conn)
    requires s.users[conn].room.value in s.rooms
    requires s.rooms[s.users[conn].room.value].members == {conn}
    ensures var id := s.users[conn].room.value;
      var r := OnJoinRoom(s, conn, id, params);
      && id !in r.state.rooms
      && r.state.users[conn].room == Some(id)
      && r.reply.RoomJoined?
      && r.reply.memberNames == map[conn := Some(s.users[conn].username)]
  {
    var id := s.users[conn].room.value;
    var r := OnJoinRoom(s, conn, id, params);
    assert r.reply.memberNames.Keys == {conn};
  }

  /** Logging in again on a connection that is in a room forgets the room
      on the user's side only: the room keeps the connection as a member. */
  lemma ReloginForgetsRoom(s: State, conn: ConnId, username: string)
    requires PointersHeld(s) && InRoom(s, conn) && s.users[conn].room.value in s.rooms
    requires !IsBlank(username) && !NameTaken(s.users, username)
    ensures var s' := OnLogin(s, conn, username).state;
      && s'.users[conn].room == None
      && s'.rooms == s.rooms
      && conn in s'.rooms[s.users[conn].room.value].members
  {
  }

  /** Leaving a room keeps the caller's hero; it is only replaced by the
      next join. Until then the roll handlers refuse the caller for not
      being in a room rather than for having no hero. */
  lemma LeaveKeepsHero(s: State, conn: ConnId, faces: seq<Face>, forcedFaces: seq<Face>)
    requires InRoom(s, conn) && conn in s.heroes
    ensures var s' := OnLeaveRoom(s, conn).state;
      && conn in s'.heroes && s'.heroes[conn] == s.heroes[conn]
      && OnActionRoll(s', conn, faces).reply == Error("Not in a room")
      && OnForcedRoll(s', conn, forcedFaces).reply == Error("Not in a room")
  {
  }

  /** In a valid state every listed room has members: a room whose last
      member leaves or disconnects is gone from the next listing. */
  lemma ListedRoomsOccupied(s: State)
    requires Valid(s)
    ensures forall id :: id in OnGetRooms(s).reply.rooms ==> OnGetRooms(s).reply.rooms[id].memberCount > 0
  {
  }

  lemma LastLeaveUnlists(s: State, conn: ConnId)
    requires InRoom(s, conn) && s.users[conn].room.value in s.rooms
    requires s.rooms[s.users[conn].room.value].members == {conn}
    ensures s.users[conn].room.value !in OnGetRooms(OnLeaveRoom(s, conn).state).reply.rooms
    ensures s.users[conn].room.value !in OnGetRooms(OnDisconnect(s, conn).state).reply.rooms
  {
  }

  /** In a valid state a message is always signed with the sender's
      username, never with its hero's name. */
  lemma MessageSignedWithUsername(s: State, conn: ConnId, message: string)
    requires Valid(s) && InRoom(s, conn) && s.users[conn].room.value in s.rooms
    ensures OnSendMessage(s, conn, message).reply.heroName == s.users[conn].username
  {
    assert s.users[conn].username != "";
  }

  /** The states of the tavern scenario. */
  const AliceIn: State := State(map["a" := User("Alice", None)], map[], map[])
  const TavernOpen: State :=
    State(map["a" := User("Alice", Some("room_1"))], map["room_1" := Room("Tavern", "Alice", {"a"})], map[])
  const BobIn: State :=
    TavernOpen.(users := TavernOpen.users["b" := User("Bob", None)])
  const BobJoined: State := State(
    map["a" := User("Alice", Some("room_1")), "b" := User("Bob", Some("room_1"))],
    map["room_1" := Room("Tavern", "Alice", {"a", "b"})],
    map["b" := NewHero(HeroParams("Bram", 2, 5))])

  lemma AliceLogsIn()
    ensures OnLogin(Init, "a", "Alice").state == AliceIn
  {
    assert "Alice"[0] == 'A';
  }

  lemma AliceOpensTavern()
    ensures OnCreateRoom(AliceIn, "a", "Tavern", "room_1").state == TavernOpen
  {
    assert "Tavern"[0] == 'T';
  }

  lemma BobLogsIn()
    ensures OnLogin(TavernOpen, "b", "Bob").state == BobIn
  {
    assert "Bob"[0] == 'B';
    assert !NameTaken(TavernOpen.users, "Bob");
  }

  lemma BobJoinsTavern()
    ensures OnJoinRoom(BobIn, "b", "room_1", HeroParams("Bram", 2, 5)).state == BobJoined
  {
    var s' := OnJoinRoom(BobIn, "b", "room_1", HeroParams("Bram", 2, 5)).state;
    assert BobIn.users["b"].room == None;
    assert BobIn.rooms["room_1"] == Room("Tavern", "Alice", {"a"});
    assert {"a"} + {"b"} == {"a", "b"};
    assert s'.rooms == BobIn.rooms["room_1" := Room("Tavern", "Alice", {"a", "b"})];
    assert s'.rooms == BobJoined.rooms;
    assert s'.users == BobJoined.users;
  }

  lemma TavernListing()
    ensures OnGetRooms(BobJoined).reply.rooms.Keys == {"room_1"}
    ensures OnGetRooms(BobJoined).reply.rooms["room_1"].memberCount == 2
    ensures OnGetRooms(BobJoined).reply.rooms["room_1"].members == map["a" := Some("Alice"), "b" := Some("Bob")]
  {
    assert |BobJoined.rooms["room_1"].members| == 2 by {
      assert BobJoined.rooms["room_1"].members == {"a"} + {"b"};
    }
  }

  /** Bob's first action roll in the Tavern rolls a single hero die and
      leaves one hero die in his hero's pool. */
  lemma BobsFirstActionRoll(f: seq<Face>)
    requires |f| == 1
    ensures FacesFor(BobJoined, "b", f, 1)
    ensures OnActionRoll(BobJoined, "b", f).state.heroes["b"].dicePool == Pool(1, 0, 0)
    ensures |OnActionRoll(BobJoined, "b", f).reply.outcome.heroResults| == 1
  {
    assert InRoom(BobJoined, "b") && "b" in BobJoined.heroes;
    assert BobJoined.heroes["b"].dicePool == Pool(0, 0, 0);
  }

  /** Alice logs in and opens the Tavern; Bob logs in and joins it with the
      hero Bram. The listing then shows one room with both of them, and
      Bob's first action roll rolls a single hero die. */
  lemma TavernScenario(f: seq<Face>)
    requires |f| == 1
    ensures OnLogin(Init, "a", "Alice").state == AliceIn
    ensures OnCreateRoom(AliceIn, "a", "Tavern", "room_1").state == TavernOpen
    ensures OnLogin(TavernOpen, "b", "Bob").state == BobIn
    ensures OnJoinRoom(BobIn, "b", "room_1", HeroParams("Bram", 2, 5)).state == BobJoined
    ensures OnGetRooms(BobJoined).reply.rooms.Keys == {"room_1"}
    ensures OnGetRooms(BobJoined).reply.rooms["room_1"].memberCount == 2
    ensures OnGetRooms(BobJoined).reply.rooms["room_1"].members == map["a" := Some("Alice"), "b" := Some("Bob")]
    ensures FacesFor(BobJoined, "b", f, 1)
    ensures OnActionRoll(BobJoined, "b", f).state.heroes["b"].dicePool == Pool(1, 0, 0)
    ensures |OnActionRoll(BobJoined, "b", f).reply.outcome.heroResults| == 1
  {
    AliceLogsIn();
    AliceOpensTavern();
    BobLogsIn();
    BobJoinsTavern();
    TavernListing();
    BobsFirstActionRoll(f);
  }
}
