/**
 The server's session and room state machine. Two maps hold all of it:
 `users`, from a connection to the user logged in on it, and `rooms`, from
 a room id to the room. The hero a connection plays is kept per connection
 in a third map. Every socket event handler is a function from the
 state before the event to the state after it and the one reply the
 handler sends back to the caller (or to the caller's room, for rolls and
 messages). The only preconditions are that a new room id looks generated
 and that a roll is given one face per die.
 */
module Session {
  import opened Wrappers
  import opened JsText
  import opened Dice
  import opened Heroes

  /** A socket connection id. */
  type ConnId = string

  /** A room id. */
  type RoomId = string

  /** A logged-in user and the room its entry points at (`user.room`), if
      any. */
  datatype User = User(username: string, room: Option<RoomId>)

  /** A room: its name, the name of the user who created it and the
      connections in it. */
  datatype Room = Room(name: string, creator: string, members: set<ConnId>)

  datatype State = State(
    users: map<ConnId, User>,
    rooms: map<RoomId, Room>,
    heroes: map<ConnId, Hero>)

  /** The server as it starts: no users, no rooms, no heroes. */
  const Init: State := State(map[], map[], map[])

  /** One entry of the room listing. */
  datatype RoomSummary = RoomSummary(
    name: string,
    creator: string,
    memberCount: nat,
    members: map<ConnId, Option<string>>)

  /** What a handler sends back. */
  datatype Reply =
    | LoginError(message: string)
    | LoginSuccess(userId: ConnId, username: string)
    | Error(message: string)
    | RoomCreated(roomId: RoomId, roomName: string, creatorNames: seq<string>)
    | RoomJoined(roomId: RoomId, roomName: string, hero: Hero, memberNames: map<ConnId, Option<string>>)
    | RoomsList(rooms: map<RoomId, RoomSummary>)
    | RollResult(roomId: RoomId, heroName: string, outcome: Outcome, success: Option<bool>)
    | NewMessage(roomId: RoomId, username: string, heroName: string, message: string)
    /** The handler threw a TypeError calling a method the hero lacks. */
    | MissingMethod(name: string)
    | NoReply

  /** The state after a handler ran, and its reply. */
  datatype Step = Step(state: State, reply: Reply)

  /** Room ids are made by the server as `room_<time>_<random>`. */
  predicate GeneratedId(id: RoomId) {
    |id| > 5 && id[..5] == "room_"
  }

  /** Some connection is logged in under `name`. */
  predicate NameTaken(users: map<ConnId, User>, name: string) {
    exists c :: c in users && users[c].username == name
  }

  /** The connection is logged in and has entered a room. */
  predicate InRoom(s: State, conn: ConnId) {
    conn in s.users && s.users[conn].room.Some?
  }

  /** The name a member is shown under: the username it is logged in
      with, or nothing (JavaScript's `undefined`) once it is gone. */
  function MemberName(users: map<ConnId, User>, c: ConnId): Option<string> {
    if c in users then Some(users[c].username) else None
  }

  function MemberNames(users: map<ConnId, User>, members: set<ConnId>): map<ConnId, Option<string>> {
    map c | c in members :: MemberName(users, c)
  }

  /** Declarative reading of a removal: `after` is `before` with `conn`
      taken out of room `id`, the room dropped once it has no members left,
      and every other room as it was. */
  predicate Removed(before: map<RoomId, Room>, after: map<RoomId, Room>, id: RoomId, conn: ConnId) {
    && after - {id} == before - {id}
    && (id in after <==> id in before && before[id].members - {conn} != {})
    && (id in after ==> after[id] == before[id].(members := before[id].members - {conn}))
  }

  /** The cleanup shared by joining, leaving and disconnecting: drop the
      connection from the room and delete the room when that empties it.
      A room that is already gone is left alone. */
  function RemoveMember(rooms: map<RoomId, Room>, id: RoomId, conn: ConnId): (after: map<RoomId, Room>)
    ensures Removed(rooms, after, id, conn)
  {
    if id in rooms then
      var room := rooms[id].(members := rooms[id].members - {conn});
      if room.members == {} then rooms - {id} else rooms[id := room]
    else
      rooms
  }

  /** The `login` event: a blank name or a name some connection already
      holds is refused with nothing changed; otherwise the connection is
      logged in under the name, in no room. Logging in again on the same
      connection replaces its entry and forgets its room, but leaves the
      room's member set alone. */
  function OnLogin(s: State, conn: ConnId, username: string): (r: Step)
    ensures r.reply.LoginError? <==> IsBlank(username) || NameTaken(s.users, username)
    ensures IsBlank(username) ==> r.reply == LoginError("Username cannot be empty")
    ensures !IsBlank(username) && NameTaken(s.users, username) ==> r.reply == LoginError("Username already taken")
    ensures r.reply.LoginError? ==> r.state == s
    ensures !r.reply.LoginError? ==>
      && r.reply == LoginSuccess(conn, username)
      && r.state.users.Keys == s.users.Keys + {conn}
      && r.state.users[conn] == User(username, None)
      && r.state.users - {conn} == s.users - {conn}
      && r.state.rooms == s.rooms && r.state.heroes == s.heroes
  {
    if IsBlank(username) then
      Step(s, LoginError("Username cannot be empty"))
    else if NameTaken(s.users, username) then
      Step(s, LoginError("Username already taken"))
    else
      Step(s.(users := s.users[conn := User(username, None)]), LoginSuccess(conn, username))
  }

  /** The `create_room` event. `freshId` stands for the id the server
      generates. A caller that is not logged in, or a blank room name, is
      refused with nothing changed. Otherwise the room is stored under the
      id with the caller as creator and only member, and the caller's room
      becomes the new one; the caller is not taken out of the room it was
      in before. A map entry already under `freshId` is overwritten. */
  function OnCreateRoom(s: State, conn: ConnId, roomName: string, freshId: RoomId): (r: Step)
    requires GeneratedId(freshId)
    ensures conn !in s.users ==> r == Step(s, Error("Not logged in"))
    ensures conn in s.users && IsBlank(roomName) ==> r == Step(s, Error("Room name cannot be empty"))
    ensures conn in s.users && !IsBlank(roomName) ==>
      var name := s.users[conn].username;
      && r.reply == RoomCreated(freshId, roomName, [name])
      && r.state.rooms.Keys == s.rooms.Keys + {freshId}
      && r.state.rooms[freshId] == Room(roomName, name, {conn})
      && r.state.rooms - {freshId} == s.rooms - {freshId}
      && r.state.users.Keys == s.users.Keys
      && r.state.users[conn] == User(name, Some(freshId))
      && r.state.users - {conn} == s.users - {conn}
      && r.state.heroes == s.heroes
  {
    if conn !in s.users then
      Step(s, Error("Not logged in"))
    else if IsBlank(roomName) then
      Step(s, Error("Room name cannot be empty"))
    else
      var user := s.users[conn];
      var room := Room(roomName, user.username, {conn});
      Step(
        s.(rooms := s.rooms[freshId := room], users := s.users[conn := user.(room := Some(freshId))]),
        RoomCreated(freshId, roomName, [user.username]))
  }

  /** The `join_room` event. A caller that is not logged in, or a room id
      with no room, is refused with nothing changed. Otherwise the caller
      first leaves the room it was in (the room is deleted if that empties
      it), then its room becomes the target, it is added to the target's
      members and it gets a new hero built from `params`. The target room
      was looked up before the leave: when the caller was the only member
      of the target itself, the leave deletes it, the caller is added to a
      room no longer in the map and its room points at a missing id. */
  function OnJoinRoom(s: State, conn: ConnId, roomId: RoomId, params: HeroParams): (r: Step)
    ensures conn !in s.users ==> r == Step(s, Error("Not logged in"))
    ensures conn in s.users && roomId !in s.rooms ==> r == Step(s, Error("Room not found"))
    ensures conn in s.users && roomId in s.rooms ==>
      var user := s.users[conn];
      var target := s.rooms[roomId];
      var left := if user.room.Some? then RemoveMember(s.rooms, user.room.value, conn) else s.rooms;
      && (user.room.Some? ==> Removed(s.rooms, left, user.room.value, conn))
      && (roomId in r.state.rooms <==> roomId in left)
      && (roomId in left ==> r.state.rooms[roomId] == target.(members := target.members + {conn}))
      && r.state.rooms - {roomId} == left - {roomId}
      && r.state.users.Keys == s.users.Keys
      && r.state.users[conn] == User(user.username, Some(roomId))
      && r.state.users - {conn} == s.users - {conn}
      && r.state.heroes == s.heroes[conn := NewHero(params)]
      && r.reply == RoomJoined(roomId, target.name, NewHero(params),
                               MemberNames(r.state.users, target.members + {conn}))
  {
    if conn !in s.users then
      Step(s, Error("Not logged in"))
    else if roomId !in s.rooms then
      Step(s, Error("Room not found"))
    else
      var user := s.users[conn];
      var room := s.rooms[roomId];
      var rooms := if user.room.Some? then RemoveMember(s.rooms, user.room.value, conn) else s.rooms;
      // The looked-up room object gains the caller whether or not it is still in the map.
      var joined := room.(members := room.members + {conn});
      var rooms' := if roomId in rooms then rooms[roomId := joined] else rooms;
      var users' := s.users[conn := user.(room := Some(roomId))];
      var hero := NewHero(params);
      Step(
        State(users', rooms', s.heroes[conn := hero]),
        RoomJoined(roomId, room.name, hero, MemberNames(users', joined.members)))
  }

  /** The `get_rooms` event: one summary per room, with its member count
      and its members' names as they are logged in now (nothing for a
      member no longer logged in). Nothing changes. */
  function OnGetRooms(s: State): (r: Step)
    ensures r.state == s
    ensures r.reply.RoomsList?
    ensures r.reply.rooms.Keys == s.rooms.Keys
    ensures forall id :: id in s.rooms ==>
      && r.reply.rooms[id].name == s.rooms[id].name
      && r.reply.rooms[id].creator == s.rooms[id].creator
      && r.reply.rooms[id].memberCount == |s.rooms[id].members|
      && r.reply.rooms[id].members.Keys == s.rooms[id].members
      && forall c :: c in s.rooms[id].members ==>
           r.reply.rooms[id].members[c] == (if c in s.users then Some(s.users[c].username) else None)
  {
    var list := map id | id in s.rooms ::
      var room := s.rooms[id];
      RoomSummary(room.name, room.creator, |room.members|, MemberNames(s.users, room.members));
    Step(s, RoomsList(list))
  }

  /** The guard of the roll and reset handlers: the caller must be in a
      room, then must have a hero; `noHero` is the handler's message for
      the second failure. */
  function PlayerGuard(s: State, conn: ConnId, noHero: string): Option<string> {
    if !InRoom(s, conn) then Some("Not in a room")
    else if conn !in s.heroes then Some(noHero)
    else None
  }

  /** The faces the roll handlers need: one per die the caller's hero
      rolls, `extra` dice included, once the caller has a hero and is in a
      room. */
  predicate FacesFor(s: State, conn: ConnId, faces: seq<Face>, extra: nat) {
    InRoom(s, conn) && conn in s.heroes ==> |faces| == DiceCount(s.heroes[conn].dicePool) + extra
  }

  /** The `action_roll` event: refused with nothing changed unless the
      caller is in a room and has a hero; otherwise the hero makes an action
      roll, keeping the extra hero die, and the roll goes to the room. */
  function OnActionRoll(s: State, conn: ConnId, faces: seq<Face>): (r: Step)
    requires FacesFor(s, conn, faces, 1)
    ensures !InRoom(s, conn) ==> r == Step(s, Error("Not in a room"))
    ensures InRoom(s, conn) && conn !in s.heroes ==> r == Step(s, Error("EMs don't make action rolls!"))
    ensures InRoom(s, conn) && conn in s.heroes ==>
      var h := s.heroes[conn];
      && r.state.users == s.users && r.state.rooms == s.rooms
      && r.state.heroes.Keys == s.heroes.Keys
      && r.state.heroes - {conn} == s.heroes - {conn}
      && r.state.heroes[conn].dicePool == Pool(h.dicePool.hero + 1, h.dicePool.red, h.dicePool.black)
      && ParamsOf(r.state.heroes[conn]) == ParamsOf(h)
      && r.state.heroes[conn].hp == h.hp && r.state.heroes[conn].hope == h.hope
      && r.state.heroes[conn].qualities == h.qualities
      && r.reply.RollResult?
      && r.reply.roomId == s.users[conn].room.value && r.reply.heroName == h.name
      && r.reply.outcome == Roll(r.state.heroes[conn].dicePool, faces)
      && r.reply.success == None
  {
    match PlayerGuard(s, conn, "EMs don't make action rolls!")
    case Some(message) => Step(s, Error(message))
    case None =>
      var hero := s.heroes[conn];
      var rolled := ActionRoll(hero, faces);
      Step(
        s.(heroes := s.heroes[conn := rolled.hero]),
        RollResult(s.users[conn].room.value, hero.name, rolled.outcome, None))
  }

  /** The `forced_roll` event: refused unless the caller is in a room and
      has a hero; otherwise the hero makes a forced roll and the roll and
      its verdict go to the room. Nothing changes either way. */
  function OnForcedRoll(s: State, conn: ConnId, faces: seq<Face>): (r: Step)
    requires FacesFor(s, conn, faces, 0)
    ensures r.state == s
    ensures !InRoom(s, conn) ==> r.reply == Error("Not in a room")
    ensures InRoom(s, conn) && conn !in s.heroes ==> r.reply == Error("EMs don't make forced rolls!")
    ensures InRoom(s, conn) && conn in s.heroes ==>
      && r.reply.RollResult?
      && r.reply.roomId == s.users[conn].room.value && r.reply.heroName == s.heroes[conn].name
      && r.reply.outcome == Roll(s.heroes[conn].dicePool, faces)
      && r.reply.success == Some(r.reply.outcome.skulls <= r.reply.outcome.suns)
  {
    match PlayerGuard(s, conn, "EMs don't make forced rolls!")
    case Some(message) => Step(s, Error(message))
    case None =>
      var hero := s.heroes[conn];
      var forced := ForcedRoll(hero, faces);
      Step(s, RollResult(s.users[conn].room.value, hero.name, forced.outcome, Some(forced.success)))
  }

  /** The `reset_dice_pool` event: refused unless the caller is in a room
      and has a hero. Past the guard the handler calls a hero method that
      the hero class does not define: the call throws a TypeError, nothing
      is sent and nothing changes. `MissingMethod` stands for that thrown
      error, not for a message to the caller. */
  function OnResetDicePool(s: State, conn: ConnId): (r: Step)
    ensures r.state == s
    ensures !InRoom(s, conn) ==> r.reply == Error("Not in a room")
    ensures InRoom(s, conn) && conn !in s.heroes ==> r.reply == Error("EMs don't make forced rolls!")
    ensures InRoom(s, conn) && conn in s.heroes ==> r.reply == MissingMethod("resetDicePool")
  {
    match PlayerGuard(s, conn, "EMs don't make forced rolls!")
    case Some(message) => Step(s, Error(message))
    case None => Step(s, MissingMethod("resetDicePool"))
  }

  /** The name a message is signed with: the first non-empty of the
      caller's username and its hero's name, else "Unknown Hero". */
  function SenderHeroName(s: State, conn: ConnId): (name: string)
    ensures name != ""
    ensures conn in s.users && s.users[conn].username != "" ==> name == s.users[conn].username
    ensures (conn !in s.users || s.users[conn].username == "") && conn in s.heroes && s.heroes[conn].name != "" ==>
      name == s.heroes[conn].name
    ensures name == "Unknown Hero" || (conn in s.users && name == s.users[conn].username)
      || (conn in s.heroes && name == s.heroes[conn].name)
  {
    if conn in s.users && s.users[conn].username != "" then s.users[conn].username
    else if conn in s.heroes && s.heroes[conn].name != "" then s.heroes[conn].name
    else "Unknown Hero"
  }

  /** The `send_message` event: refused unless the caller is in a room that
      still exists; otherwise the message goes to the room. Nothing
      changes. */
  function OnSendMessage(s: State, conn: ConnId, message: string): (r: Step)
    ensures r.state == s
    ensures !InRoom(s, conn) ==> r.reply == Error("Not in a room")
    ensures InRoom(s, conn) && s.users[conn].room.value !in s.rooms ==> r.reply == Error("Room not found")
    ensures InRoom(s, conn) && s.users[conn].room.value in s.rooms ==>
      r.reply == NewMessage(s.users[conn].room.value, s.users[conn].username, SenderHeroName(s, conn), message)
  {
    var heroName := SenderHeroName(s, conn);
    if !InRoom(s, conn) then
      Step(s, Error("Not in a room"))
    else if s.users[conn].room.value !in s.rooms then
      Step(s, Error("Room not found"))
    else
      var user := s.users[conn];
      Step(s, NewMessage(user.room.value, user.username, heroName, message))
  }

  /** The `leave_room` event: nothing happens unless the caller is in a
      room. Otherwise it is taken out of that room (deleted if that empties
      it) and its room is cleared. Its hero is kept. */
  function OnLeaveRoom(s: State, conn: ConnId): (r: Step)
    ensures r.reply == NoReply
    ensures !InRoom(s, conn) ==> r.state == s
    ensures InRoom(s, conn) ==>
      && Removed(s.rooms, r.state.rooms, s.users[conn].room.value, conn)
      && r.state.users.Keys == s.users.Keys
      && r.state.users[conn] == User(s.users[conn].username, None)
      && r.state.users - {conn} == s.users - {conn}
      && r.state.heroes == s.heroes
  {
    if !InRoom(s, conn) then
      Step(s, NoReply)
    else
      var user := s.users[conn];
      Step(
        s.(rooms := RemoveMember(s.rooms, user.room.value, conn), users := s.users[conn := user.(room := None)]),
        NoReply)
  }

  /** The transport's `disconnect`: for a logged-in caller, it is taken out
      of its room (deleted if that empties it) and then logged out. The
      connection's hero goes with the closed socket. An unknown connection
      changes nothing. */
  function OnDisconnect(s: State, conn: ConnId): (r: Step)
    ensures r.reply == NoReply
    ensures conn !in s.users ==> r.state == s
    ensures conn in s.users ==>
      && r.state.users == s.users - {conn}
      && (InRoom(s, conn) ==> Removed(s.rooms, r.state.rooms, s.users[conn].room.value, conn))
      && (!InRoom(s, conn) ==> r.state.rooms == s.rooms)
      && r.state.heroes == s.heroes - {conn}
  {
    if conn !in s.users then
      Step(s, NoReply)
    else
      var user := s.users[conn];
      var rooms := if user.room.Some? then RemoveMember(s.rooms, user.room.value, conn) else s.rooms;
      Step(s.(rooms := rooms, users := s.users - {conn}, heroes := s.heroes - {conn}), NoReply)
  }
}
