# Dice rolls and room sessions of a tabletop game server, in Dafny

This project models the two parts of the game server that hold logic:

- **The dice engine and the hero** (`gameLogic.js`). A hero has a dice pool
  with three counters: hero, red and black. A roll reads each die through
  a fixed face table. A hero die shows a sun on 5-6, blank on 3-4 and a
  skull on 1-2. A red die shows a skull on every face but 3-4. A black die
  shows a double skull on 5-6, blank on 3-4 and a skull on 1-2. The roll
  lists the symbols per kind of die in roll order and totals suns and
  skulls. A *forced roll* rolls the pool as it is and succeeds unless
  skulls outnumber suns, so a tie succeeds. An *action roll* first adds one
  hero die to the pool for good, then rolls.
- **The session and room state machine** (`server.js`). The state is two
  maps: `users` (connection to username and current room) and `rooms`
  (room id to name, creator and member set). A third map holds the hero
  each connection plays (`socket.hero` in `server.js`). Every socket event
  handler is a function from the state and the event's payload to the
  next state and the reply. It is defined on every input, except that
  `create_room` needs a generated room id and the two roll handlers need
  one face per die rolled.

Randomness is an input. The die faces come as a sequence of values in
1..6, one per die, taken by the hero dice first, then the red dice, then
the black dice. The generated room id comes as the `freshId` parameter.

Modules:

- `Wrappers` is `Option`, which stands for `null`/`undefined`.
- `JsText` is the blank-name test `!s || s.trim() === ''`, over ECMAScript's whitespace set.
- `Dice` holds the face table, the reference `Roll` and the three loops of `rollDice` (`RollDice`).
- `Heroes` holds the hero constructor, `ForcedRoll` and `ActionRoll`.
- `Session` holds the state, the replies and one function per socket event.
- `SessionProps` holds the state invariant, the lemmas that each handler keeps it, the corner cases and a two-player scenario.

The model follows the code in these corner cases:

- A connection can be a member of two rooms. `create_room` points the
  user at the new room but never takes the connection out of the room it
  was in (`SessionProps.CreateWhileInRoomKeepsOldMembership`).
- `leave_room` does not clear the connection's hero. Only the next join
  replaces it (`SessionProps.LeaveKeepsHero`).
- `reset_dice_pool` calls `hero.resetDicePool()`, which the hero class
  does not define. Past its guards the handler throws a TypeError and
  sends nothing. The model's `MissingMethod` reply stands for that thrown
  error, and the state is left as it was (`Session.OnResetDicePool`).
- A member that is no longer logged in is listed with an undefined name,
  which is `None` in the model.

## Model

| member | source | states |
|---|---|---|
| JsText.TrimStart | server.js:35 | the result is the suffix of the name left after its longest all-whitespace prefix |
| JsText.TrimEnd | server.js:61 | the result is the prefix of the name left before its longest all-whitespace suffix |
| JsText.BlankIffTrimEmpty | server.js:35 | trimming leaves nothing exactly when every character is ECMAScript whitespace, the empty name included |
| Dice.SymbolOf | gameLogic.js:28-78 | the face table: 3-4 is blank on every kind and only 3-4 is blank, 1-2 is a skull on every kind, and 5-6 is a sun on a hero die, a skull on a red die and a double skull on a black die. Only hero dice show suns and only black dice show double skulls |
| Dice.GlyphsDistinct | gameLogic.js:28-78 | the four symbols pushed into the results ("☀", "⬜", "💀", "💀💀") are four different strings: two glyphs are equal exactly when their symbols are |
| Dice.Symbols | gameLogic.js:26-79 | one symbol per die, in roll order, each read through the face table of its kind |
| Dice.Roll | gameLogic.js:20-87 | the roll has exactly as many hero, red and black symbols as the pool has dice of each kind, each being the face table's reading of its own face |
| Dice.SymbolsCount | gameLogic.js:28-78 | counted from the faces: only hero dice give suns (one per 5-6). Skulls are one per hero 1-2, one per red 1-2 or 5-6, one per black 1-2 and two per black 5-6 |
| Dice.RollCounts | gameLogic.js:24-79 | the totals of a whole roll, counted from the faces given to the hero, red and black dice |
| Dice.RollSunsAreHeroSuns | gameLogic.js:24-44 | the sun total equals the number of suns among the hero results |
| Dice.RollBounds | gameLogic.js:24-79 | suns never exceed the hero dice, and skulls never exceed hero + red + 2 × black |
| Dice.RollEmptyPool | gameLogic.js:20-25 | an empty pool rolls three empty lists with zero suns and zero skulls |
| Dice.RollHeroDice | gameLogic.js:26-44 | the hero-die loop lists the reference symbols and counts their suns and skulls |
| Dice.RollRedDice | gameLogic.js:45-60 | the red-die loop lists the reference symbols and counts their skulls. Red dice never show a sun |
| Dice.RollBlackDice | gameLogic.js:61-79 | the black-die loop lists the reference symbols and counts their skulls, two for a double skull. Black dice never show a sun |
| Dice.RollDice | gameLogic.js:20-87 | the three loops, run in turn over one face source, compute the reference roll and stay within its bounds |
| Heroes.NewHero | gameLogic.js:6-18 | a new hero keeps its name, archetype and hero path. Its pool is 0/0/0, hp is -1, hope is 0 and it has no qualities |
| Heroes.NewHeroUnique | gameLogic.js:6-18 | the constructor is the only unplayed hero with the given parameters |
| Heroes.ForcedRoll | gameLogic.js:89-98 | a forced roll rolls the pool unchanged and succeeds exactly when skulls ≤ suns |
| Heroes.ForcedRollTieSucceeds | gameLogic.js:93-96 | a tie between suns and skulls is a success |
| Heroes.ActionRoll | gameLogic.js:101-104 | an action roll adds exactly one hero die and keeps red, black and every other field. It rolls the grown pool, so it shows one more hero symbol than the old count |
| Heroes.ActionRollFromEmptyPool | gameLogic.js:101-104 | from an empty pool, an action roll leaves pool 1/0/0 and shows one hero symbol and no red or black symbols |
| Session.RemoveMember | server.js:106-116 | the connection leaves the room, the room is deleted if this empties it, and every other room is unchanged |
| Session.OnLogin | server.js:34-50 | refused if and only if the name is blank or some user already has it, and a refusal changes nothing. On success only this connection's entry changes, to the name with no room |
| Session.OnCreateRoom | server.js:53-89 | refused with no change when not logged in or the name is blank. Otherwise the new room has the caller as creator and sole member, and the caller points at it. Nothing else changes |
| Session.OnJoinRoom | server.js:92-132 | refused with no change when not logged in or the room is unknown. Otherwise the caller leaves its previous room (deleted if emptied), joins the target, points at it and gets a fresh hero |
| Session.OnGetRooms | server.js:135-144 | one entry per room, memberCount = number of members, member names read from users at call time (none for a member that is gone). Nothing changes |
| Session.OnActionRoll | server.js:146-161 | nothing changes unless the caller is in a room and has a hero. If so, only that hero changes: one hero die more, with red, black, name, archetype, hero path, hp, hope and qualities kept. The room gets the roll of the grown pool |
| Session.OnForcedRoll | server.js:163-181 | nothing changes. A caller in a room with a hero sends the roll of its unchanged pool and a success flag that holds exactly when skulls ≤ suns |
| Session.OnResetDicePool | server.js:183-196 | nothing changes. The handler answers "Not in a room" or "EMs don't make forced rolls!" before reaching the hero. Past both guards it ends in the thrown error for the missing `resetDicePool` method |
| Session.SenderHeroName | server.js:201 | the name a message is signed with is never empty. It is the username when the caller is logged in with a non-empty one, else the hero's name when that is non-empty, else "Unknown Hero" |
| Session.OnSendMessage | server.js:199-219 | nothing changes. The message goes out only when the caller is in a room that still exists, signed with the caller's username |
| Session.OnLeaveRoom | server.js:222-239 | a no-op unless logged in with a room. Otherwise the caller leaves the room (deleted if emptied) and its room is cleared. Other users and the heroes are unchanged |
| Session.OnDisconnect | server.js:242-260 | a no-op for an unknown connection. Otherwise the caller leaves its room (deleted if emptied), and its user entry and its hero are removed |
| SessionProps.InitValid | server.js:25-27 | the empty server satisfies the invariant |
| SessionProps.LoginPreservesValid | server.js:34-50 | login keeps the invariant: occupied rooms, non-blank and distinct names, and every user whose room exists is a member of it |
| SessionProps.CreateRoomPreservesValid | server.js:53-89 | creating a room under a new id keeps the invariant |
| SessionProps.JoinRoomPreservesValid | server.js:92-132 | joining keeps the invariant |
| SessionProps.LeaveRoomPreservesValid | server.js:222-239 | leaving keeps the invariant |
| SessionProps.DisconnectPreservesValid | server.js:242-260 | disconnecting keeps the invariant |
| SessionProps.GuardedHandlersPreserveValid | server.js:146-219 | the roll, reset, message and listing handlers keep the invariant |
| SessionProps.HeldNameRefused | server.js:40-45 | a name held by any connection is refused with no change |
| SessionProps.DisconnectFreesName | server.js:258 | once its holder disconnects, the name logs in successfully from any connection |
| SessionProps.JoinLeavesPreviousRoom | server.js:106-120 | after joining another room, the caller is no longer in its previous room, which is deleted exactly when emptied. The caller is in the target and points at it |
| SessionProps.CreateWhileInRoomKeepsOldMembership | server.js:75-76 | creating a room while in another leaves the creator a member of both |
| SessionProps.RejoinOwnRoomAsSoleMember | server.js:107-120 | rejoining the room one is alone in deletes it and leaves the user pointing at a missing id. The reply still lists the caller as the only member |
| SessionProps.ReloginForgetsRoom | server.js:47 | logging in again clears the user's room while the room keeps the connection as a member |
| SessionProps.LeaveKeepsHero | server.js:222-239 | leaving keeps the hero, and action and forced rolls are then refused as "Not in a room" |
| SessionProps.ListedRoomsOccupied | server.js:135-143 | in a valid state every listed room has at least one member |
| SessionProps.LastLeaveUnlists | server.js:232-234 | when the last member leaves or disconnects, the room is gone from the next listing |
| SessionProps.MessageSignedWithUsername | server.js:201 | in a valid state the message's `heroName` field is the sender's username: the non-blank username always wins over the hero name and "Unknown Hero" |
| SessionProps.TavernScenario | server.js:34-161 | Alice logs in and creates Tavern, then Bob logs in and joins with the hero Bram. The listing shows one room with memberCount 2 and both names, and Bob's first action roll rolls one hero die |

## Left out

- Transport and I/O are left out: socket.io's own room membership (`socket.join`/`socket.leave` at server.js:78, 108, 121 and 237), broadcasts and events sent to other connections, Express static serving, `listen` and console logging. socket.io's membership decides who receives each `io.to(room).emit`. It is not modelled, and it can differ from `rooms`. A disconnected socket leaves every socket.io room but can stay in a room's member set after create-while-in-a-room. A caller that rejoins the room it was alone in is back in socket.io's room, although `rooms` no longer has that room.
- Session.OnCreateRoom: the `room_list_updated` broadcast is left out.
- Session.OnJoinRoom and Session.OnLeaveRoom: the `room_members_updated` broadcasts are left out. For rolls and messages, the reply stands for what is sent to the room.
- Session.OnGetRooms: rooms and member names are returned as maps, without the insertion order of the arrays `server.js` sends. Dafny maps and sets have no order, and no handler depends on that order.
- Session.OnJoinRoom: member names in the reply are a map from connection to name, not an ordered array, for the same reason.
- Session.OnCreateRoom: the id generator (`Date.now` plus `Math.random`) is the `freshId` parameter. It is required only to look like a generated id (`room_…`), so the server's truthiness test on a user's room means "has a room". The invariant lemma also needs the id to be new (`SessionProps.FreshId`), which the generator is meant to ensure but cannot promise.
- Room `createdAt` and message timestamps are left out because they are clock values. The roll text with its HTML and emoji (server.js:159, 176-179) is left out because it is presentation. `Dice.Glyph` gives the symbol strings.
- Session.OnResetDicePool: `resetDicePool` is not defined in gameLogic.js, so past the guards the handler throws a TypeError, which the `MissingMethod` reply stands for. What socket.io does with the thrown error is not modelled, and neither is the pool reset the handler was meant to do.
- Some payloads that are not strings make the handlers throw: a missing `roomData` or join data, or a number or object as a login or room name where `trim()` is called. Falsy ones are refused as empty, as for `login(null)` or `create_room({})`, and other values pass through, as for a number as a `roomId` or a message. The model takes every payload field as a string, with `""` standing for the falsy ones, and hero ids as integers.
- The `socketId` field of a user and the `roomId` field of a room are left out because they always equal their map keys.
- Session.OnDisconnect: `server.js` leaves the hero on the closed socket, and socket ids are never reused. The model drops the hero from the heroes map instead, so a connection id that logs in again starts with no hero.
- Session.OnActionRoll and Session.OnForcedRoll: they require one face per die, the extra action-roll die included, when the caller is in a room with a hero. This is the model's stand-in for the random source.
- Dice counters, hp and hope are unbounded integers. JavaScript numbers lose precision only past 2^53 action rolls.
