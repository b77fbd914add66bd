# Crimson Desert multiplayer: session protocol, mirrors and framing

A Dafny model of the session server (`server/src`) and of the parts of the client (`client/src`) that talk to it,
with proofs of what the protocol promises.

* **The room protocol.** `Puzzles`, `Delta` and `Rooms` are the server's puzzle manager, state and room as functions
  from a state to the new state and the packets sent; `Mirror` is the client's replay of those packets. `Server`
  puts rooms, the player index, every connection and the clock into one state machine whose steps are the handlers
  of `index.ts`, the callbacks of timers, sockets that go down and time that passes. `ServerInvariant` proves one
  invariant of every step; `Runs`, `Succession`, `Waiting`, `FullTurns`, `Gates` with `Tokens`, `Conservation` and
  `QuietTicks` prove the properties of whole runs from it. `Departures`, `Turns`, `Admission` and `Reports` say what
  each event of a run does to the rooms, the indexes, the timers and every connection, in terms of the states before
  and after alone.
* **The objects that change in place.** `StateObjects`, `PuzzleObjects`, `Sockets` and `RoomObjects` are the classes
  of a room, `RoomSets` says that what one room does leaves all others alone, `ManagerObjects` is the manager with its
  Map of room objects, and `HandlerObjects` are the handlers on it and on the sessions. `ClientSession`, `Sender` and
  `Interpolation` are the client's. Each method is proved to do to its objects what the function of the model says, so
  the properties above are about them.
* **Numbers across three components.** `Sender`, `EndToEnd`, `GameplaySync`, `Interpolation`, `Screens` and `Drawn`:
  thresholds, epsilon diffing, merging and interpolation, from the values read in one game to what another draws.
* **The WebSocket codec.** `Base64`, `Frames`, `Streams` and `WsClient`: the encoder with its overflowing
  accumulator, the masked frame writer and the incremental parser, against section 4 of RFC 4648 and sections 5.2
  and 5.3 of RFC 6455.

Check everything with `dafny verify dfyconfig.toml`.

## Reading the model

* Ids, puzzle ids and invite codes are numbers, since only equality matters; 0 is the empty string. `Msg.Other` is
  any packet that changes nothing a client's mirror holds (chat, relayed calls, pongs, denials, server info).
* A JavaScript `Map` is a sequence of keys in insertion order and a Dafny map.
* A connection carries everything the server sent on it, in order; what has arrived is a prefix. Sends to a socket
  that is not open do nothing, so statements about a member's whole view ask for an open socket.
* Assumed of the environment: new player ids are fresh, and so are new invite codes (`rooms.set` does not look);
  timers fire no earlier than due and at most `slack` late; one connection for each client process.
* Floating point numbers are reals. The 32-bit accumulator of the Base64 encoder wraps in two's complement; C++17
  leaves a signed shift that overflows undefined, and this is what compilers do.
* The room manager keeps the configuration it was constructed with, so a changed `maxPlayers` of the running
  configuration never reaches a new room; the model has one `maxPlayers`, clamped to 1..8 as `coerce` clamps it.
* The password in a request to create a room is the one that counts: what the client sent, or else the configured one.
* The admin route of a kick tells the whole room, the kicked player included, and then disconnects it; both are one
  step of the model, and the KICK packet is a `Msg.Other`.
* Code and documentation disagree in places, and the model follows the code: a remote player's rotation and its
  displayed `isHost` flag are not kept up to date; a ping frame is answered with a text frame.

## Model

| member | source | states |
|---|---|---|
| Runs.ReplayIsProjection | client/src/session.cpp:100-212 | In every reachable state, replaying all packets ever sent to an open member gives exactly the other members as remotes, their cutscene flags, and whether it is the host |
| Runs.BelieverIsHost | server/src/room.ts:139-171 | A member whose client believes it is host, after any prefix of its packets, is the server's host now |
| Runs.NoSplitBrain | server/src/room.ts:161-171 | However long packets are delayed, two members of a room that believe they are host are the same, and the server's host |
| Runs.IndexesAgree | server/src/manager.ts:46-64 | Between events a player is bound to a code iff it is a connection of that room; connections and states have the same keys; no listed room is empty or over its limit of at most 8 |
| Runs.HostIsEldest | server/src/room.ts:119-167 | The host is the first of the connections, and the only member whose state is flagged as host |
| Runs.QueuesHold | server/src/puzzle.ts:24-98 | In every reachable state a live puzzle's queue is nonempty, duplicate-free, within the connections, and headed by the controller |
| Runs.TimersAccountedFor | server/src/puzzle.ts:109-134 | Pending timers and live puzzles are in bijection with the right deadlines; a destroyed room has no timer and no tick left |
| ServerInvariant.StepOk | server/src/index.ts:101-148 | Every handler, timer, tick, socket loss and passage of time keeps the invariant of the whole server |
| Departures.Departure | server/src/manager.ts:52-63 | In every run, after a close or a kick of a bound player: it is in no index and no room; its room is listed iff somebody else was in it; those who stay move up and keep their states, the first is host; each open one has heard of the departure and of a new host; every puzzle goes on among its other players, a lost token granted anew and a last player's puzzle ended; other rooms are untouched |
| Departures.NobodyDeparts | server/src/manager.ts:66-79 | A close or a kick of a player that is in no room changes at most its socket |
| Turns.PassTakesEffect | server/src/puzzle.ts:100-106 | In every run the controller's pass puts it last and everyone else one place further on, grants the new head a whole turn from now with its timer, and each open member is sent, and shows, exactly that; anyone else's pass changes nothing and tells nobody |
| Turns.TimerTakesEffect | server/src/puzzle.ts:109-115 | A token timer goes off when the turn is over, at most the timer lateness later, and does the same; it is not pending any more |
| Turns.StartTakesEffect | server/src/puzzle.ts:24-50 | A start queues the members in join order and grants the first 30 seconds; until that packet arrives nobody may act; other puzzles and their timers go on |
| Admission.JoinTakesEffect | server/src/index.ts:176-247 | In every run a creator is alone in a room with the password it asked for and the configured limit or 8; who is let in by a code is last in the room, in the index, listed everyone's states and introduced to them; everyone else is denied and changes nothing |
| Admission.PasswordDecides | server/src/room.ts:98-101 | As long as a room is listed, a newcomer with its code gets in iff fewer than the configured limit (at most 8) are there and the creator's request had no password, or this one |
| Admission.HandshakeTakesEffect | server/src/index.ts:150-174 | A handshake opens the session under a new id and tells it that id |
| Reports.UpdateTakesEffect | server/src/state.ts:267-316 | In every run an update patches the sender's state entry by entry, field by field, and nothing else |
| Reports.CutsceneTakesEffect | server/src/room.ts:183-194 | A member's flag is set and every other open member told; an outsider changes nothing |
| Reports.TickTakesEffect | server/src/state.ts:339-351 | A tick renews exactly the stale snapshots and sends every open member their states, each once and in join order, or nothing |
| Reports.TimeAndChatter | server/src/index.ts:101-148 | Time, sockets that go down and other traffic touch the clock, the socket and the connections alone |
| Succession.NeverReturns | server/src/index.ts:186-189 | Once a player has left a room it is never in it again |
| Succession.OrderKept | server/src/room.ts:119-144 | Two members keep their order for as long as both stay, whoever else comes and goes |
| Succession.SeniorsHaveLeft | server/src/room.ts:150-171 | Hosts succeed in join order: when a member is host, everyone who was ahead of it has left for good |
| Waiting.BoundedWaiting | server/src/puzzle.ts:52-98 | In every timed run without a restart, a player at queue position k who stays has had the token once k token durations (plus timer slack) have passed |
| Waiting.StepProgress | server/src/puzzle.ts:52-106 | Any step but a restart leaves whoever waits with the token, or due no later than before |
| FullTurns.FullTurn | server/src/puzzle.ts:52-115 | In every run without a restart, a player that has the token, stays and does not pass it keeps it until its duration is over, whoever else comes, goes or tries to pass |
| FullTurns.StepSameTurn | server/src/puzzle.ts:52-115 | Only the controller's pass or departure, a restart or the end of the turn moves the token |
| Puzzles.CountdownIsTimer | server/src/puzzle.ts:117-127 | The countdown in a token packet is the time until the puzzle's pending timer goes off, never negative |
| ServerInvariant.LetInIff | server/src/index.ts:176-224 | A join binds a player iff it shook hands, was in no room before, and the room is new, or listed with a place free and its password given |
| ServerInvariant.OnlyOwnState | server/src/index.ts:249-258 | Whatever entries a client sends, no state but its own changes |
| Tokens.TokenExclusion | client/src/sync/puzzle_sync.cpp:110-160 | In every reachable state with one puzzle live, whatever was live before, a queue member whose packets have arrived may act iff it is the server's controller |
| Tokens.ShownPuzzleGates | client/src/sync/puzzle_sync.cpp:148-160 | With any number of puzzles, a client that shows one shows a live one with its queue, and may act iff the server says it controls that one |
| Tokens.ActiveIffTold | server/src/puzzle.ts:109-127 | While any puzzle is live, a member's client shows one iff it was ever sent a token packet: when gating begins, late joiners included |
| Tokens.MayActIff | client/src/sync/puzzle_sync.cpp:148-160 | While any puzzle is live, a member may act iff it was never sent a token packet, or controls on the server the puzzle it shows |
| Tokens.AllShowTheSame | client/src/sync/puzzle_sync.cpp:110-146 | For any number of live puzzles, all members that show one show the same, with the same controller and queue |
| Tokens.AtMostOneActs | client/src/sync/puzzle_sync.cpp:148-160 | For any number of live puzzles, of the members that show one at most one may act |
| Tokens.LastHeardIsShown | server/src/puzzle.ts:52-66 | The exact gate is not one per puzzle: when the token of a first puzzle expires while a second is shown, everyone shows the first, and the controller of the second may not act |
| Gates.DisconnectNested | server/src/puzzle.ts:76-98 | Queues of live puzzles stay nested, since a later start takes every connection: a departure keeps that |
| Gates.DisconnectGate | server/src/puzzle.ts:76-98 | A departure leaves every remaining client with no puzzle shown only if none is live or it was never told |
| Conservation.TotalIsSumOfSizes | server/src/manager.ts:85-87 | `totalPlayers` is the sum of the sizes of all listed rooms in every reachable state |
| QuietTicks.TickLeavesFresh | server/src/state.ts:339-351 | After every tick of every run each member has a snapshot within every epsilon of its live state |
| QuietTicks.ToldIsSnapshot | server/src/room.ts:224-227 | Whatever ticks have told a member of another is that player's current snapshot |
| QuietTicks.QuietTicksAreSilent | server/src/state.ts:339-351 | A tick after a tick sends nothing if nobody got in between and only pings and fields that are never broadcast alone were reported, even if members left, joins were refused, the host changed or cutscenes began |
| Delta.UnchangedIsFresh | server/src/state.ts:120-196 | The change test is false exactly when every number is within its epsilon and every compared field is equal |
| Delta.NeverBroadcastAlone | server/src/state.ts:129-196 | Ping, host flag, cutscene flag, blend weight and the uncompared gameplay fields never cause a broadcast |
| Delta.ChangedLists | server/src/state.ts:339-347 | A tick lists exactly the due players, each with the state that becomes its snapshot |
| Puzzles.StartTimers | server/src/puzzle.ts:24-50 | Starting keeps the timer accounting iff someone is there to play or the puzzle was not live |
| Puzzles.FireTimers | server/src/puzzle.ts:109-115 | A pending timer belongs to a live puzzle, is its own, is due when its token runs out, and is replaced when it fires |
| Puzzles.DisconnectOk | server/src/puzzle.ts:76-98 | A departure keeps order, queues and timers right and takes the player out of every queue |
| Puzzles.NobodyLeft | server/src/room.ts:153-156 | With no members left there is no puzzle and no timer left |
| Puzzles.DropAllNoLater | server/src/puzzle.ts:76-98 | Anyone's departure leaves whoever waits due no later |
| PuzzleTracking.DropAllKeepsMirror | client/src/sync/puzzle_sync.cpp:110-146 | The packets of a departure keep every tracking client in step with the server's puzzles |
| Rooms.RemovePlayerOk | server/src/room.ts:139-158 | A departure leaves the room in order, or nothing of it running |
| ClientView.JoinerSees | server/src/index.ts:226-246 | The acknowledgement makes a fresh client's view right from the start |
| ClientView.OthersSeeLeave | server/src/room.ts:139-171 | The packets of a departure keep every other member's view right, the succession included |
| ClientView.AllSeeTick | client/src/sync/player_sync.cpp:282-330 | The packet of a tick keeps every member's view right, and makes what it knows of the due players their new snapshots |
| EndToEnd.EndToEndBound | client/src/sync/player_sync.cpp:43-110 | After an open send check, arrival, a tick and a drained channel, a receiver told of the player targets a position within 0.02 per axis of the one read, and shows a health within 0.5 iff the sender has ever sent anything |
| EndToEnd.GameplayAtReceiver | server/src/state.ts:129-196 | Then all gameplay blocks read are those of one moment, equal or close to the latest sent by kind of block, and exactly the latest iff a compared field was due or the snapshot had it already |
| EndToEnd.KeptBack | server/src/state.ts:129-196 | A dodge, respawn, skill target or mount position reported alone is merged and then kept back by the tick |
| EndToEnd.NothingSentIff | client/src/sync/player_sync.cpp:66-79 | Over any run nothing has been sent iff every open check so far read the origin, a health within 0.5 of -1 and the default animation out of traversal |
| EndToEnd.SuspendedIsSilent | client/src/sync/player_sync.cpp:43-47 | While suspended, a client sends nothing and remembers what it had sent |
| EndToEnd.FrozenWhileSuspended | client/src/sync/cutscene_sync.cpp:118-130 | A player whose updates have arrived keeps position, health and gameplay on the server for as long as a cutscene suspends it |
| Drawn.DrawnIsClose | client/src/sync/player_sync.cpp:459-503 | From memory to screen: 100 ms after the last update a receiver draws the player within 0.02 per axis of the position read |
| Drawn.DrawnGameplay | client/src/sync/player_sync.cpp:332-441 | The gameplay blocks a receiver's client holds are those of one moment, close to the latest sent |
| EndToEnd.SeniorsAreTold | server/src/state.ts:339-351 | Whoever joined before the player has been told of it by any tick |
| EndToEnd.LinkStepOk | client/src/sync/player_sync.cpp:66-109 | What is on the way always brings the server's entry to exactly what the sender remembers as sent |
| EndToEnd.SendsAreSpaced | client/src/sync/player_sync.cpp:43-47 | Over any run two state updates are at least 50 milliseconds apart |
| EndToEnd.LateJoinerKeepsOldPosition | server/src/index.ts:226-241 | A player away when someone joins and back before the next tick stays away on the joiner's screen, at any distance |
| Sender.LocalPlayer.SendLocalState | client/src/sync/player_sync.cpp:43-110 | The check in place: what it sends, and what it remembers, by connection, suspension, interval and thresholds |
| Sender.CheckTakesEffect | client/src/sync/player_sync.cpp:43-110 | A check sends iff it is connected, not suspended, 50 milliseconds after the one before and news was read: one update with every field and gameplay block read, and one of the animation if that is news |
| Sender.CheckedIsMerged | client/src/sync/player_sync.cpp:81-109 | Merging what a check sends sets every field to what was read and the sender remembers; sending nothing changes nothing |
| Sender.CheckedIsClose | client/src/sync/player_sync.cpp:66-79 | After an open check the remembered position, health and animation are within the thresholds of the real ones |
| Sender.FirstSend | client/src/sync/player_sync.cpp:66-79 | With nothing sent so far a check is silent iff it is not open or reads what looks unsent |
| GameplaySync.PipelineRoundTrip | client/src/sync/player_sync.cpp:229-280 | Over any packets, read out of the server's entry a gameplay block is present iff some packet carried it, with the value of the latest that did, whatever the reader held |
| GameplaySync.ParsedBlock | client/src/sync/player_sync.cpp:332-441 | A receiver reads in each block exactly what the entry carries |
| GameplaySync.ParsedRest | client/src/sync/player_sync.cpp:332-441 | Fields missing from a block that is there are read as zero, but positions are kept |
| GameplaySync.MergedBlock | server/src/state.ts:276-315 | Merging replaces the blocks a packet carries and keeps the others |
| GameplaySync.OtherUpdatesKeepGameplay | server/src/index.ts:292-301 | Updates that carry no gameplay fields, as animation updates and pings, leave the blocks as they are |
| Screens.DrawnPartWay | client/src/sync/player_sync.cpp:461-497 | A frame takes a player a client holds a hundredth of the remaining way for each millisecond since its update, four in fallback, all of it from 100 or 25 on; always strictly nearer on every axis where it was not there yet |
| Screens.CountsFromUpdate | client/src/sync/player_sync.cpp:282-330 | The time since the update counts from the last packet with an entry of the player, whatever came after |
| Screens.ConvergesOnScreen | client/src/sync/player_sync.cpp:459-503 | Between two updates, over any frames and any packets about others, each coordinate stays on the segment to its target, is never further away, and is there after a frame 100 ms past the update, in every mode |
| Screens.ConvergesToReplay | client/src/sync/player_sync.cpp:459-503 | Any client, fed any packets and frames since it connected, converges to the position the replay of its packets has |
| Screens.ScreenShowsReplay | client/src/session.cpp:100-258 | Fed any packets and frames, a client holds of every player what the replay of the packets holds |
| Screens.NothingResolved | client/src/sync/player_sync.h:42 | No packet and no frame ever gives a remote player a slot in the game, so every frame takes the branch without one |
| Screens.PacketShows | client/src/session.cpp:100-248 | One packet keeps the held players in agreement with the replay |
| Interpolation.ConvergesWithoutOvershoot | client/src/sync/player_sync.cpp:459-503 | The same for one player in any mode that goes to the target, with a slot in the game or without |
| Interpolation.UpdateToFrame | client/src/sync/player_sync.cpp:294-326 | The first update puts a player at its place; a later one never makes it jump but sends it along the segment to the new place, reached 100 ms later |
| Interpolation.FrameGoesPartWay | client/src/sync/player_sync.cpp:484-497 | The same fractions for one player |
| Interpolation.FallbackEnds | client/src/sync/player_sync.cpp:311-320 | An animation change drives the fallback for the updates up to the third after it |
| Interpolation.ActionsFollowProgress | client/src/sync/player_sync.cpp:530-543 | Of a slot, which nothing in the client resolves: vaults, rolls and slides stay on the segment to the traversal's target, reach it at progress 1 and stand still at 0 |
| Interpolation.AirborneRunsAhead | client/src/sync/player_sync.cpp:563-574 | Of a slot, which nothing in the client resolves: in jumps and falls a late frame is at the target iff the velocity is zero |
| Interpolation.AirborneLead | client/src/sync/player_sync.cpp:563-574 | Of a slot, which nothing in the client resolves: in the air the velocity times the seconds since the update is added to the way on the ground |
| Interpolation.OtherModes | client/src/sync/player_sync.cpp:544-562 | Of a slot, which nothing in the client resolves: climbing, ledges and landings snap to the target, wall runs go three times as far |
| Interpolation.RespawnTeleportsOnce | client/src/sync/player_sync.cpp:675-687 | Of a slot, which nothing in the client resolves: a respawn puts the player and its target at the respawn position, once |
| ClientSession.Session.OnPacket | client/src/session.cpp:100-248 | The session and its objects end up agreeing with what the replay function makes of the packet |
| ClientSession.Session.Tick | client/src/session.cpp:250-262 | A frame runs the countdown and draws everyone, and leaves the session in agreement with the replay |
| ClientSession.Receive | client/src/session.cpp:100-258 | A new session fed any packets and frames agrees with the replay of the packets |
| ClientSession.Session.InputAllowed | client/src/sync/puzzle_sync.cpp:148-160 | The gate as the input hook asks it |
| ClientSession.PlayerSync.ApplyStateUpdate | client/src/sync/player_sync.cpp:282-330 | The loop over the entries overwrites or creates every player but the local one |
| ClientSession.PlayerSync.ApplyRemoteState | client/src/sync/player_sync.cpp:459-504 | One frame moves every remote player by its own rule |
| ClientSession.PuzzleSync.OnPuzzleStart | client/src/sync/puzzle_sync.cpp:110-120 | The puzzle is shown, without a controller yet |
| ClientSession.PuzzleSync.OnPuzzleToken | client/src/sync/puzzle_sync.cpp:122-133 | The puzzle, its controller and queue are shown, the countdown never negative |
| ClientSession.PuzzleSync.OnPuzzleEnd | client/src/sync/puzzle_sync.cpp:135-146 | The shown puzzle is cleared, another one's end is ignored |
| ClientSession.PuzzleSync.Tick | client/src/sync/puzzle_sync.cpp:94-108 | The countdown runs down by whole milliseconds and stops at zero, nothing else changes |
| StateObjects.ServerState.AddPlayer | server/src/state.ts:249-251 | The live entry is set, no snapshot is |
| StateObjects.ServerState.RemovePlayer | server/src/state.ts:253-256 | Entry and snapshot are gone |
| StateObjects.ServerState.UpdatePlayer | server/src/state.ts:267-316 | The patch is merged into one live record; no snapshot object is mutated |
| StateObjects.ServerState.SetCutscene | server/src/state.ts:318-321 | One live flag changes, no snapshot does |
| StateObjects.ServerState.SetHost | server/src/state.ts:323-327 | The loop flags exactly the host |
| StateObjects.ServerState.Tick | server/src/state.ts:339-351 | The loop returns the changed entries in order, and clones of exactly those become the snapshots |
| Sockets.Connections.Broadcast | server/src/room.ts:196-200 | Every member with an open socket gets the packet once |
| Sockets.Connections.BroadcastExcept | server/src/room.ts:202-207 | Every member but one does |
| Sockets.Wire.SafeSend | server/src/room.ts:214-222 | A packet is sent only while the socket is open |
| PuzzleObjects.PuzzleManager.StartPuzzle | server/src/puzzle.ts:24-50 | Sessions, timers and channels are those of the model's start |
| PuzzleObjects.PuzzleManager.NextController | server/src/puzzle.ts:52-66 | The head goes to the back, the token to the new head, or the puzzle ends |
| PuzzleObjects.PuzzleManager.EndPuzzle | server/src/puzzle.ts:68-74 | Timer, entry and clients' view of the puzzle are gone |
| PuzzleObjects.PuzzleManager.OnPlayerDisconnect | server/src/puzzle.ts:76-98 | The loop over all sessions is the model's departure |
| PuzzleObjects.PuzzleManager.HandlePuzzlePass | server/src/puzzle.ts:100-106 | Only the current controller moves the token |
| PuzzleObjects.PuzzleManager.GrantToken | server/src/puzzle.ts:109-115 | The old timer is cleared, everyone told, a new timer armed |
| PuzzleObjects.PuzzleManager.BroadcastToken | server/src/puzzle.ts:117-127 | Everyone is told controller, queue and remaining time |
| PuzzleObjects.PuzzleManager.ClearTimer | server/src/puzzle.ts:129-134 | The session's timer is no longer pending, and forgotten |
| PuzzleObjects.PuzzleManager.OnTimer | server/src/puzzle.ts:112-114 | A timer going off moves the token of its puzzle |
| RoomObjects.Room.constructor | server/src/room.ts:57-76 | A new room is empty, ticking, and capped at 8 |
| RoomObjects.Room.AddPlayer | server/src/room.ts:119-133 | Both Maps take the member, everyone else is told |
| RoomObjects.Room.RemovePlayer | server/src/room.ts:139-158 | Room, channels and answer are those of the model's departure, succession and stop included |
| RoomObjects.Room.ReassignHost | server/src/room.ts:161-171 | The first connection becomes host, in the room, in the flags and at every client |
| RoomObjects.Room.SetCutscene | server/src/room.ts:183-194 | A known member's flag changes and the others are told |
| RoomObjects.Room.BroadcastDiff | server/src/room.ts:224-228 | A nonempty diff goes to everyone, an empty one to nobody |
| RoomObjects.Room.OnInterval | server/src/state.ts:339-351 | A tick and what it broadcasts are those of the model |
| ManagerObjects.RoomManager.CreateRoom | server/src/manager.ts:16-35 | A new room of new objects is listed last, and no object of another room is touched |
| ManagerObjects.RoomManager.GetRoomForPlayer | server/src/manager.ts:41-44 | The room a player is bound to, if it is listed |
| ManagerObjects.RoomManager.BindPlayer | server/src/manager.ts:46-49 | The player is in the index and in the room object, which has told its members; all other rooms are as they were |
| ManagerObjects.RoomManager.RemovePlayer | server/src/manager.ts:52-63 | The player is out of the index and the room object, an empty room is destroyed, all others are as they were |
| ManagerObjects.RoomManager.KickPlayer | server/src/manager.ts:66-79 | A bound player's socket is closed and it is removed, an unbound one is left alone |
| ManagerObjects.RoomManager.OnInterval | server/src/state.ts:329-351 | A room's interval ticks its objects and broadcasts, and no other room notices |
| ManagerObjects.RoomManager.OnTokenTimer | server/src/puzzle.ts:109-115 | A room's token timer moves its token, and no other room notices |
| ManagerObjects.RoomManager.TotalPlayers | server/src/manager.ts:85-87 | The size of the index is the sum of the sizes of the listed room objects |
| HandlerObjects.OnHandshake | server/src/index.ts:150-174 | One handshake for each session, with the right protocol |
| HandlerObjects.OnJoinRequest | server/src/index.ts:176-247 | The guards in order, then room, binding, acknowledgement and server info, on the room objects and the session |
| HandlerObjects.OnStateUpdate | server/src/index.ts:249-290 | The loop merges the sender's own entries into its record, in order, and skips all others |
| HandlerObjects.OnCutscene | server/src/index.ts:372-382 | A member's record in its room object gets the flag and its room is told, an outsider changes nothing |
| HandlerObjects.OnPuzzleStart | server/src/index.ts:384-392 | A member starts a named puzzle with everyone in its room object, and no other room notices |
| HandlerObjects.OnPuzzlePass | server/src/index.ts:394-406 | A member passes the token of a named puzzle in its room object, as `Turns.PassTakesEffect` says of the state, and no other room notices |
| HandlerObjects.OnClose | server/src/index.ts:76-81 | A closed session's player leaves its room object, as `Departures.Departure` says of the state |
| HandlerObjects.Kick | server/src/admin.ts:94-110 | The whole room is told of the kick before the player's socket is closed and it is removed, as `Departures.Departure` says of the state |
| WsClient.SendFrame | client/src/net/client.cpp:191-224 | For every payload and mask, the octets are the grammar's masked text frame: 0x81, the length in its shortest form in network order, the key, and each payload bit flipped where the key's bit is set; a key of zeros leaves the payload as it is |
| WsClient.SentIsParsed | client/src/net/client.cpp:191-301 | What is sent is read back as that payload, whatever follows it, and no proper prefix is |
| WsClient.SentIsMinimal | client/src/net/client.cpp:196-209 | Any other length form that fits would be longer |
| WsClient.NextFrame | client/src/net/client.cpp:264-301 | The loop body reads exactly the frame at the front of the buffer: opcode, declared length, and each payload bit flipped where the key's bit is set |
| WsClient.ReceiveFrames | client/src/net/client.cpp:238-319 | The receive loop over any chunks gives the events of one pass over the whole stream |
| Streams.ParseBuffered | client/src/net/client.cpp:262-316 | The inner loop is one pass over the buffer |
| Streams.ReceiveLoop | client/src/net/client.cpp:238-319 | The outer loop feeds the chunks one after the other |
| Streams.ChunksDoNotMatter | client/src/net/client.cpp:245-317 | With a parser whose answers are final, only the concatenation of the chunks matters |
| Frames.ChunkIndependence | client/src/net/client.cpp:245-317 | Any split of a stream gives the same events up to the first close frame, and `rx` is the unconsumed suffix |
| Frames.ParseSerialize | client/src/net/client.cpp:264-301 | Every frame of the grammar, in any length form, masked or not, is parsed back whatever follows it |
| Frames.ParsedIsWire | client/src/net/client.cpp:264-301 | Whatever is parsed as a frame is the serialization of a frame of the grammar |
| Frames.PrefixWaits | client/src/net/client.cpp:264-292 | On a proper prefix of a frame the parser waits |
| Frames.ParseStable | client/src/net/client.cpp:264-301 | Octets that arrive later do not change an answer |
| Frames.BadIffTopBit | client/src/net/client.cpp:276-295 | The parser fails exactly on an 8-octet length with its top bit set, once it stops waiting |
| Frames.ParsedOctets | client/src/net/client.cpp:264-300 | What is parsed is there octet by octet: opcode in the low four bits, length in network order, payload bit by bit under the key |
| Frames.OneMoreFrame | client/src/net/client.cpp:303-316 | One more frame delivers its payload iff its opcode is 0, 1 or 2, is answered iff it is 9, closes iff it is 8, and is ignored otherwise or after a close |
| Frames.BadLengthFails | client/src/net/client.cpp:293-295 | A stream that starts with an impossible length fails and delivers nothing |
| Frames.MaskZero | client/src/net/client.cpp:296-300 | A key of zeros leaves a payload as it is |
| Bytes.XorAt | client/src/net/client.cpp:218-221 | Bit i of the exclusive or of two octets is set iff exactly one of theirs is |
| Frames.MaskTwice | client/src/net/client.cpp:296-300 | Masking twice with one key gives the payload back |
| Frames.StreamRoundTrip | client/src/net/client.cpp:262-316 | Frames sent one after the other and received in any chunks come out as their events, in order |
| Base64.EncodeStreaming | client/src/net/client.cpp:21-37 | The streaming encoder computes the 24-bit-group definition for every input, its accumulator wrapping at 32 bits |
| Base64.EncodedAt | client/src/net/client.cpp:21-37 | Every symbol of the encoding stands for the six bits at its place, from the left, or is padding from where the data has ended |
| Base64.Alphabet | client/src/net/client.cpp:22-23 | Capital letters, small letters, digits, plus, slash, and the equals sign as padding |
| Base64.AccumulatorLowBits | client/src/net/client.cpp:27-29 | After any overflow the two low octets of the accumulator, the only ones read, are exact |
| Base64.DecodeEncode | client/src/net/client.cpp:21-37 | A strict decoder recovers every input |
| Base64.EncodeDecode | client/src/net/client.cpp:21-37 | Whatever the strict decoder accepts is the encoding of what it returns |
| Base64.GroupIsBase64 | client/src/net/client.cpp:28-33 | The four digits of a group are its 24 bits in base 64 |

## Left out

- Sockets.Wire: the sockets of the server are one object that holds what each was given and which are open.
- RoomObjects.Room: timers and the interval are values that a callback consumes, since there is no event loop in the model.
- Runs.IndexesAgree: fresh player ids and invite codes are assumed, since the code draws them at random and does not look.
- Waiting.BoundedWaiting: a timer may be late by `slack`, which the source leaves to the event loop.
- EndToEnd.EndToEndBound: the receiver must have been told of the player by a tick since it joined; `EndToEnd.LateJoinerKeepsOldPosition` shows why.
- Tokens.TokenExclusion: one puzzle live, and members in its queue; for several `Tokens.AtMostOneActs` and `Tokens.MayActIff` say what holds instead.
- EndToEnd.GameplayAtReceiver: the same receivers; `EndToEnd.KeptBack` shows the fields that may be of an earlier moment.
- Interpolation.ConvergesWithoutOvershoot: with a slot, not in vaults, rolls, slides, jumps and falls, and not at a respawn; no player has one, and `Screens.ConvergesOnScreen` has no such condition.
- HandlerObjects.OnJoinRequest: asks that members are marked as joined, which `HandlerObjects.InvJoins` derives from the server's invariant.
- Server.Step: a ping is an update and a pong, which are two steps here; a handshake with the wrong protocol and packets before the handshake change nothing but the socket.
- Enemy snapshots, remote calls, loot and chat: relayed without changing what the mirrors hold.
- Player names, session names, friendly fire and the error texts of denials: carried along, never decided on.
- Sockets, threads, the HTTP upgrade, reconnecting and leaving a session: a connection is modelled from its start to its loss.
- JSON text: packets are datatypes with well-typed fields.
- Fragmented messages, pong frames and other opcodes: the client does not reassemble or answer them as RFC 6455 asks, and the model follows it.
- The client's `status_`: a KICK or a denial sets it to Failed, which stops its frames; statements about frames are about those that are drawn.
- Game memory: what the scanner reads is an argument, and what is written to the other game is left out but for positions.
- The rest of the admin API, the logger, the hooks, the inventory, the signature scanner and the user interface.
