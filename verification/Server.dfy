/**
 The whole server as a state machine: the rooms, the index of players, every connection, the clock. A step is
 one handler of server/src/index.ts, one callback of a timer, a socket that goes down, or time passing.
 */
module Server {
  import opened Wrappers
  import opened Keys
  import opened Protocol
  import opened Puzzles
  import opened Rooms
  import opened ClientView
  import opened Channels

  /** Invite codes, compared in upper case; 0 stands for the empty string. */
  type Code = nat

  const NO_CODE: Code := 0

  /**
   `order` is the insertion order of `rooms`; `net.logs` has an entry for every session that has shaken hands,
   `inRoom` holds those whose flag of that name is set; `retired` keeps the rooms that were destroyed.
   */
  datatype State = State(
    now: int, maxPlayers: nat, order: seq<Code>, rooms: map<Code, Room>, playerRoom: map<PlayerId, Code>,
    net: Net, inRoom: set<PlayerId>, retired: seq<Room>)

  datatype Request = Create(newCode: Code, newPassword: string) | ByCode(inviteCode: Code, password: Option<string>)

  /** An entry of a client's own state update; the server looks at those under the sender's id only. */
  datatype Entry = Entry(id: PlayerId, patch: Patch)

  datatype Event =
    | Handshake(newId: PlayerId)
    | JoinRequest(id: PlayerId, request: Request)
    | Close(id: PlayerId)
    | Kick(id: PlayerId)
    | SocketDown(id: PlayerId)
    | Update(id: PlayerId, entries: seq<Entry>)
    | Cutscene(id: PlayerId, active: bool)
    | StartsPuzzle(id: PlayerId, puzzleId: PuzzleId)
    | PassesPuzzle(id: PlayerId, puzzleId: PuzzleId)
    | TimerFires(code: Code, handle: nat)
    | Ticks(code: Code)
    | Chatter(to: set<PlayerId>)
    | Advance(ms: nat)

  // ---- the handlers --------------------------------------------------------------------------------------

  function Boot(maxPlayers: nat): State {
    State(0, maxPlayers, [], map[], map[], Net(map[], {}), {}, [])
  }

  /** `getRoomForPlayer` finds something. */
  predicate HasRoom(s: State, id: PlayerId) {
    id in s.playerRoom && s.playerRoom[id] != NO_CODE && s.playerRoom[id] in s.rooms
  }

  /** A room does something. */
  function Put(s: State, code: Code, e: Effect): State {
    s.(rooms := s.rooms[code := e.room], net := Post(s.net, e))
  }

  function OnHandshake(s: State, id: PlayerId): State {
    s.(net := Net(s.net.logs[id := [HandshakeAck(id)]], s.net.open + {id}))
  }

  function Deny(s: State, id: PlayerId): State {
    s.(net := Send(s.net, {id}, [Other]))
  }

  /** `bindPlayer`, and what the handler sends after it. */
  function Bind(s: State, code: Code, id: PlayerId): State
    requires code in s.rooms
  {
    var e := AddPlayer(s.rooms[code], id);
    s.(rooms := s.rooms[code := e.room], playerRoom := s.playerRoom[id := code],
       net := Greet(Post(s.net, e), s.rooms[code], id), inRoom := s.inRoom + {id})
  }

  function CreateRoom(s: State, code: Code, hostId: PlayerId, password: string): State {
    s.(rooms := s.rooms[code := NewRoom(hostId, password, s.maxPlayers)], order := s.order + [code])
  }

  function OnJoinRequest(s: State, id: PlayerId, request: Request): State {
    if id in s.inRoom then Deny(s, id)
    else
      match request
      case Create(code, password) => Bind(CreateRoom(s, code, id, password), code, id)
      case ByCode(code, password) =>
        if code == NO_CODE || code !in s.rooms || IsFull(s.rooms[code]) || !CheckPassword(s.rooms[code], password)
        then Deny(s, id)
        else Bind(s, code, id)
  }

  /** A member of the room has left, with this effect; a room that is empty is destroyed. */
  function Left(s: State, code: Code, id: PlayerId, e: Effect): State {
    var left := Put(s.(playerRoom := s.playerRoom - {id}), code, e);
    if |e.room.conns| > 0 then left
    else left.(rooms := s.rooms - {code}, order := Without(s.order, code), retired := s.retired + [e.room])
  }

  /** `RoomManager.removePlayer`. */
  function RemoveMember(s: State, id: PlayerId): State {
    if id !in s.playerRoom || s.playerRoom[id] == NO_CODE then s
    else
      var code := s.playerRoom[id];
      if code !in s.rooms then s.(playerRoom := s.playerRoom - {id})
      else Left(s, code, id, RemovePlayer(s.rooms[code], id, s.now))
  }

  /** The admin route tells the whole room of a kick, the kicked player included, before it is removed. */
  function Announce(s: State, id: PlayerId): State
    requires HasRoom(s, id)
  {
    s.(net := Send(s.net, Elements(s.rooms[s.playerRoom[id]].conns), [Other]))
  }

  function Hangup(s: State, id: PlayerId): State {
    s.(net := s.net.(open := s.net.open - {id}))
  }

  /** An entry counts if it is under the sender's own id. */
  function UpdateOwn(r: Room, id: PlayerId, entry: Entry): Room {
    if entry.id == id then UpdatePlayer(r, id, entry.patch) else r
  }

  /** The entries, merged one after the other. */
  function UpdateAll(r: Room, id: PlayerId, entries: seq<Entry>): Room
    decreases |entries|
  {
    if |entries| == 0 then r
    else UpdateAll(UpdateOwn(r, id, entries[0]), id, entries[1..])
  }

  function OnStateUpdate(s: State, id: PlayerId, entries: seq<Entry>): State {
    if !HasRoom(s, id) then s
    else s.(rooms := s.rooms[s.playerRoom[id] := UpdateAll(s.rooms[s.playerRoom[id]], id, entries)])
  }

  function OnCutscene(s: State, id: PlayerId, active: bool): State {
    if !HasRoom(s, id) then s else Put(s, s.playerRoom[id], SetCutscene(s.rooms[s.playerRoom[id]], id, active))
  }

  function OnPuzzleStart(s: State, id: PlayerId, puzzleId: PuzzleId): State {
    if !HasRoom(s, id) || puzzleId == NO_PUZZLE then s
    else Put(s, s.playerRoom[id], StartPuzzle(s.rooms[s.playerRoom[id]], puzzleId, s.now))
  }

  function OnPuzzlePass(s: State, id: PlayerId, puzzleId: PuzzleId): State {
    if !HasRoom(s, id) || puzzleId == NO_PUZZLE then s
    else Put(s, s.playerRoom[id], PassPuzzle(s.rooms[s.playerRoom[id]], puzzleId, id, s.now))
  }

  /** The socket closed, and the manager removes the player. */
  function OnClose(s: State, id: PlayerId): State {
    RemoveMember(Hangup(s, id), id)
  }

  /** The admin route. */
  function OnKick(s: State, id: PlayerId): State {
    if HasRoom(s, id) then RemoveMember(Hangup(Announce(s, id), id), id) else s
  }

  /** `Update` stands for state updates, animation updates and pings; the pong is `Chatter`. */
  function Step(s: State, ev: Event): State {
    match ev
    case Handshake(id) => OnHandshake(s, id)
    case JoinRequest(id, request) => if id in s.net.logs then OnJoinRequest(s, id, request) else s
    case Close(id) => OnClose(s, id)
    case Kick(id) => OnKick(s, id)
    case SocketDown(id) => Hangup(s, id)
    case Update(id, entries) => OnStateUpdate(s, id, entries)
    case Cutscene(id, active) => OnCutscene(s, id, active)
    case StartsPuzzle(id, puzzleId) => OnPuzzleStart(s, id, puzzleId)
    case PassesPuzzle(id, puzzleId) => OnPuzzlePass(s, id, puzzleId)
    case TimerFires(code, handle) =>
      if code in s.rooms && handle in s.rooms[code].puzzles.timers.armed then
        Put(s, code, FireTimer(s.rooms[code], handle, s.now))
      else s
    case Ticks(code) => if code in s.rooms then Put(s, code, Tick(s.rooms[code])) else s
    case Chatter(to) => s.(net := Send(s.net, to, [Other]))
    case Advance(ms) => s.(now := s.now + ms)
  }

  /** Every pending timer goes off at most `slack` after it is due. */
  ghost predicate TimeMay(s: State, now: int, slack: nat) {
    forall code :: code in s.rooms ==> TimersWait(s.rooms[code].puzzles, now, slack)
  }

  /** What the environment may do: ids and codes are fresh, no timer goes off early or more than `slack` late. */
  ghost predicate Enabled(s: State, ev: Event, slack: nat) {
    match ev
    case Handshake(id) => id !in s.net.logs && id != NOBODY
    case JoinRequest(_, Create(code, _)) => code !in s.rooms && code != NO_CODE
    case TimerFires(code, handle) =>
      code in s.rooms && handle in s.rooms[code].puzzles.timers.armed
          && s.rooms[code].puzzles.timers.armed[handle].deadline <= s.now
    case Ticks(code) => code in s.rooms && s.rooms[code].ticking
    case Advance(ms) => TimeMay(s, s.now + ms, slack)
    case _ => true
  }

  // ---- the invariant -------------------------------------------------------------------------------------

  /** The two indexes agree: a player is bound to a code exactly when it is a connection of that room. */
  ghost predicate IndexOk(rooms: map<Code, Room>, playerRoom: map<PlayerId, Code>) {
    && (forall p :: p in playerRoom ==> playerRoom[p] in rooms && p in rooms[playerRoom[p]].conns)
    && (forall code, p :: code in rooms && p in rooms[code].conns ==> p in playerRoom && playerRoom[p] == code)
  }

  /** No room is empty, no room is out of order. */
  ghost predicate RoomsOk(rooms: map<Code, Room>) {
    NO_CODE !in rooms && forall code :: code in rooms ==> RoomOk(rooms[code]) && |rooms[code].conns| > 0
  }

  ghost predicate ChannelsOk(rooms: map<Code, Room>, net: Net, seen: set<PlayerId>) {
    forall code :: code in rooms ==> NetOk(rooms[code], net, seen)
  }

  ghost predicate ClocksOk(rooms: map<Code, Room>, now: int, slack: nat) {
    forall code :: code in rooms ==> Clocked(rooms[code].puzzles, now, slack)
  }

  /** Who has not been in a room yet has got its id and nothing else that matters. */
  ghost predicate LobbyOk(net: Net, inRoom: set<PlayerId>) {
    && NOBODY !in net.logs
    && inRoom <= net.logs.Keys
    && forall p :: p in net.logs && p !in inRoom ==> LobbyLog(net.logs[p], p)
  }

  ghost predicate CodesOk(order: seq<Code>, rooms: map<Code, Room>) {
    Distinct(order) && forall code :: code in order <==> code in rooms
  }

  ghost predicate RetiredOk(retired: seq<Room>) {
    forall i :: 0 <= i < |retired| ==> Dead(retired[i])
  }

  ghost predicate Inv(s: State, slack: nat) {
    && 1 <= s.maxPlayers <= MAX_PLAYERS_HARD
    && IndexOk(s.rooms, s.playerRoom)
    && RoomsOk(s.rooms)
    && ChannelsOk(s.rooms, s.net, s.inRoom)
    && ClocksOk(s.rooms, s.now, slack)
    && LobbyOk(s.net, s.inRoom)
    && CodesOk(s.order, s.rooms)
    && RetiredOk(s.retired)
  }

  lemma BootOk(maxPlayers: nat, slack: nat)
    requires 1 <= maxPlayers <= MAX_PLAYERS_HARD
    ensures Inv(Boot(maxPlayers), slack)
  {}
}
