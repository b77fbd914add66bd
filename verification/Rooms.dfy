/**
 One room, server/src/room.ts as functions: each operation gives the new room and the packets it sends,
 in order, with the members they go to.
 */
module Rooms {
  import opened Wrappers
  import opened Keys
  import opened Protocol
  import opened Delta
  import opened Puzzles
  import opened Mirror
  import opened PuzzleTracking

  const MAX_PLAYERS_HARD: nat := 8

  /** `conns` is the insertion order of `connections`, and of `players` in the room's state. */
  datatype Room = Room(
    hostId: PlayerId, password: string, maxPlayers: nat, conns: seq<PlayerId>, ticking: bool,
    players: map<PlayerId, PlayerState>, last: map<PlayerId, PlayerState>, puzzles: PuzzleState)

  datatype Effect = Effect(room: Room, to: set<PlayerId>, msgs: seq<Msg>)

  // ---- the operations ------------------------------------------------------------------------------

  function NewRoom(hostId: PlayerId, password: string, maxPlayers: nat): Room {
    var cap := if maxPlayers < MAX_PLAYERS_HARD then maxPlayers else MAX_PLAYERS_HARD;
    Room(hostId, password, cap, [], true, map[], map[], NO_PUZZLES)
  }

  /** A room without a password lets everyone in. */
  predicate CheckPassword(r: Room, candidate: Option<string>) {
    r.password == "" || candidate == Some(r.password)
  }

  predicate IsFull(r: Room) {
    |r.conns| >= r.maxPlayers
  }

  function AddPlayer(r: Room, id: PlayerId): Effect {
    var ps := CreatePlayerState(id).(isHost := id == r.hostId);
    Effect(r.(conns := if id in r.conns then r.conns else r.conns + [id], players := r.players[id := ps]),
           Elements(r.conns) - {id}, [PlayerJoin(ps)])
  }

  function SetHost(players: map<PlayerId, PlayerState>, host: PlayerId): map<PlayerId, PlayerState> {
    map id | id in players :: players[id].(isHost := players[id].id == host)
  }

  /** A departure, the puzzles having reacted as `dropped` says. */
  function Leave(r: Room, id: PlayerId, dropped: Out): Effect {
    var conns := Without(r.conns, id);
    var rest := r.(conns := conns, players := r.players - {id}, last := r.last - {id}, puzzles := dropped.z);
    var msgs := dropped.msgs + [PlayerLeave(id)];
    if |conns| == 0 then Effect(rest.(ticking := false), {}, msgs)
    else if id == r.hostId then
      Effect(rest.(hostId := conns[0], players := SetHost(rest.players, conns[0])), Elements(conns),
             msgs + [HostReassign(conns[0])])
    else Effect(rest, Elements(conns), msgs)
  }

  function RemovePlayer(r: Room, id: PlayerId, now: int): Effect {
    if id in r.conns then Leave(r, id, Disconnect(r.puzzles, id, now)) else Effect(r, {}, [])
  }

  function SetCutscene(r: Room, id: PlayerId, active: bool): Effect {
    if id !in r.conns || id !in r.players then Effect(r, {}, [])
    else
      Effect(r.(players := r.players[id := r.players[id].(inCutscene := active)]),
             Elements(r.conns) - {id}, [if active then CutsceneStart(id) else CutsceneEnd(id)])
  }

  function UpdatePlayer(r: Room, id: PlayerId, patch: Patch): Room {
    if id in r.players then r.(players := r.players[id := Merge(r.players[id], patch)]) else r
  }

  /** A tick that finds these players changed, and takes these snapshots. */
  function Broadcast(r: Room, changed: seq<PlayerState>, last: map<PlayerId, PlayerState>): Effect {
    Effect(r.(last := last), Elements(r.conns), if |changed| > 0 then [StateUpdate(changed)] else [])
  }

  function Tick(r: Room): Effect {
    Broadcast(r, Changed(r.conns, r.players, r.last), Snapshots(r.players, r.last))
  }

  function OnPuzzles'(r: Room, o: Out): Effect {
    Effect(r.(puzzles := o.z), Elements(r.conns), o.msgs)
  }

  /** The default duration of a token, in milliseconds. */
  const TOKEN_DURATION: nat := 30000

  function StartPuzzle(r: Room, puzzleId: PuzzleId, now: int): Effect {
    OnPuzzles'(r, Start(r.puzzles, puzzleId, r.conns, TOKEN_DURATION, now))
  }

  function PassPuzzle(r: Room, puzzleId: PuzzleId, id: PlayerId, now: int): Effect {
    OnPuzzles'(r, Pass(r.puzzles, puzzleId, id, now))
  }

  function FireTimer(r: Room, handle: nat, now: int): Effect
    requires handle in r.puzzles.timers.armed
  {
    OnPuzzles'(r, Fire(r.puzzles, handle, now))
  }

  /** The players of a room as the join acknowledgement lists them. */
  function Listed(order: seq<PlayerId>, players: map<PlayerId, PlayerState>): (r: seq<PlayerState>) {
    if |order| == 0 then []
    else (if order[0] in players then [players[order[0]]] else []) + Listed(order[1..], players)
  }

  /** What a joiner gets, after what the connection carried before: the acknowledgement and the server info. */
  function Welcome(r: Room, id: PlayerId): seq<Msg> {
    [JoinAck(r.hostId == id, Listed(r.conns, r.players)), Other]
  }

  // ---- invariants of a room -------------------------------------------------------------------------

  ghost predicate PuzzlesOk(r: Room) {
    && OrderOk(r.puzzles) && TimersOk(r.puzzles) && Named(r.puzzles)
    && QueuesOk(r.puzzles, Elements(r.conns))
  }

  /** Connections and player states have the same keys, each state under its own id. */
  ghost predicate KeysOk(r: Room) {
    && Distinct(r.conns) && NOBODY !in r.conns
    && (forall id :: id in r.conns <==> id in r.players)
    && WellKeyed(r.players)
    && (forall id :: id in r.last ==> id in r.players)
  }

  /** The host is the longest-present member, and the only one flagged as host. */
  ghost predicate HostOk(r: Room) {
    && (|r.conns| > 0 ==> r.hostId == r.conns[0])
    && (forall id :: id in r.players ==> (r.players[id].isHost <==> id == r.hostId))
  }

  ghost predicate RoomOk(r: Room) {
    KeysOk(r) && HostOk(r) && |r.conns| <= r.maxPlayers <= MAX_PLAYERS_HARD && r.ticking && PuzzlesOk(r)
  }

  /** Nothing is left running when the last member has gone. */
  ghost predicate Dead(r: Room) {
    && r.conns == [] && r.players == map[] && r.last == map[] && !r.ticking
    && r.puzzles.sessions == map[] && r.puzzles.timers.armed == map[]
  }

  lemma NewRoomOk(hostId: PlayerId, password: string, maxPlayers: nat)
    ensures RoomOk(NewRoom(hostId, password, maxPlayers))
  {}

  lemma AddPlayerOk(r: Room, id: PlayerId)
    requires RoomOk(r) && id !in r.conns && id != NOBODY && !IsFull(r)
    requires |r.conns| == 0 ==> id == r.hostId
    ensures RoomOk(AddPlayer(r, id).room)
  {
    var s := AddPlayer(r, id).room;
    forall p | p in s.puzzles.sessions ensures QueueOk(s.puzzles.sessions[p], Elements(s.conns)) {
      assert QueueOk(r.puzzles.sessions[p], Elements(r.conns));
    }
  }

  lemma RemovePlayerPuzzles(r: Room, id: PlayerId, now: int)
    requires RoomOk(r) && id in r.conns
    ensures var z := Disconnect(r.puzzles, id, now).z;
            && OrderOk(z) && TimersOk(z) && Named(z)
            && QueuesOk(z, Elements(Without(r.conns, id)))
  {
    WithoutKeys(r.conns, id);
    DisconnectOk(r.puzzles, id, now, Elements(r.conns));
    DropAllKeepsMirror(r.puzzles, r.puzzles.order, id, now, NO_PUZZLE_MIRROR);
    assert Elements(r.conns) - {id} == Elements(Without(r.conns, id));
  }

  lemma LastOneLeaves(r: Room, id: PlayerId, now: int)
    requires RoomOk(r) && id in r.conns && |Without(r.conns, id)| == 0
    ensures Dead(RemovePlayer(r, id, now).room)
  {
    WithoutKeys(r.conns, id);
    RemovePlayerPuzzles(r, id, now);
    NobodyLeft(Disconnect(r.puzzles, id, now).z, Elements(Without(r.conns, id)));
    assert (r.players - {id}).Keys == {};
    assert (r.last - {id}).Keys == {};
  }

  /** A departure keeps the room in order, or leaves nothing of it running. */
  lemma RemovePlayerOk(r: Room, id: PlayerId, now: int)
    requires RoomOk(r) && id in r.conns
    ensures var s := RemovePlayer(r, id, now).room; if |s.conns| == 0 then Dead(s) else RoomOk(s)
  {
    WithoutKeys(r.conns, id);
    var s, z := RemovePlayer(r, id, now).room, Disconnect(r.puzzles, id, now).z;
    assert s.conns == Without(r.conns, id) && s.puzzles == z;
    if |s.conns| == 0 {
      LastOneLeaves(r, id, now);
    } else {
      RemovePlayerPuzzles(r, id, now);
    }
  }

  lemma SetCutsceneOk(r: Room, id: PlayerId, active: bool)
    requires RoomOk(r)
    ensures RoomOk(SetCutscene(r, id, active).room)
  {}

  lemma UpdatePlayerOk(r: Room, id: PlayerId, patch: Patch)
    requires RoomOk(r)
    ensures RoomOk(UpdatePlayer(r, id, patch))
  {}

  lemma TickOk(r: Room)
    requires RoomOk(r)
    ensures RoomOk(Tick(r).room)
  {}

  lemma StartPuzzleOk(r: Room, puzzleId: PuzzleId, now: int)
    requires RoomOk(r) && |r.conns| > 0 && puzzleId != NO_PUZZLE
    ensures RoomOk(StartPuzzle(r, puzzleId, now).room)
  {
    StartTimers(r.puzzles, puzzleId, r.conns, TOKEN_DURATION, now);
    StartQueues(r.puzzles, puzzleId, r.conns, TOKEN_DURATION, now, Elements(r.conns));
  }

  lemma PassPuzzleOk(r: Room, puzzleId: PuzzleId, id: PlayerId, now: int)
    requires RoomOk(r)
    ensures RoomOk(PassPuzzle(r, puzzleId, id, now).room)
  {
    PassTimers(r.puzzles, puzzleId, id, now);
    NextQueues(r.puzzles, puzzleId, now, Elements(r.conns));
  }

  lemma FireTimerOk(r: Room, handle: nat, now: int)
    requires RoomOk(r) && handle in r.puzzles.timers.armed
    ensures RoomOk(FireTimer(r, handle, now).room)
  {
    FireTimers(r.puzzles, handle, now);
    var z := r.puzzles.(timers := r.puzzles.timers.(armed := r.puzzles.timers.armed - {handle}));
    NextQueues(z, r.puzzles.timers.armed[handle].puzzleId, now, Elements(r.conns));
  }
}
