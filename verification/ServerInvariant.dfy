/** Every step of the server keeps its invariant. */
module ServerInvariant {
  import opened Wrappers
  import opened Keys
  import opened Protocol
  import opened Puzzles
  import opened Rooms
  import opened Channels
  import opened Server

  // ---- a room does something while its members stay ------------------------------------------------------

  lemma RoomsApart(rooms: map<Code, Room>, playerRoom: map<PlayerId, Code>, a: Code, b: Code, c: PlayerId)
    requires IndexOk(rooms, playerRoom) && a in rooms && b in rooms && a != b && c in rooms[a].conns
    ensures c !in rooms[b].conns
  {
    assert playerRoom[c] == a;
  }

  /** The other rooms hear nothing of it. */
  lemma OthersUntouched(s: State, code: Code, to: set<PlayerId>, msgs: seq<Msg>)
    requires IndexOk(s.rooms, s.playerRoom) && ChannelsOk(s.rooms, s.net, s.inRoom)
    requires code in s.rooms && forall c :: c in to ==> c in s.rooms[code].conns
    ensures forall other :: other in s.rooms && other != code ==> NetOk(s.rooms[other], Send(s.net, to, msgs), s.inRoom)
  {
    forall other | other in s.rooms && other != code ensures NetOk(s.rooms[other], Send(s.net, to, msgs), s.inRoom) {
      forall c | c in s.rooms[other].conns ensures c !in to {
        RoomsApart(s.rooms, s.playerRoom, other, code, c);
      }
      NotOurs(s.rooms[other], s.net, to, msgs, s.inRoom);
    }
  }

  lemma LobbyUntouched(net: Net, inRoom: set<PlayerId>, to: set<PlayerId>, msgs: seq<Msg>)
    requires LobbyOk(net, inRoom)
    requires forall c :: c in to ==> c in inRoom
    ensures LobbyOk(Send(net, to, msgs), inRoom)
  {}

  lemma MembersSeen(s: State, code: Code, slack: nat)
    requires Inv(s, slack) && code in s.rooms
    ensures forall c :: c in s.rooms[code].conns ==> c in s.inRoom && c in s.net.logs && c != NOBODY
  {
    assert NetOk(s.rooms[code], s.net, s.inRoom);
    forall c | c in s.rooms[code].conns ensures c in s.inRoom && c in s.net.logs {
      assert MemberOk(s.rooms[code], s.net, s.inRoom, c);
    }
  }

  lemma RoomsWith(rooms: map<Code, Room>, code: Code, r: Room)
    requires NO_CODE !in rooms && code != NO_CODE && RoomOk(r) && |r.conns| > 0
    requires forall c :: c in rooms && c != code ==> RoomOk(rooms[c]) && |rooms[c].conns| > 0
    ensures RoomsOk(rooms[code := r])
  {}

  lemma ClocksWith(rooms: map<Code, Room>, code: Code, r: Room, now: int, slack: nat)
    requires ClocksOk(rooms, now, slack) && Clocked(r.puzzles, now, slack)
    ensures ClocksOk(rooms[code := r], now, slack)
  {}

  lemma ChannelsWith(rooms: map<Code, Room>, code: Code, r: Room, net: Net, seen: set<PlayerId>)
    requires NetOk(r, net, seen)
    requires forall c :: c in rooms && c != code ==> NetOk(rooms[c], net, seen)
    ensures ChannelsOk(rooms[code := r], net, seen)
  {}

  lemma SameMembersIndex(rooms: map<Code, Room>, playerRoom: map<PlayerId, Code>, code: Code, r: Room)
    requires IndexOk(rooms, playerRoom) && code in rooms && r.conns == rooms[code].conns
    ensures IndexOk(rooms[code := r], playerRoom)
  {}

  /** One room has changed, and whatever else changed fits. */
  lemma InvWith(s: State, rooms: map<Code, Room>, order: seq<Code>, code: Code, r: Room,
                playerRoom: map<PlayerId, Code>, net: Net, inRoom: set<PlayerId>, slack: nat)
    requires 1 <= s.maxPlayers <= MAX_PLAYERS_HARD && RetiredOk(s.retired)
    requires NO_CODE !in rooms && code in rooms && CodesOk(order, rooms) && ClocksOk(rooms, s.now, slack)
    requires RoomOk(r) && |r.conns| > 0 && Clocked(r.puzzles, s.now, slack) && NetOk(r, net, inRoom)
    requires forall c :: c in rooms && c != code ==> RoomOk(rooms[c]) && |rooms[c].conns| > 0
    requires forall c :: c in rooms && c != code ==> NetOk(rooms[c], net, inRoom)
    requires IndexOk(rooms[code := r], playerRoom) && LobbyOk(net, inRoom)
    ensures Inv(s.(rooms := rooms[code := r], order := order, playerRoom := playerRoom, net := net, inRoom := inRoom),
            slack)
  {
    RoomsWith(rooms, code, r);
    ClocksWith(rooms, code, r, s.now, slack);
    ChannelsWith(rooms, code, r, net, inRoom);
    assert CodesOk(order, rooms[code := r]);
  }

  lemma PutOk(s: State, code: Code, e: Effect, slack: nat)
    requires Inv(s, slack) && code in s.rooms && e.room.conns == s.rooms[code].conns
    requires RoomOk(e.room) && Clocked(e.room.puzzles, s.now, slack) && NetOk(e.room, Post(s.net, e), s.inRoom)
    requires forall c :: c in e.to ==> c in s.rooms[code].conns
    ensures Inv(Put(s, code, e), slack)
  {
    MembersSeen(s, code, slack);
    OthersUntouched(s, code, e.to, e.msgs);
    LobbyUntouched(s.net, s.inRoom, e.to, e.msgs);
    SameMembersIndex(s.rooms, s.playerRoom, code, e.room);
    InvWith(s, s.rooms, s.order, code, e.room, s.playerRoom, Post(s.net, e), s.inRoom, slack);
  }

  lemma UpdateSameIds(r: Room, id: PlayerId, patch: Patch, net: Net, seen: set<PlayerId>)
    requires RoomOk(r) && NetOk(r, net, seen)
    ensures var q := UpdatePlayer(r, id, patch);
            RoomOk(q) && NetOk(q, net, seen) && q.conns == r.conns && q.puzzles == r.puzzles
  {
    UpdatePlayerOk(r, id, patch);
    UpdateNet(r, id, patch, net, seen);
  }

  lemma {:induction false} UpdateAllOk(r: Room, id: PlayerId, entries: seq<Entry>, net: Net, seen: set<PlayerId>)
    requires RoomOk(r) && NetOk(r, net, seen)
    ensures var q := UpdateAll(r, id, entries);
            RoomOk(q) && NetOk(q, net, seen) && q.conns == r.conns && q.puzzles == r.puzzles
    decreases |entries|
  {
    if |entries| > 0 {
      UpdateSameIds(r, id, entries[0].patch, net, seen);
      UpdateAllOk(UpdateOwn(r, id, entries[0]), id, entries[1..], net, seen);
    }
  }

  /** Nothing is sent, only the room changes. */
  lemma SilentOk(s: State, code: Code, r: Room, slack: nat)
    requires Inv(s, slack) && code in s.rooms && r.conns == s.rooms[code].conns
    requires RoomOk(r) && Clocked(r.puzzles, s.now, slack) && NetOk(r, s.net, s.inRoom)
    ensures Inv(s.(rooms := s.rooms[code := r]), slack)
  {
    SameMembersIndex(s.rooms, s.playerRoom, code, r);
    InvWith(s, s.rooms, s.order, code, r, s.playerRoom, s.net, s.inRoom, slack);
  }

  lemma UpdateStep(s: State, id: PlayerId, entries: seq<Entry>, slack: nat)
    requires Inv(s, slack)
    ensures Inv(Step(s, Update(id, entries)), slack)
  {
    if HasRoom(s, id) {
      var code := s.playerRoom[id];
      UpdateAllOk(s.rooms[code], id, entries, s.net, s.inRoom);
      SilentOk(s, code, UpdateAll(s.rooms[code], id, entries), slack);
    }
  }

  lemma CutsceneStep(s: State, id: PlayerId, active: bool, slack: nat)
    requires Inv(s, slack)
    ensures Inv(Step(s, Cutscene(id, active)), slack)
  {
    if HasRoom(s, id) {
      var code := s.playerRoom[id];
      var r := s.rooms[code];
      SetCutsceneOk(r, id, active);
      CutsceneNet(r, id, active, s.net, s.inRoom);
      PutOk(s, code, SetCutscene(r, id, active), slack);
    }
  }

  lemma StartStep(s: State, id: PlayerId, puzzleId: PuzzleId, slack: nat)
    requires Inv(s, slack)
    ensures Inv(Step(s, StartsPuzzle(id, puzzleId)), slack)
  {
    if HasRoom(s, id) && puzzleId != NO_PUZZLE {
      var code := s.playerRoom[id];
      var r := s.rooms[code];
      StartPuzzleOk(r, puzzleId, s.now);
      StartPuzzleNet(r, puzzleId, s.now, s.net, s.inRoom);
      StartClocked(r.puzzles, puzzleId, r.conns, TOKEN_DURATION, s.now, slack);
      PutOk(s, code, StartPuzzle(r, puzzleId, s.now), slack);
    }
  }

  lemma PassStep(s: State, id: PlayerId, puzzleId: PuzzleId, slack: nat)
    requires Inv(s, slack)
    ensures Inv(Step(s, PassesPuzzle(id, puzzleId)), slack)
  {
    if HasRoom(s, id) && puzzleId != NO_PUZZLE {
      var code := s.playerRoom[id];
      var r := s.rooms[code];
      PassPuzzleOk(r, puzzleId, id, s.now);
      PassPuzzleNet(r, puzzleId, id, s.now, s.net, s.inRoom);
      PassClocked(r.puzzles, puzzleId, id, s.now, slack);
      PutOk(s, code, PassPuzzle(r, puzzleId, id, s.now), slack);
    }
  }

  lemma FireStep(s: State, code: Code, handle: nat, slack: nat)
    requires Inv(s, slack)
    ensures Inv(Step(s, TimerFires(code, handle)), slack)
  {
    if code in s.rooms && handle in s.rooms[code].puzzles.timers.armed {
      var r := s.rooms[code];
      FireTimerOk(r, handle, s.now);
      FireTimerNet(r, handle, s.now, s.net, s.inRoom);
      FireClocked(r.puzzles, handle, s.now, slack);
      PutOk(s, code, FireTimer(r, handle, s.now), slack);
    }
  }

  lemma TickStep(s: State, code: Code, slack: nat)
    requires Inv(s, slack)
    ensures Inv(Step(s, Ticks(code)), slack)
  {
    if code in s.rooms {
      TickOk(s.rooms[code]);
      TickNet(s.rooms[code], s.net, s.inRoom);
      PutOk(s, code, Tick(s.rooms[code]), slack);
    }
  }

  lemma AdvanceStep(s: State, ms: nat, slack: nat)
    requires Inv(s, slack) && TimeMay(s, s.now + ms, slack)
    ensures Inv(Step(s, Advance(ms)), slack)
  {
    forall code | code in s.rooms ensures Clocked(s.rooms[code].puzzles, s.now + ms, slack) {
      AdvanceClocked(s.rooms[code].puzzles, s.now, s.now + ms, slack);
    }
  }

  // ---- connections that come, go and carry other things ----------------------------------------------------

  lemma NoiseStep(s: State, to: set<PlayerId>, slack: nat)
    requires Inv(s, slack)
    ensures Inv(s.(net := Send(s.net, to, [Other])), slack)
  {
    var net' := Send(s.net, to, [Other]);
    forall code | code in s.rooms ensures NetOk(s.rooms[code], net', s.inRoom) {
      NoiseNet(s.rooms[code], to, s.net, s.inRoom);
    }
    assert LobbyOk(net', s.inRoom);
  }

  lemma HangupStep(s: State, id: PlayerId, slack: nat)
    requires Inv(s, slack)
    ensures Inv(Hangup(s, id), slack)
  {}

  lemma NewSession(r: Room, net: Net, seen: set<PlayerId>, id: PlayerId)
    requires NetOk(r, net, seen) && id !in net.logs
    ensures NetOk(r, Net(net.logs[id := [HandshakeAck(id)]], net.open + {id}), seen)
  {}

  lemma HandshakeStep(s: State, id: PlayerId, slack: nat)
    requires Inv(s, slack) && id !in s.net.logs && id != NOBODY
    ensures Inv(OnHandshake(s, id), slack)
  {
    forall code | code in s.rooms ensures NetOk(s.rooms[code], OnHandshake(s, id).net, s.inRoom) {
      NewSession(s.rooms[code], s.net, s.inRoom, id);
    }
    assert LobbyOk(OnHandshake(s, id).net, s.inRoom);
  }

  // ---- joining ---------------------------------------------------------------------------------------------

  lemma JoinIndex(rooms: map<Code, Room>, playerRoom: map<PlayerId, Code>, code: Code, id: PlayerId)
    requires IndexOk(rooms, playerRoom) && id !in playerRoom && code in rooms
    ensures IndexOk(rooms[code := AddPlayer(rooms[code], id).room], playerRoom[id := code])
  {}

  lemma GreetOther(r: Room, net: Net, seen: set<PlayerId>, joined: Room, id: PlayerId)
    requires NetOk(r, net, seen) && id !in r.conns
    ensures NetOk(r, Greet(net, joined, id), seen)
  {}

  /** Neither the newcomer's greeting nor its membership concerns another room. */
  lemma JoinElsewhere(s: State, code: Code, id: PlayerId, other: Code, e: Effect)
    requires IndexOk(s.rooms, s.playerRoom) && ChannelsOk(s.rooms, s.net, s.inRoom)
    requires code in s.rooms && other in s.rooms && other != code && id !in s.rooms[other].conns
    requires forall c :: c in e.to ==> c in s.rooms[code].conns
    ensures NetOk(s.rooms[other], Greet(Post(s.net, e), s.rooms[code], id), s.inRoom + {id})
  {
    OthersUntouched(s, code, e.to, e.msgs);
    MoreSeen(s.rooms[other], Post(s.net, e), s.inRoom, {id});
    GreetOther(s.rooms[other], Post(s.net, e), s.inRoom + {id}, s.rooms[code], id);
  }

  lemma GreetLobby(net: Net, inRoom: set<PlayerId>, r: Room, id: PlayerId)
    requires LobbyOk(net, inRoom) && id in net.logs
    ensures LobbyOk(Greet(net, r, id), inRoom + {id})
  {}

  /** Joining a room that is there, or was just made and is still empty. */
  lemma BindOk(s: State, code: Code, id: PlayerId, slack: nat)
    requires 1 <= s.maxPlayers <= MAX_PLAYERS_HARD && RetiredOk(s.retired)
    requires IndexOk(s.rooms, s.playerRoom) && ChannelsOk(s.rooms, s.net, s.inRoom) && LobbyOk(s.net, s.inRoom)
    requires CodesOk(s.order, s.rooms) && ClocksOk(s.rooms, s.now, slack) && NO_CODE !in s.rooms
    requires forall c :: c in s.rooms && c != code ==> RoomOk(s.rooms[c]) && |s.rooms[c].conns| > 0
    requires code in s.rooms && RoomOk(s.rooms[code]) && !IsFull(s.rooms[code])
    requires |s.rooms[code].conns| == 0 ==> id == s.rooms[code].hostId
    requires id in s.net.logs && id !in s.inRoom && id !in s.playerRoom
    requires forall c :: c in s.rooms[code].conns ==> c in s.inRoom
    ensures Inv(Bind(s, code, id), slack)
  {
    var t, r := Bind(s, code, id), s.rooms[code];
    var e := AddPlayer(r, id);
    assert id !in r.conns;
    AddPlayerOk(r, id);
    JoinIndex(s.rooms, s.playerRoom, code, id);
    JoinNet(r, id, s.net, s.inRoom);
    forall other | other in s.rooms && other != code ensures NetOk(s.rooms[other], t.net, t.inRoom) {
      JoinElsewhere(s, code, id, other, e);
    }
    LobbyUntouched(s.net, s.inRoom, e.to, e.msgs);
    GreetLobby(Post(s.net, e), s.inRoom, r, id);
    InvWith(s, s.rooms, s.order, code, e.room, t.playerRoom, t.net, t.inRoom, slack);
  }

  lemma OutsiderUnbound(s: State, id: PlayerId, slack: nat)
    requires Inv(s, slack) && id !in s.inRoom
    ensures id !in s.playerRoom
  {}

  lemma JoinExistingOk(s: State, code: Code, id: PlayerId, slack: nat)
    requires Inv(s, slack) && id in s.net.logs && id !in s.inRoom && code in s.rooms && !IsFull(s.rooms[code])
    ensures Inv(Bind(s, code, id), slack)
  {
    OutsiderUnbound(s, id, slack);
    MembersSeen(s, code, slack);
    BindOk(s, code, id, slack);
  }

  lemma EmptyRoomIndex(rooms: map<Code, Room>, playerRoom: map<PlayerId, Code>, code: Code, r: Room)
    requires IndexOk(rooms, playerRoom) && code !in rooms && r.conns == []
    ensures IndexOk(rooms[code := r], playerRoom)
  {}

  lemma CreateAndJoinOk(s: State, code: Code, id: PlayerId, password: string, slack: nat)
    requires Inv(s, slack) && id in s.net.logs && id !in s.inRoom && code !in s.rooms && code != NO_CODE
    ensures Inv(Bind(CreateRoom(s, code, id, password), code, id), slack)
  {
    var r := NewRoom(id, password, s.maxPlayers);
    OutsiderUnbound(s, id, slack);
    NewRoomOk(id, password, s.maxPlayers);
    EmptyRoomIndex(s.rooms, s.playerRoom, code, r);
    ChannelsWith(s.rooms, code, r, s.net, s.inRoom);
    ClocksWith(s.rooms, code, r, s.now, slack);
    assert CodesOk(s.order + [code], s.rooms[code := r]);
    BindOk(CreateRoom(s, code, id, password), code, id, slack);
  }

  lemma JoinStep(s: State, id: PlayerId, request: Request, slack: nat)
    requires Inv(s, slack) && Enabled(s, JoinRequest(id, request), slack)
    ensures Inv(Step(s, JoinRequest(id, request)), slack)
  {
    if id in s.net.logs {
      if OnJoinRequest(s, id, request) == Deny(s, id) {
        NoiseStep(s, {id}, slack);
      } else {
        match request
        case Create(code, password) => CreateAndJoinOk(s, code, id, password, slack);
        case ByCode(code, password) => JoinExistingOk(s, code, id, slack);
      }
    }
  }

  // ---- leaving ---------------------------------------------------------------------------------------------

  lemma LeaveIndex(rooms: map<Code, Room>, playerRoom: map<PlayerId, Code>, code: Code, id: PlayerId, r: Room)
    requires IndexOk(rooms, playerRoom) && code in rooms && id in rooms[code].conns && Distinct(rooms[code].conns)
    requires r.conns == Without(rooms[code].conns, id)
    ensures IndexOk(rooms[code := r], playerRoom - {id})
    ensures |r.conns| == 0 ==> IndexOk(rooms - {code}, playerRoom - {id})
  {
    WithoutKeys(rooms[code].conns, id);
    assert playerRoom[id] == code;
    var rooms', playerRoom' := rooms[code := r], playerRoom - {id};
    forall c, p | c in rooms' && p in rooms'[c].conns ensures p in playerRoom' && playerRoom'[p] == c {
      assert p in rooms[c].conns;
    }
    forall p | p in playerRoom' ensures playerRoom'[p] in rooms' && p in rooms'[playerRoom'[p]].conns {
      assert p in rooms[playerRoom[p]].conns;
    }
  }

  /** A departure, as far as the server cares. */
  ghost predicate Departs(s: State, code: Code, id: PlayerId, e: Effect, slack: nat)
    requires code in s.rooms
  {
    && e.room.conns == Without(s.rooms[code].conns, id)
    && (forall c :: c in e.to ==> c in s.rooms[code].conns)
    && (if |e.room.conns| == 0 then Dead(e.room) else RoomOk(e.room))
    && Clocked(e.room.puzzles, s.now, slack)
    && NetOk(e.room, Post(s.net, e), s.inRoom)
  }

  lemma MemberDeparts(s: State, code: Code, id: PlayerId, slack: nat)
    requires Inv(s, slack) && code in s.rooms && id in s.rooms[code].conns
    ensures Departs(s, code, id, RemovePlayer(s.rooms[code], id, s.now), slack)
  {
    var r := s.rooms[code];
    WithoutKeys(r.conns, id);
    RemovePlayerOk(r, id, s.now);
    DropAllClocked(r.puzzles, r.puzzles.order, id, s.now, slack);
    LeaveNet(r, id, s.now, s.net, s.inRoom);
  }

  lemma LeftBehind(s: State, code: Code, id: PlayerId, e: Effect, slack: nat)
    requires Inv(s, slack) && code in s.rooms && id in s.rooms[code].conns && Departs(s, code, id, e, slack)
    ensures IndexOk(s.rooms[code := e.room], s.playerRoom - {id})
    ensures |e.room.conns| == 0 ==> IndexOk(s.rooms - {code}, s.playerRoom - {id})
    ensures forall other :: other in s.rooms && other != code ==> NetOk(s.rooms[other], Post(s.net, e), s.inRoom)
    ensures LobbyOk(Post(s.net, e), s.inRoom)
  {
    LeaveIndex(s.rooms, s.playerRoom, code, id, e.room);
    MembersSeen(s, code, slack);
    OthersUntouched(s, code, e.to, e.msgs);
    LobbyUntouched(s.net, s.inRoom, e.to, e.msgs);
  }

  /** A room is destroyed, and whatever else changed fits. */
  lemma InvWithout(s: State, code: Code, r: Room, playerRoom: map<PlayerId, Code>, net: Net, slack: nat)
    requires 1 <= s.maxPlayers <= MAX_PLAYERS_HARD && RetiredOk(s.retired) && Dead(r)
    requires CodesOk(s.order, s.rooms) && RoomsOk(s.rooms) && ClocksOk(s.rooms, s.now, slack)
    requires forall c :: c in s.rooms && c != code ==> NetOk(s.rooms[c], net, s.inRoom)
    requires IndexOk(s.rooms - {code}, playerRoom) && LobbyOk(net, s.inRoom)
    ensures Inv(s.(rooms := s.rooms - {code}, order := Without(s.order, code), playerRoom := playerRoom,
                   net := net, retired := s.retired + [r]), slack)
  {
    WithoutKeys(s.order, code);
    RoomDropped(s.rooms, code, net, s.inRoom, s.now, slack);
  }

  lemma LastLeftOk(s: State, code: Code, id: PlayerId, e: Effect, slack: nat)
    requires Inv(s, slack) && code in s.rooms && id in s.rooms[code].conns && Departs(s, code, id, e, slack)
    requires |e.room.conns| == 0
    ensures Inv(Left(s, code, id, e), slack)
  {
    LeftBehind(s, code, id, e, slack);
    InvWithout(s, code, e.room, s.playerRoom - {id}, Post(s.net, e), slack);
  }

  lemma SomeLeftOk(s: State, code: Code, id: PlayerId, e: Effect, slack: nat)
    requires Inv(s, slack) && code in s.rooms && id in s.rooms[code].conns && Departs(s, code, id, e, slack)
    requires |e.room.conns| > 0
    ensures Inv(Left(s, code, id, e), slack)
  {
    LeftBehind(s, code, id, e, slack);
    InvWith(s, s.rooms, s.order, code, e.room, s.playerRoom - {id}, Post(s.net, e), s.inRoom, slack);
  }

  lemma LeftOk(s: State, code: Code, id: PlayerId, e: Effect, slack: nat)
    requires Inv(s, slack) && code in s.rooms && id in s.rooms[code].conns && Departs(s, code, id, e, slack)
    ensures Inv(Left(s, code, id, e), slack)
  {
    if |e.room.conns| == 0 {
      LastLeftOk(s, code, id, e, slack);
    } else {
      SomeLeftOk(s, code, id, e, slack);
    }
  }

  lemma RemoveStep(s: State, id: PlayerId, slack: nat)
    requires Inv(s, slack)
    ensures Inv(RemoveMember(s, id), slack)
  {
    if id in s.playerRoom {
      var code := s.playerRoom[id];
      MemberDeparts(s, code, id, slack);
      LeftOk(s, code, id, RemovePlayer(s.rooms[code], id, s.now), slack);
    }
  }

  lemma RoomDropped(rooms: map<Code, Room>, code: Code, net: Net, seen: set<PlayerId>, now: int, slack: nat)
    requires RoomsOk(rooms) && ClocksOk(rooms, now, slack)
    requires forall c :: c in rooms && c != code ==> NetOk(rooms[c], net, seen)
    ensures RoomsOk(rooms - {code}) && ClocksOk(rooms - {code}, now, slack) && ChannelsOk(rooms - {code}, net, seen)
  {}

  lemma CloseStep(s: State, id: PlayerId, slack: nat)
    requires Inv(s, slack)
    ensures Inv(OnClose(s, id), slack)
  {
    HangupStep(s, id, slack);
    RemoveStep(Hangup(s, id), id, slack);
  }

  lemma KickStep(s: State, id: PlayerId, slack: nat)
    requires Inv(s, slack)
    ensures Inv(OnKick(s, id), slack)
  {
    if HasRoom(s, id) {
      NoiseStep(s, Elements(s.rooms[s.playerRoom[id]].conns), slack);
      CloseStep(Announce(s, id), id, slack);
    }
  }

  /** Whatever happens, the server stays in order. */
  lemma StepOk(s: State, ev: Event, slack: nat)
    requires Inv(s, slack) && Enabled(s, ev, slack)
    ensures Inv(Step(s, ev), slack)
  {
    match ev
    case Handshake(id) => HandshakeStep(s, id, slack);
    case JoinRequest(id, request) => JoinStep(s, id, request, slack);
    case Close(id) => CloseStep(s, id, slack);
    case Kick(id) => KickStep(s, id, slack);
    case SocketDown(id) => HangupStep(s, id, slack);
    case Update(id, entries) => UpdateStep(s, id, entries, slack);
    case Cutscene(id, active) => CutsceneStep(s, id, active, slack);
    case StartsPuzzle(id, puzzleId) => StartStep(s, id, puzzleId, slack);
    case PassesPuzzle(id, puzzleId) => PassStep(s, id, puzzleId, slack);
    case TimerFires(code, handle) => FireStep(s, code, handle, slack);
    case Ticks(code) => TickStep(s, code, slack);
    case Chatter(to) => NoiseStep(s, to, slack);
    case Advance(ms) => AdvanceStep(s, ms, slack);
  }

  // ---- who may do what -------------------------------------------------------------------------------------

  /**
   Who is let in: a player that was in no room yet, with a new room, or one that is listed, has a place, and
   its password.
   */
  lemma LetInIff(s: State, id: PlayerId, request: Request)
    requires NO_CODE !in s.rooms && id !in s.playerRoom && (request.Create? ==> request.newCode !in s.rooms)
    ensures var t := Step(s, JoinRequest(id, request));
            id in t.playerRoom <==>
              && id in s.net.logs && id !in s.inRoom
              && (request.ByCode? ==>
                    && request.inviteCode in s.rooms
                    && |s.rooms[request.inviteCode].conns| < s.rooms[request.inviteCode].maxPlayers
                    && (s.rooms[request.inviteCode].password == ""
                        || request.password == Some(s.rooms[request.inviteCode].password)))
  {}

  /** A client changes no state but its own, whatever entries it sends. */
  lemma {:induction false} OnlyOwnState(r: Room, id: PlayerId, entries: seq<Entry>)
    ensures var q := UpdateAll(r, id, entries);
            q == r.(players := q.players) && q.players.Keys == r.players.Keys && q.players - {id} == r.players - {id}
    decreases |entries|
  {
    if |entries| > 0 {
      OnlyOwnState(UpdateOwn(r, id, entries[0]), id, entries[1..]);
    }
  }
}
