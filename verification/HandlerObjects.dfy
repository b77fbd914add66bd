/**
 The handlers of server/src/index.ts and the kick of server/src/admin.ts, on the manager, its rooms and the
 sessions as objects: each does to all of them what the step of `Server` for its packet says.
 */
module HandlerObjects {
  import opened Wrappers
  import opened Protocol
  import opened Channels
  import opened Server
  import opened ServerInvariant
  import opened RoomObjects
  import opened RoomSets
  import opened ManagerObjects
  import R = Rooms

  const PROTOCOL_VERSION := 1

  /** One per connection. */
  class Session {
    var playerId: PlayerId
    var handshaked: bool
    var inRoom: bool

    constructor ()
      ensures playerId == NOBODY && !handshaked && !inRoom
    {
      playerId, handshaked, inRoom := NOBODY, false, false;
    }

    method Sign(uuid: PlayerId)
      modifies this
      ensures playerId == uuid && handshaked && inRoom == old(inRoom)
    {
      playerId, handshaked := uuid, true;
    }
  }

  /** The session is one of this server's, and its flags say what has happened on it. */
  ghost predicate Serves(m: RoomManager, session: Session)
    reads m, m.wire, session
  {
    && (session.handshaked <==> session.playerId in m.wire.net.logs)
    && (session.inRoom <==> session.playerId in m.joined)
    && (!session.handshaked ==> session.playerId == NOBODY && !session.inRoom && NOBODY !in m.playerRoom)
  }

  /** A session writes its own flags: the manager and the rooms do not notice. */
  twostate lemma NotTheManager(new rooms: map<Code, Room>, new session: Session, new written: set<object>)
    requires forall c :: c in rooms ==> old(allocated(rooms[c])) && old(rooms[c].Valid())
    requires written == {session} && forall o: object :: old(allocated(o)) && o !in written ==> unchanged(o)
    ensures AllValid(rooms) && ViewsOf(rooms) == old(ViewsOf(rooms))
  {
    Spared(rooms, written);
  }

  method Sign(session: Session, m: RoomManager, uuid: PlayerId)
    requires m.Valid()
    modifies session
    ensures m.Valid() && m.View() == old(m.View())
    ensures session.playerId == uuid && session.handshaked && session.inRoom == old(session.inRoom)
  {
    session.Sign(uuid);
    NotTheManager(m.rooms, session, {session});
  }

  /** A session shakes hands once, with the right protocol; the id is a new uuid. */
  method OnHandshake(session: Session, m: RoomManager, protocol: int, uuid: PlayerId)
    requires m.Valid() && Serves(m, session) && uuid !in m.wire.net.logs && uuid !in m.joined && uuid != NOBODY
    modifies m.wire, session
    ensures m.Valid() && Serves(m, session)
    ensures m.View() == if old(session.handshaked) || protocol != PROTOCOL_VERSION then old(m.View())
                        else Server.OnHandshake(old(m.View()), uuid)
    ensures !old(session.handshaked) && protocol == PROTOCOL_VERSION ==> session.playerId == uuid && session.handshaked
  {
    if session.handshaked || protocol != PROTOCOL_VERSION {
      return;
    }
    m.Accept(uuid);
    Sign(session, m, uuid);
  }

  // ---- packets of a member -----------------------------------------------------------------------------------

  method OnCutscene(session: Session, m: RoomManager, active: bool)
    requires m.Valid()
    modifies m.Writable(session.playerId), m.wire
    ensures m.Valid() && m.View() == Server.OnCutscene(old(m.View()), old(session.playerId), active)
  {
    var code := m.GetRoomForPlayer(session.playerId);
    if code.Some? {
      m.CutsceneIn(code.value, session.playerId, active);
    }
  }

  method OnPuzzleStart(session: Session, m: RoomManager, puzzleId: PuzzleId)
    requires m.Valid()
    modifies m.Writable(session.playerId), m.wire
    ensures m.Valid() && m.View() == Server.OnPuzzleStart(old(m.View()), old(session.playerId), puzzleId)
  {
    var code := m.GetRoomForPlayer(session.playerId);
    if code.Some? && puzzleId != NO_PUZZLE {
      m.StartIn(code.value, puzzleId);
    }
  }

  method OnPuzzlePass(session: Session, m: RoomManager, puzzleId: PuzzleId)
    requires m.Valid()
    modifies m.Writable(session.playerId), m.wire
    ensures m.Valid() && m.View() == Server.OnPuzzlePass(old(m.View()), old(session.playerId), puzzleId)
  {
    var code := m.GetRoomForPlayer(session.playerId);
    if code.Some? && puzzleId != NO_PUZZLE {
      m.PassIn(code.value, puzzleId, session.playerId);
    }
  }

  /** The socket has closed: a session without an id is in no room. */
  method OnClose(session: Session, m: RoomManager)
    requires m.Valid() && NOBODY !in m.playerRoom && NOBODY !in m.wire.net.open
    modifies m, m.Writable(session.playerId), m.wire
    ensures m.Valid() && m.View() == Server.OnClose(old(m.View()), old(session.playerId))
  {
    if session.playerId != NOBODY {
      ghost var id := session.playerId;
      m.CloseSocket(session.playerId);
      m.RemovePlayer(session.playerId);
    } else {
      assert m.wire.net.open - {NOBODY} == m.wire.net.open;
    }
  }

  /** The admin route: tell the room first, then disconnect. */
  method Kick(id: PlayerId, m: RoomManager) returns (ok: bool)
    requires m.Valid()
    modifies m, m.Writable(id), m.wire
    ensures m.Valid() && ok == HasRoom(old(m.View()), id) && m.View() == Server.OnKick(old(m.View()), id)
  {
    var code := m.GetRoomForPlayer(id);
    if code.Some? {
      m.TellIn(code.value, Other);
    }
    ok := m.KickPlayer(id);
  }

  /** A client may only update its own state: the loop skips entries under another id. */
  method OnStateUpdate(session: Session, m: RoomManager, entries: seq<Entry>)
    requires m.Valid()
    modifies m.Writable(session.playerId)
    ensures m.Valid() && m.View() == Server.OnStateUpdate(old(m.View()), old(session.playerId), entries)
  {
    var code := m.GetRoomForPlayer(session.playerId);
    if code.Some? {
      UpdateAllIn(m, code.value, session.playerId, entries);
    }
  }

  /** The loop over the entries has come to position i. */
  ghost predicate Halfway(s: State, code: Code, id: PlayerId, entries: seq<Entry>, i: nat, t: State) {
    && i <= |entries| && code in s.rooms && code in t.rooms
    && t == s.(rooms := s.rooms[code := t.rooms[code]])
    && UpdateAll(t.rooms[code], id, entries[i..]) == UpdateAll(s.rooms[code], id, entries)
  }

  lemma HalfwayStart(s: State, code: Code, id: PlayerId, entries: seq<Entry>)
    requires code in s.rooms
    ensures Halfway(s, code, id, entries, 0, s)
  {
    assert entries[0..] == entries;
    assert s.rooms[code := s.rooms[code]] == s.rooms;
  }

  lemma HalfwayNext(s: State, code: Code, id: PlayerId, entries: seq<Entry>, i: nat, t: State)
    requires i < |entries| && Halfway(s, code, id, entries, i, t)
    ensures var e, r := entries[i], t.rooms[code];
            var next := if e.id == id then t.(rooms := t.rooms[code := R.UpdatePlayer(r, id, e.patch)]) else t;
            Halfway(s, code, id, entries, i + 1, next)
  {
    assert entries[i..][1..] == entries[i + 1..];
  }

  lemma HalfwayDone(s: State, code: Code, id: PlayerId, entries: seq<Entry>, t: State)
    requires Halfway(s, code, id, entries, |entries|, t)
    ensures t == s.(rooms := s.rooms[code := UpdateAll(s.rooms[code], id, entries)])
  {
    assert entries[|entries|..] == [];
  }

  method UpdateNext(m: RoomManager, code: Code, id: PlayerId, entries: seq<Entry>, i: nat, ghost s: State)
    requires m.Valid() && code in m.rooms && i < |entries| && Halfway(s, code, id, entries, i, m.View())
    modifies m.rooms[code].state.players.Values
    ensures m.Valid() && Halfway(s, code, id, entries, i + 1, m.View())
  {
    HalfwayNext(s, code, id, entries, i, m.View());
    if entries[i].id == id {
      m.UpdateIn(code, id, entries[i].patch);
    }
  }

  method UpdateAllIn(m: RoomManager, code: Code, id: PlayerId, entries: seq<Entry>)
    requires m.Valid() && code in m.rooms
    modifies m.rooms[code].state.players.Values
    ensures m.Valid()
    ensures m.View() == var s := old(m.View()); s.(rooms := s.rooms[code := UpdateAll(s.rooms[code], id, entries)])
  {
    ghost var s := m.View();
    HalfwayStart(s, code, id, entries);
    var i := 0;
    while i < |entries|
      invariant 0 <= i <= |entries| && m.Valid() && Halfway(s, code, id, entries, i, m.View())
    {
      UpdateNext(m, code, id, entries, i, s);
      i := i + 1;
    }
    HalfwayDone(s, code, id, entries, m.View());
  }

  // ---- joining -------------------------------------------------------------------------------------------------

  /** The acknowledgement and the server info, to the joiner alone. */
  method Greet(m: RoomManager, id: PlayerId, ghost r: R.Room, isHost: bool, existing: seq<PlayerState>)
    requires m.Valid() && isHost == (r.hostId == id) && existing == R.Listed(r.conns, r.players)
    modifies m.wire
    ensures unchanged(m) && m.Valid()
    ensures m.View() == old(m.View()).(net := Channels.Greet(old(m.View()).net, r, id))
  {
    GreetIs(m.View().net, r, id);
    m.Tell(id, JoinAck(isHost, existing));
    m.Tell(id, Other);
  }

  lemma GreetIs(net: Net, r: R.Room, id: PlayerId)
    ensures var ack := JoinAck(r.hostId == id, R.Listed(r.conns, r.players));
            Send(Send(net, {id}, [ack]), {id}, [Other]) == Channels.Greet(net, r, id)
  {
    var ack := JoinAck(r.hostId == id, R.Listed(r.conns, r.players));
    SendMore(net, {id}, [ack], [Other]);
    assert [ack] + [Other] == R.Welcome(r, id);
    assert forall c :: c in net.logs ==> net.logs[c] + [] == net.logs[c];
    assert Send(net, {id}, R.Welcome(r, id)).logs == Channels.Greet(net, r, id).logs;
  }

  /** Those who are in a room already, as the acknowledgement lists them. */
  method Existing(m: RoomManager, code: Code) returns (existing: seq<PlayerState>)
    requires m.Valid() && code in m.rooms
    ensures m.Valid() && m.View() == old(m.View()) && unchanged(m)
    ensures var r := m.View().rooms[code]; existing == R.Listed(r.conns, r.players)
  {
    existing := m.rooms[code].state.GetPlayers();
    Bystanders(m.rooms, m, m.wire, {m, m.wire});
  }

  method Added(m: RoomManager, code: Code, id: PlayerId) returns (isHost: bool)
    requires m.Valid() && code in m.rooms && id !in m.rooms[code].connections.order
    modifies m`playerRoom, m.rooms[code].Writable(), m.wire
    ensures m.Valid() && m.rooms == old(m.rooms) && m.joined == old(m.joined)
    ensures var s := old(m.View());
            && isHost == (s.rooms[code].hostId == id)
            && m.View() == Put(s.(playerRoom := s.playerRoom[id := code]), code, R.AddPlayer(s.rooms[code], id))
  {
    ghost var r := m.View().rooms[code];
    m.BindPlayer(id, code);
    assert m.View().rooms[code] == R.AddPlayer(r, id).room;
    isHost := m.rooms[code].hostId == id;
  }

  /** A room takes a player in, which is told who was there before. */
  method Enter(m: RoomManager, code: Code, id: PlayerId)
    requires m.Valid() && code in m.rooms && id !in m.rooms[code].connections.order
    modifies m`playerRoom, m.rooms[code].Writable(), m.wire
    ensures m.Valid() && m.rooms == old(m.rooms) && m.joined == old(m.joined)
    ensures m.View() == Server.Bind(old(m.View()), code, id).(inRoom := old(m.joined))
  {
    ghost var r := m.View().rooms[code];
    var existing := Existing(m, code);
    var isHost := Added(m, code, id);
    Greet(m, id, r, isHost, existing);
  }

  /** The player counts as having been in a room from now on. */
  method CountIn(m: RoomManager, id: PlayerId)
    requires m.Valid()
    modifies m`joined
    ensures m.Valid() && m.View() == old(m.View()).(inRoom := old(m.joined) + {id})
  {
    m.joined := m.joined + {id};
    Bystanders(m.rooms, m, m.wire, {m, m.wire});
  }

  method Join(m: RoomManager, code: Code, id: PlayerId)
    requires m.Valid() && code in m.rooms && id !in m.rooms[code].connections.order
    modifies m`joined, m`playerRoom, m.rooms[code].Writable(), m.wire
    ensures m.Valid() && m.View() == Server.Bind(old(m.View()), code, id)
  {
    Enter(m, code, id);
    CountIn(m, id);
  }

  method Mark(session: Session, m: RoomManager)
    requires m.Valid() && session.handshaked && session.playerId in m.wire.net.logs && session.playerId in m.joined
    modifies session`inRoom
    ensures m.Valid() && m.View() == old(m.View()) && Serves(m, session)
  {
    session.inRoom := true;
    NotTheManager(m.rooms, session, {session});
  }

  /** Whoever is a connection of a room has been marked as in a room. */
  ghost predicate MembersJoined(m: RoomManager)
    reads m, Parts(m.rooms)
  {
    forall code, p :: code in m.rooms && p in m.rooms[code].connections.order ==> p in m.joined
  }

  /** As in every state that the server's invariant holds of. */
  lemma InvJoins(m: RoomManager, slack: nat)
    requires m.Valid() && Inv(m.View(), slack)
    ensures MembersJoined(m)
  {
    forall code, p | code in m.rooms && p in m.rooms[code].connections.order ensures p in m.joined {
      MembersSeen(m.View(), code, slack);
      assert p in m.View().rooms[code].conns;
    }
  }

  /** A player makes a room and is the first to join it. */
  method Found(m: RoomManager, id: PlayerId, code: Code, password: string)
    requires m.Valid() && code !in m.rooms
    modifies m, m.wire
    ensures m.Valid() && m.joined == old(m.joined) + {id}
    ensures m.View() == Server.Bind(Server.CreateRoom(old(m.View()), code, id, password), code, id)
  {
    var room := m.CreateRoom(code, id, password);
    ghost var made := m.View();
    Join(m, code, id);
  }

  /** The guards on an invite code, in the order of the source. */
  predicate Refuses(m: RoomManager, code: Code, password: Option<string>)
    reads m, Parts(m.rooms)
    requires m.Valid()
  {
    code == NO_CODE || code !in m.rooms || m.rooms[code].IsFull() || !m.rooms[code].CheckPassword(password)
  }

  lemma RefusesIs(m: RoomManager, id: PlayerId, code: Code, password: Option<string>)
    requires m.Valid() && id !in m.joined
    ensures Server.OnJoinRequest(m.View(), id, ByCode(code, password)) ==
            if Refuses(m, code, password) then Server.Deny(m.View(), id) else Server.Bind(m.View(), code, id)
  {}

  method AdmitByCode(m: RoomManager, id: PlayerId, code: Code, password: Option<string>) returns (admitted: bool)
    requires m.Valid() && MembersJoined(m) && id !in m.joined
    modifies m, m.wire
    modifies if code in m.rooms then m.rooms[code].Writable() else {}
    ensures m.Valid() && m.View() == Server.OnJoinRequest(old(m.View()), id, ByCode(code, password))
    ensures m.joined == old(m.joined) + if admitted then {id} else {}
  {
    RefusesIs(m, id, code, password);
    admitted := !Refuses(m, code, password);
    if admitted {
      Join(m, code, id);
    } else {
      m.Tell(id, Other);
    }
  }

  /** The guards of the request; then the room, the binding and the two packets. */
  method Admit(m: RoomManager, id: PlayerId, request: Request) returns (admitted: bool)
    requires m.Valid() && MembersJoined(m) && id !in m.joined
    requires request.Create? ==> request.newCode !in m.rooms
    modifies m, m.wire
    modifies if request.ByCode? && request.inviteCode in m.rooms then m.rooms[request.inviteCode].Writable() else {}
    ensures m.Valid() && m.View() == Server.OnJoinRequest(old(m.View()), id, request)
    ensures m.joined == old(m.joined) + if admitted then {id} else {}
  {
    match request {
      case Create(newCode, password) =>
        Found(m, id, newCode, password);
        return true;
      case ByCode(inviteCode, password) =>
        admitted := AdmitByCode(m, id, inviteCode, password);
    }
  }

  /** A session is no object of a room. */
  lemma SessionApart(m: RoomManager, session: Session)
    requires m.Valid()
    ensures forall code :: code in m.rooms ==> session !in m.rooms[code].Writable()
  {}

  /** Joining makes no new sessions. */
  lemma SameSessions(s: State, id: PlayerId, request: Request)
    ensures Server.OnJoinRequest(s, id, request).net.logs.Keys == s.net.logs.Keys
  {}

  method AdmitSession(session: Session, m: RoomManager, request: Request)
    requires m.Valid() && Serves(m, session) && MembersJoined(m) && session.handshaked && !session.inRoom
    requires request.Create? ==> request.newCode !in m.rooms
    modifies session`inRoom, m, m.wire
    modifies if request.ByCode? && request.inviteCode in m.rooms then m.rooms[request.inviteCode].Writable() else {}
    ensures m.Valid() && Serves(m, session)
    ensures m.View() == Server.OnJoinRequest(old(m.View()), old(session.playerId), request)
  {
    SessionApart(m, session);
    SameSessions(m.View(), session.playerId, request);
    var admitted := Admit(m, session.playerId, request);
    assert m.View().net == m.wire.net && session.playerId in m.wire.net.logs;
    if admitted {
      Mark(session, m);
    }
  }

  method OnJoinRequest(session: Session, m: RoomManager, request: Request)
    requires m.Valid() && Serves(m, session) && MembersJoined(m)
    requires request.Create? ==> request.newCode !in m.rooms
    modifies session`inRoom, m, m.wire
    modifies if request.ByCode? && request.inviteCode in m.rooms then m.rooms[request.inviteCode].Writable() else {}
    ensures m.Valid() && Serves(m, session)
    ensures m.View() == var s, id := old(m.View()), old(session.playerId);
                        if old(session.handshaked) then Server.OnJoinRequest(s, id, request) else Server.Deny(s, id)
  {
    if !session.handshaked || session.inRoom {
      m.Tell(session.playerId, Other);
    } else {
      AdmitSession(session, m, request);
    }
  }
}
