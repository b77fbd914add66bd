/**
 Mutual exclusion of the puzzle token, as the gates of the clients enforce it, in every reachable state and for any
 number of puzzles.
 */
module Tokens {
  import opened Keys
  import opened Protocol
  import opened Puzzles
  import opened Mirror
  import opened PuzzleTracking
  import opened Gates
  import opened Rooms
  import opened ClientView
  import opened Channels
  import opened Server
  import opened ServerInvariant
  import opened Runs

  function Shown(net: Net, c: PlayerId): PuzzleMirror
    requires c in net.logs
  {
    Replay(net.logs[c]).puzzle
  }

  ghost predicate Told(net: Net, c: PlayerId)
    requires c in net.logs
  {
    HasToken(net.logs[c])
  }

  ghost predicate Hears(net: Net, c: PlayerId) {
    c in net.logs && c in net.open
  }

  /** The gates of the members, and that whoever shows a puzzle shows the same. */
  ghost predicate GatesOk(z: PuzzleState, conns: seq<PlayerId>, net: Net) {
    && Nested(z)
    && (forall c :: c in conns && Hears(net, c) ==> Gated(z, c, Shown(net, c), Told(net, c)))
    && (forall a, b :: a in conns && b in conns && Hears(net, a) && Hears(net, b) && Told(net, a) && Told(net, b) ==>
          Shown(net, a) == Shown(net, b))
  }

  // ---- packets -----------------------------------------------------------------------------------------------

  function Gets(net: Net, to: set<PlayerId>, msgs: seq<Msg>, c: PlayerId): seq<Msg> {
    if c in net.open && c in to then msgs else []
  }

  lemma AfterSend(net: Net, to: set<PlayerId>, msgs: seq<Msg>, c: PlayerId)
    requires c in net.logs
    ensures Shown(Send(net, to, msgs), c) == OnPuzzles(Shown(net, c), Gets(net, to, msgs, c))
    ensures Told(Send(net, to, msgs), c) <==> Told(net, c) || HasToken(Gets(net, to, msgs, c))
  {
    var more := Gets(net, to, msgs, c);
    ReplayMore(net.logs[c], more);
    PuzzlePart(Replay(net.logs[c]), more);
    HasTokenConcat(net.logs[c], more);
  }

  lemma {:induction false} NoPuzzlePackets(v: PuzzleMirror, msgs: seq<Msg>)
    requires forall i :: 0 <= i < |msgs| ==> !IsPuzzleMsg(msgs[i])
    ensures OnPuzzles(v, msgs) == v && !HasToken(msgs)
    decreases |msgs|
  {
    if |msgs| > 0 {
      NoPuzzlePackets(OnPuzzle(v, msgs[0]), msgs[1..]);
    }
  }

  /** The same puzzles, the same members or fewer, and nobody hears anything about puzzles. */
  lemma GatesStill(z: PuzzleState, conns: seq<PlayerId>, net: Net, conns': seq<PlayerId>, net': Net)
    requires GatesOk(z, conns, net)
    requires forall c :: c in conns' && Hears(net', c) ==>
               c in conns && Hears(net, c) && Shown(net', c) == Shown(net, c) && Told(net', c) == Told(net, c)
    ensures GatesOk(z, conns', net')
  {}

  lemma OtherPackets(z: PuzzleState, conns: seq<PlayerId>, net: Net, to: set<PlayerId>, msgs: seq<Msg>)
    requires GatesOk(z, conns, net) && forall i :: 0 <= i < |msgs| ==> !IsPuzzleMsg(msgs[i])
    ensures GatesOk(z, conns, Send(net, to, msgs))
  {
    forall c | c in net.logs
      ensures Shown(Send(net, to, msgs), c) == Shown(net, c) && Told(Send(net, to, msgs), c) == Told(net, c)
    {
      AfterSend(net, to, msgs, c);
      NoPuzzlePackets(Shown(net, c), Gets(net, to, msgs, c));
    }
    GatesStill(z, conns, net, conns, Send(net, to, msgs));
  }

  // ---- the puzzles do something --------------------------------------------------------------------------------

  /** Everyone who stays hears what the puzzles did. */
  lemma PuzzlePackets(z: PuzzleState, conns: seq<PlayerId>, net: Net, o: Out, conns': seq<PlayerId>)
    requires GatesOk(z, conns, net) && Nested(o.z) && forall c :: c in conns' ==> c in conns
    requires forall c :: c in conns' && Hears(net, c) ==> KeepsGate(o, c, Shown(net, c), Told(net, c))
    ensures GatesOk(o.z, conns', Send(net, Elements(conns'), o.msgs))
  {
    var net' := Send(net, Elements(conns'), o.msgs);
    forall c | c in conns' && Hears(net', c) ensures Gated(o.z, c, Shown(net', c), Told(net', c)) {
      AfterSend(net, Elements(conns'), o.msgs, c);
    }
    forall a, b | a in conns' && b in conns' && Hears(net', a) && Hears(net', b) && Told(net', a) && Told(net', b)
      ensures Shown(net', a) == Shown(net', b)
    {
      AfterSend(net, Elements(conns'), o.msgs, a);
      AfterSend(net, Elements(conns'), o.msgs, b);
      TokenForgets(Shown(net, a), Shown(net, b), o.msgs);
    }
  }

  /** What holds of the puzzles of every room of a reachable state. */
  ghost predicate Sound(r: Room) {
    && Distinct(r.conns) && |r.conns| > 0
    && Named(r.puzzles) && OrderOk(r.puzzles) && TimersOk(r.puzzles) && QueuesOk(r.puzzles, Elements(r.conns))
  }

  lemma StartGates(r: Room, net: Net, p: PuzzleId, now: int)
    requires Sound(r) && p != NO_PUZZLE && GatesOk(r.puzzles, r.conns, net)
    ensures var e := StartPuzzle(r, p, now); GatesOk(e.room.puzzles, e.room.conns, Post(net, e))
  {
    StartNested(r.puzzles, p, r.conns, TOKEN_DURATION, now);
    forall c | c in r.conns && Hears(net, c)
      ensures KeepsGate(Start(r.puzzles, p, r.conns, TOKEN_DURATION, now), c, Shown(net, c), Told(net, c))
    {
      StartGate(r.puzzles, p, r.conns, TOKEN_DURATION, now, c, Shown(net, c), Told(net, c));
    }
    PuzzlePackets(r.puzzles, r.conns, net, Start(r.puzzles, p, r.conns, TOKEN_DURATION, now), r.conns);
  }

  lemma PassGates(r: Room, net: Net, p: PuzzleId, id: PlayerId, now: int)
    requires Sound(r) && GatesOk(r.puzzles, r.conns, net)
    ensures var e := PassPuzzle(r, p, id, now); GatesOk(e.room.puzzles, e.room.conns, Post(net, e))
  {
    NextNested(r.puzzles, p, now, Elements(r.conns));
    forall c | c in r.conns && Hears(net, c)
      ensures KeepsGate(Pass(r.puzzles, p, id, now), c, Shown(net, c), Told(net, c))
    {
      PassGate(r.puzzles, p, id, now, Elements(r.conns), c, Shown(net, c), Told(net, c));
    }
    PuzzlePackets(r.puzzles, r.conns, net, Pass(r.puzzles, p, id, now), r.conns);
  }

  lemma FireGates(r: Room, net: Net, handle: nat, now: int)
    requires Sound(r) && GatesOk(r.puzzles, r.conns, net) && handle in r.puzzles.timers.armed
    ensures var e := FireTimer(r, handle, now); GatesOk(e.room.puzzles, e.room.conns, Post(net, e))
  {
    var y := r.puzzles.(timers := r.puzzles.timers.(armed := r.puzzles.timers.armed - {handle}));
    NextNested(y, r.puzzles.timers.armed[handle].puzzleId, now, Elements(r.conns));
    forall c | c in r.conns && Hears(net, c)
      ensures KeepsGate(Fire(r.puzzles, handle, now), c, Shown(net, c), Told(net, c))
    {
      FireGate(r.puzzles, handle, now, Elements(r.conns), c, Shown(net, c), Told(net, c));
    }
    PuzzlePackets(r.puzzles, r.conns, net, Fire(r.puzzles, handle, now), r.conns);
  }

  /** A departure: what the puzzles say of it, and then that the player has left, and who is host. */
  lemma LeaveGates(r: Room, net: Net, id: PlayerId, now: int)
    requires Sound(r) && GatesOk(r.puzzles, r.conns, net) && id in r.conns
    ensures var e := RemovePlayer(r, id, now); GatesOk(e.room.puzzles, e.room.conns, Post(net, e))
  {
    var d, conns := Disconnect(r.puzzles, id, now), Without(r.conns, id);
    WithoutKeys(r.conns, id);
    DisconnectNested(r.puzzles, id, now, Elements(r.conns));
    forall c | c in conns && Hears(net, c) ensures KeepsGate(d, c, Shown(net, c), Told(net, c)) {
      DisconnectGate(r.puzzles, id, now, Elements(r.conns), c, Shown(net, c), Told(net, c));
    }
    PuzzlePackets(r.puzzles, r.conns, net, d, conns);
    LeavingPackets(r, net, id, d);
  }

  lemma LeavingPackets(r: Room, net: Net, id: PlayerId, d: Out)
    requires GatesOk(d.z, Without(r.conns, id), Send(net, Elements(Without(r.conns, id)), d.msgs))
    ensures var e := Leave(r, id, d); GatesOk(e.room.puzzles, e.room.conns, Post(net, e))
  {
    var e, to := Leave(r, id, d), Elements(Without(r.conns, id));
    if |Without(r.conns, id)| > 0 {
      var tail := e.msgs[|d.msgs|..];
      assert e.msgs == d.msgs + tail;
      SendMore(net, to, d.msgs, tail);
      OtherPackets(d.z, e.room.conns, Send(net, to, d.msgs), to, tail);
    }
  }

  // ---- someone joins -------------------------------------------------------------------------------------------

  /** Whoever has just been acknowledged has been told of no puzzle. */
  lemma NewcomerShowsNothing(r: Room, id: PlayerId, log: seq<Msg>)
    requires LobbyLog(log, id)
    ensures Replay(log + Welcome(r, id)).puzzle == NO_PUZZLE_MIRROR && !HasToken(log + Welcome(r, id))
  {
    var all := log + Welcome(r, id);
    assert forall i :: 0 <= i < |all| ==> !IsPuzzleMsg(all[i]);
    PuzzlePart(INITIAL, all);
    NoPuzzlePackets(NO_PUZZLE_MIRROR, all);
  }

  /** A member that shows nothing, was told nothing and waits for nothing. */
  lemma OneMore(z: PuzzleState, conns: seq<PlayerId>, net: Net, id: PlayerId, log: seq<Msg>)
    requires GatesOk(z, conns, net) && id !in conns && !HasToken(log) && Replay(log).puzzle == NO_PUZZLE_MIRROR
    requires forall p :: p in z.sessions ==> id !in z.sessions[p].controlQueue
    ensures GatesOk(z, conns + [id], net.(logs := net.logs[id := log]))
  {
    var net' := net.(logs := net.logs[id := log]);
    forall c | c in conns + [id] && Hears(net', c) ensures Gated(z, c, Shown(net', c), Told(net', c)) {
      assert c != id ==> c in conns && Hears(net, c);
    }
  }

  lemma JoinGates(r: Room, net: Net, id: PlayerId)
    requires QueuesOk(r.puzzles, Elements(r.conns))
    requires GatesOk(r.puzzles, r.conns, net) && id !in r.conns && id in net.logs && LobbyLog(net.logs[id], id)
    ensures var e := AddPlayer(r, id); GatesOk(r.puzzles, e.room.conns, Greet(Post(net, e), r, id))
  {
    var e := AddPlayer(r, id);
    var sent := Post(net, e);
    OtherPackets(r.puzzles, r.conns, net, e.to, e.msgs);
    assert sent.logs[id] == net.logs[id] + [] == net.logs[id];
    NewcomerShowsNothing(r, id, net.logs[id]);
    LobbyShowsNothing(net.logs[id], id);
    forall p | p in r.puzzles.sessions ensures id !in r.puzzles.sessions[p].controlQueue {
      assert QueueOk(r.puzzles.sessions[p], Elements(r.conns));
    }
    var log := if id in net.open then net.logs[id] + Welcome(r, id) else net.logs[id];
    OneMore(r.puzzles, r.conns, sent, id, log);
    assert sent.logs[id := sent.logs[id]] == sent.logs;
  }

  lemma LobbyShowsNothing(log: seq<Msg>, id: PlayerId)
    requires LobbyLog(log, id)
    ensures Replay(log).puzzle == NO_PUZZLE_MIRROR && !HasToken(log)
  {
    PuzzlePart(INITIAL, log);
    NoPuzzlePackets(NO_PUZZLE_MIRROR, log);
  }

  // ---- the whole server ----------------------------------------------------------------------------------------

  ghost predicate RoomGates(s: State, code: Code)
    requires code in s.rooms
  {
    GatesOk(s.rooms[code].puzzles, s.rooms[code].conns, s.net)
  }

  /** What holds of every room of a reachable state, as far as this needs it. */
  ghost predicate Settled(s: State, code: Code) {
    && code in s.rooms && code != NO_CODE && Sound(s.rooms[code])
    && (forall c :: c in s.rooms[code].conns ==> c in s.net.logs && c in s.inRoom)
    && (forall other, c :: other in s.rooms && other != code && c in s.rooms[code].conns ==> c !in s.rooms[other].conns)
    && (forall p :: p in s.net.logs && p !in s.inRoom ==> LobbyLog(s.net.logs[p], p))
  }

  lemma InvSettled(s: State, slack: nat, code: Code)
    requires Inv(s, slack) && code in s.rooms
    ensures Settled(s, code)
  {
    MembersSeen(s, code, slack);
    forall other, c | other in s.rooms && other != code && c in s.rooms[code].conns ensures c !in s.rooms[other].conns {
      RoomsApart(s.rooms, s.playerRoom, code, other, c);
    }
  }

  /** Packets to others. */
  lemma ElsewhereGates(s: State, code: Code, to: set<PlayerId>, msgs: seq<Msg>, open: set<PlayerId>)
    requires Settled(s, code) && RoomGates(s, code) && open <= s.net.open
    requires forall c :: c in s.rooms[code].conns ==> c !in to
    ensures GatesOk(s.rooms[code].puzzles, s.rooms[code].conns, Send(s.net.(open := open), to, msgs))
  {
    var net', conns := Send(s.net.(open := open), to, msgs), s.rooms[code].conns;
    forall c | c in conns && c in open ensures Shown(net', c) == Shown(s.net, c) && Told(net', c) == Told(s.net, c) {
      assert s.net.logs[c] + [] == s.net.logs[c];
    }
    GatesStill(s.rooms[code].puzzles, conns, s.net, conns, net');
  }

  lemma HangupGates(s: State, code: Code, id: PlayerId)
    requires Settled(s, code) && RoomGates(s, code)
    ensures Settled(Hangup(s, id), code) && RoomGates(Hangup(s, id), code)
  {
    var r := s.rooms[code];
    GatesStill(r.puzzles, r.conns, s.net, r.conns, Hangup(s, id).net);
  }

  lemma AnnounceGates(s: State, code: Code, id: PlayerId)
    requires Settled(s, code) && RoomGates(s, code) && HasRoom(s, id)
    ensures RoomGates(Announce(s, id), code)
  {
    OtherPackets(s.rooms[code].puzzles, s.rooms[code].conns, s.net, Elements(s.rooms[s.playerRoom[id]].conns), [Other]);
  }

  lemma RemoveGates(s: State, code: Code, id: PlayerId)
    requires Settled(s, code) && RoomGates(s, code) && code in RemoveMember(s, id).rooms
    ensures RoomGates(RemoveMember(s, id), code)
  {
    if id in s.playerRoom && s.playerRoom[id] != NO_CODE && s.playerRoom[id] in s.rooms {
      var at := s.playerRoom[id];
      var e := RemovePlayer(s.rooms[at], id, s.now);
      if at == code && id in s.rooms[code].conns {
        LeaveGates(s.rooms[code], s.net, id, s.now);
      } else {
        ElsewhereGates(s, code, e.to, e.msgs, s.net.open);
      }
    }
  }

  /** Announcing changes no connection's place in the lobby. */
  lemma AnnounceSettled(s: State, code: Code, id: PlayerId)
    requires Settled(s, code) && HasRoom(s, id) && forall c :: c in s.rooms[s.playerRoom[id]].conns ==> c in s.inRoom
    ensures Settled(Announce(s, id), code)
  {
    var to := Elements(s.rooms[s.playerRoom[id]].conns);
    forall p | p in s.net.logs && p !in s.inRoom ensures Announce(s, id).net.logs[p] == s.net.logs[p] {
      assert p !in to && s.net.logs[p] + [] == s.net.logs[p];
    }
  }

  lemma BindGates(s: State, code: Code, at: Code, id: PlayerId)
    requires Settled(s, code) && RoomGates(s, code) && at in s.rooms && id in s.net.logs && id !in s.inRoom
    ensures RoomGates(Bind(s, at, id), code)
  {
    var e := AddPlayer(s.rooms[at], id);
    if at == code {
      JoinGates(s.rooms[code], s.net, id);
    } else {
      ElsewhereGates(s, code, e.to, e.msgs, s.net.open);
      GatesStill(s.rooms[code].puzzles, s.rooms[code].conns, Post(s.net, e), s.rooms[code].conns,
                 Greet(Post(s.net, e), s.rooms[at], id));
    }
  }

  lemma JoinStepGates(s: State, code: Code, id: PlayerId, request: Request)
    requires Settled(s, code) && RoomGates(s, code) && id in s.net.logs
             && (request.Create? ==> request.newCode !in s.rooms)
    ensures code in OnJoinRequest(s, id, request).rooms && RoomGates(OnJoinRequest(s, id, request), code)
  {
    if OnJoinRequest(s, id, request) == Deny(s, id) {
      OtherPackets(s.rooms[code].puzzles, s.rooms[code].conns, s.net, {id}, [Other]);
    } else {
      match request
      case Create(at, password) => BindGates(CreateRoom(s, at, id, password), code, at, id);
      case ByCode(at, password) => BindGates(s, code, at, id);
    }
  }

  /** A room does something: either this one, and its gates are right, or another. */
  lemma PutGates(s: State, code: Code, at: Code, e: Effect)
    requires Settled(s, code) && RoomGates(s, code) && at in s.rooms
    requires forall c :: c in e.to ==> c in s.rooms[at].conns
    requires at == code ==> GatesOk(e.room.puzzles, e.room.conns, Post(s.net, e))
    ensures RoomGates(Put(s, at, e), code)
  {
    if at != code {
      ElsewhereGates(s, code, e.to, e.msgs, s.net.open);
    }
  }

  lemma CutsceneGates(s: State, code: Code, id: PlayerId, active: bool)
    requires Settled(s, code) && RoomGates(s, code)
    ensures code in OnCutscene(s, id, active).rooms && RoomGates(OnCutscene(s, id, active), code)
  {
    if HasRoom(s, id) {
      var e := SetCutscene(s.rooms[s.playerRoom[id]], id, active);
      OtherPackets(s.rooms[code].puzzles, s.rooms[code].conns, s.net, e.to, e.msgs);
      PutGates(s, code, s.playerRoom[id], e);
    }
  }

  lemma TickGates(s: State, code: Code, at: Code)
    requires Settled(s, code) && RoomGates(s, code) && at in s.rooms
    ensures RoomGates(Put(s, at, Tick(s.rooms[at])), code)
  {
    var e := Tick(s.rooms[at]);
    OtherPackets(s.rooms[code].puzzles, s.rooms[code].conns, s.net, e.to, e.msgs);
    PutGates(s, code, at, e);
  }

  lemma StartStepGates(s: State, code: Code, id: PlayerId, p: PuzzleId)
    requires Settled(s, code) && RoomGates(s, code)
    ensures code in OnPuzzleStart(s, id, p).rooms && RoomGates(OnPuzzleStart(s, id, p), code)
  {
    if HasRoom(s, id) && p != NO_PUZZLE {
      StartGates(s.rooms[code], s.net, p, s.now);
      PutGates(s, code, s.playerRoom[id], StartPuzzle(s.rooms[s.playerRoom[id]], p, s.now));
    }
  }

  lemma PassStepGates(s: State, code: Code, id: PlayerId, p: PuzzleId)
    requires Settled(s, code) && RoomGates(s, code)
    ensures code in OnPuzzlePass(s, id, p).rooms && RoomGates(OnPuzzlePass(s, id, p), code)
  {
    if HasRoom(s, id) && p != NO_PUZZLE {
      PassGates(s.rooms[code], s.net, p, id, s.now);
      PutGates(s, code, s.playerRoom[id], PassPuzzle(s.rooms[s.playerRoom[id]], p, id, s.now));
    }
  }

  lemma FireStepGates(s: State, code: Code, at: Code, handle: nat)
    requires Settled(s, code) && RoomGates(s, code) && at in s.rooms && handle in s.rooms[at].puzzles.timers.armed
    ensures RoomGates(Put(s, at, FireTimer(s.rooms[at], handle, s.now)), code)
  {
    if at == code {
      FireGates(s.rooms[code], s.net, handle, s.now);
    }
    PutGates(s, code, at, FireTimer(s.rooms[at], handle, s.now));
  }

  lemma UpdateGates(s: State, code: Code, id: PlayerId, entries: seq<Entry>)
    requires Settled(s, code) && RoomGates(s, code)
    ensures code in OnStateUpdate(s, id, entries).rooms && RoomGates(OnStateUpdate(s, id, entries), code)
  {
    if HasRoom(s, id) {
      OnlyOwnState(s.rooms[s.playerRoom[id]], id, entries);
    }
  }

  lemma KickGates(s: State, code: Code, id: PlayerId)
    requires Settled(s, code) && RoomGates(s, code) && code in OnKick(s, id).rooms
    requires HasRoom(s, id) ==> forall c :: c in s.rooms[s.playerRoom[id]].conns ==> c in s.inRoom
    ensures RoomGates(OnKick(s, id), code)
  {
    if HasRoom(s, id) {
      AnnounceGates(s, code, id);
      AnnounceSettled(s, code, id);
      HangupGates(Announce(s, id), code, id);
      RemoveGates(Hangup(Announce(s, id), id), code, id);
    }
  }

  lemma HandshakeGates(s: State, code: Code, id: PlayerId)
    requires Settled(s, code) && RoomGates(s, code) && id !in s.net.logs
    ensures RoomGates(OnHandshake(s, id), code)
  {
    var r := s.rooms[code];
    GatesStill(r.puzzles, r.conns, s.net, r.conns, OnHandshake(s, id).net);
  }

  /** Any step, for a room that was there. */
  lemma StepRoomGates(s: State, ev: Event, slack: nat, code: Code)
    requires Settled(s, code) && Enabled(s, ev, slack) && RoomGates(s, code) && code in Step(s, ev).rooms
    requires ev.Kick? && HasRoom(s, ev.id) ==> forall c :: c in s.rooms[s.playerRoom[ev.id]].conns ==> c in s.inRoom
    ensures RoomGates(Step(s, ev), code)
  {
    match ev
    case Handshake(id) => HandshakeGates(s, code, id);
    case JoinRequest(id, request) => if id in s.net.logs { JoinStepGates(s, code, id, request); }
    case Close(id) => HangupGates(s, code, id); RemoveGates(Hangup(s, id), code, id);
    case Kick(id) => KickGates(s, code, id);
    case SocketDown(id) => HangupGates(s, code, id);
    case Update(id, entries) => UpdateGates(s, code, id, entries);
    case Cutscene(id, active) => CutsceneGates(s, code, id, active);
    case StartsPuzzle(id, p) => StartStepGates(s, code, id, p);
    case PassesPuzzle(id, p) => PassStepGates(s, code, id, p);
    case TimerFires(at, handle) => FireStepGates(s, code, at, handle);
    case Ticks(at) => TickGates(s, code, at);
    case Chatter(to) => OtherPackets(s.rooms[code].puzzles, s.rooms[code].conns, s.net, to, [Other]);
    case Advance(_) =>
  }

  /** A room that was just made has one member, and no puzzle. */
  lemma NewRoomGates(s: State, ev: Event, code: Code)
    requires code !in s.rooms && code in Step(s, ev).rooms
    requires forall p :: p in s.net.logs && p !in s.inRoom ==> LobbyLog(s.net.logs[p], p)
    ensures RoomGates(Step(s, ev), code)
  {
    var m := CreateRoom(s, code, ev.id, ev.request.newPassword);
    JoinGates(m.rooms[code], m.net, ev.id);
  }

  /** Whatever happens to a room, or if it is new. */
  lemma StepAnyGates(s: State, ev: Event, slack: nat, code: Code)
    requires Inv(s, slack) && Enabled(s, ev, slack) && code in Step(s, ev).rooms
    requires code in s.rooms ==> RoomGates(s, code)
    ensures RoomGates(Step(s, ev), code)
  {
    if code in s.rooms {
      InvSettled(s, slack, code);
      if ev.Kick? && HasRoom(s, ev.id) {
        MembersSeen(s, s.playerRoom[ev.id], slack);
      }
      StepRoomGates(s, ev, slack, code);
    } else {
      NewRoomGates(s, ev, code);
    }
  }

  lemma RunStepGates(run: Run, slack: nat, i: nat, code: Code)
    requires i < |run.events| < |run.states| && StepAt(run, i, slack) && Inv(run.states[i], slack)
    requires code in run.states[i + 1].rooms && (code in run.states[i].rooms ==> RoomGates(run.states[i], code))
    ensures RoomGates(run.states[i + 1], code)
  {
    StepAnyGates(run.states[i], run.events[i], slack, code);
  }

  lemma {:induction false} ReachableGates(run: Run, slack: nat, i: nat, code: Code)
    requires IsRun(run, slack) && i < |run.states| && code in run.states[i].rooms
    ensures RoomGates(run.states[i], code)
  {
    if i > 0 {
      ReachableOk(run, slack, i - 1);
      assert StepAt(run, i - 1, slack);
      if code in run.states[i - 1].rooms {
        ReachableGates(run, slack, i - 1, code);
      }
      RunStepGates(run, slack, i - 1, code);
    }
  }

  // ---- every reachable state -----------------------------------------------------------------------------------

  /** An open member of a room, and what its client holds when everything sent has arrived. */
  ghost predicate OpenMember(s: State, code: Code, c: PlayerId) {
    code in s.rooms && c in s.rooms[code].conns && Hears(s.net, c)
  }

  lemma MemberGate(run: Run, slack: nat, i: nat, code: Code, c: PlayerId)
    requires IsRun(run, slack) && i < |run.states| && OpenMember(run.states[i], code, c)
    ensures var s := run.states[i];
            && c != NOBODY && Replay(s.net.logs[c]).localId == c
            && Gated(s.rooms[code].puzzles, c, Shown(s.net, c), Told(s.net, c))
  {
    ReachableGates(run, slack, i, code);
    ReachableOk(run, slack, i);
    MemberView(run.states[i], slack, code, c);
    MembersSeen(run.states[i], code, slack);
  }

  /** When gating begins: while a puzzle is live, a member's client shows one exactly if it was sent a token packet. */
  lemma ActiveIffTold(run: Run, slack: nat, i: nat, code: Code, c: PlayerId)
    requires IsRun(run, slack) && i < |run.states| && OpenMember(run.states[i], code, c)
    requires Live(run.states[i].rooms[code].puzzles)
    ensures var log := run.states[i].net.logs[c];
            Replay(log).puzzle.active <==> exists k :: 0 <= k < |log| && log[k].PuzzleToken?
  {
    MemberGate(run, slack, i, code, c);
  }

  /** Two members that show a puzzle show the same one, with the same controller and queue. */
  lemma AllShowTheSame(run: Run, slack: nat, i: nat, code: Code, a: PlayerId, b: PlayerId)
    requires IsRun(run, slack) && i < |run.states|
    requires OpenMember(run.states[i], code, a) && OpenMember(run.states[i], code, b)
    requires Shown(run.states[i].net, a).active && Shown(run.states[i].net, b).active
    ensures Shown(run.states[i].net, a) == Shown(run.states[i].net, b)
  {
    ReachableGates(run, slack, i, code);
    MemberGate(run, slack, i, code, a);
    MemberGate(run, slack, i, code, b);
  }

  /** A client that shows a puzzle shows a live one as it is, and lets its player act exactly on the server's say. */
  lemma ShownPuzzleGates(run: Run, slack: nat, i: nat, code: Code, c: PlayerId)
    requires IsRun(run, slack) && i < |run.states| && OpenMember(run.states[i], code, c)
    requires Shown(run.states[i].net, c).active
    ensures var z, m := run.states[i].rooms[code].puzzles, Replay(run.states[i].net.logs[c]);
            && m.puzzle.puzzleId in z.sessions
            && m.puzzle.queue == z.sessions[m.puzzle.puzzleId].controlQueue
            && (LocalInputAllowed(m) <==> z.sessions[m.puzzle.puzzleId].currentController == c)
  {
    MemberGate(run, slack, i, code, c);
  }

  /** Of the members that show a puzzle, for any number of live puzzles, at most one may act. */
  lemma AtMostOneActs(run: Run, slack: nat, i: nat, code: Code, a: PlayerId, b: PlayerId)
    requires IsRun(run, slack) && i < |run.states|
    requires OpenMember(run.states[i], code, a) && OpenMember(run.states[i], code, b)
    requires Shown(run.states[i].net, a).active && Shown(run.states[i].net, b).active
    requires LocalInputAllowed(Replay(run.states[i].net.logs[a]))
             && LocalInputAllowed(Replay(run.states[i].net.logs[b]))
    ensures a == b
  {
    AllShowTheSame(run, slack, i, code, a, b);
    ShownPuzzleGates(run, slack, i, code, a);
    ShownPuzzleGates(run, slack, i, code, b);
  }

  ghost predicate Single(z: PuzzleState) {
    forall p, q :: p in z.sessions && q in z.sessions ==> p == q
  }

  /**
   Mutual exclusion: with one puzzle live, whatever was live before, among the members in its queue whose packets
   have arrived exactly the server's controller may act.
   */
  lemma TokenExclusion(run: Run, slack: nat, i: nat, code: Code, p: PuzzleId, c: PlayerId)
    requires IsRun(run, slack) && i < |run.states| && OpenMember(run.states[i], code, c)
    requires var z := run.states[i].rooms[code].puzzles; Single(z) && p in z.sessions && c in z.sessions[p].controlQueue
    ensures var s := run.states[i];
            LocalInputAllowed(Replay(s.net.logs[c])) <==> s.rooms[code].puzzles.sessions[p].currentController == c
  {
    MemberGate(run, slack, i, code, c);
  }

  /** Who may act while a puzzle is live: the controller of the puzzle shown, and whoever has not been told yet. */
  lemma MayActIff(run: Run, slack: nat, i: nat, code: Code, c: PlayerId)
    requires IsRun(run, slack) && i < |run.states| && OpenMember(run.states[i], code, c)
    requires Live(run.states[i].rooms[code].puzzles)
    ensures var s := run.states[i];
            LocalInputAllowed(Replay(s.net.logs[c])) <==>
              || !HasToken(s.net.logs[c])
              || (&& Shown(s.net, c).puzzleId in s.rooms[code].puzzles.sessions
                  && s.rooms[code].puzzles.sessions[Shown(s.net, c).puzzleId].currentController == c)
  {
    MemberGate(run, slack, i, code, c);
  }

  // ---- several puzzles -----------------------------------------------------------------------------------------

  /**
   With two puzzles live the gate follows the one that was heard of last: when the token of the first expires while
   the second is shown, everyone shows the first again, and the controller of the second may not act on it.
   */
  lemma LastHeardIsShown()
    ensures var first := Start(NO_PUZZLES, 1, [1, 2], TOKEN_DURATION, 0);
            var second := Start(first.z, 2, [1, 2], TOKEN_DURATION, 0);
            var expired := Next(second.z, 1, TOKEN_DURATION);
            var shown := OnPuzzles(NO_PUZZLE_MIRROR, first.msgs + second.msgs + expired.msgs);
            && expired.z.sessions[2].currentController == 1 && expired.z.sessions[1].currentController == 2
            && shown.puzzleId == 1 && shown.controllerId == 2
            && !LocalInputAllowed(Mirror(1, false, map[], shown))
  {
    var first := Start(NO_PUZZLES, 1, [1, 2], TOKEN_DURATION, 0);
    var second := Start(first.z, 2, [1, 2], TOKEN_DURATION, 0);
    var expired := Next(second.z, 1, TOKEN_DURATION);
    var before := first.msgs + second.msgs;
    OnPuzzlesConcat(NO_PUZZLE_MIRROR, before, expired.msgs);
    assert expired.z.sessions[1].controlQueue == [2, 1];
    OneMsg(OnPuzzles(NO_PUZZLE_MIRROR, before), expired.msgs[0]);
  }
}
