/**
 Who gets into a room and what comes of it, over every run: the room a creator asked for, the password and the
 limit that hold as long as it is listed, and what a join does to the room, the indexes and the connections.
 */
module Admission {
  import opened Wrappers
  import opened Keys
  import opened Protocol
  import opened Puzzles
  import opened Rooms
  import opened Channels
  import opened Server
  import opened ServerInvariant
  import opened Runs

  /** A player that has just joined. */
  function Newcomer(x: PlayerId, isHost: bool): PlayerState {
    var origin := Vec3(0.0, 0.0, 0.0);
    PlayerState(x, origin, Rotation(0.0, 0.0), origin, 100.0, 100.0, Anim(0, 0.0, 0, 0, 1.0), isHost, 0, false,
                NO_GAMEPLAY)
  }

  /** A room nobody has joined yet. */
  function Asked(x: PlayerId, password: string, limit: nat): Room {
    Room(x, password, if limit < 8 then limit else 8, [], true, map[], map[], PuzzleState([], map[], Timers(map[], 0)))
  }

  /** The states of the members, in the order they joined. */
  ghost predicate Lists(r: Room, list: seq<PlayerState>) {
    && |list| == |r.conns|
    && forall k :: 0 <= k < |list| ==> r.conns[k] in r.players && list[k] == r.players[r.conns[k]]
  }

  /** The joiner has heard who is there, the members of the joiner, and nobody else anything. */
  ghost predicate Introduced(was: Net, now: Net, r: Room, x: PlayerId, list: seq<PlayerState>) {
    && now.open == was.open && now.logs.Keys == was.logs.Keys
    && forall y :: y in was.logs ==>
         now.logs[y] == was.logs[y] + if y !in was.open then []
                                      else if y == x then [JoinAck(r.conns == [], list), Other]
                                      else if y in r.conns then [PlayerJoin(Newcomer(x, r.conns == []))] else []
  }

  /** x has joined the room r, which was listed under the code or has been made for it. */
  ghost predicate Joined(s: State, t: State, code: Code, r: Room, x: PlayerId) {
    && t == s.(rooms := s.rooms[code := r.(conns := r.conns
        + [x], players := r.players[x := Newcomer(x, r.conns == [])])],
               order := if code in s.rooms then s.order else s.order + [code],
               playerRoom := s.playerRoom[x := code], inRoom := s.inRoom + {x}, net := t.net)
    && exists list :: Lists(r, list) && Introduced(s.net, t.net, r, x, list)
  }

  /** One denial, to the player alone. */
  ghost predicate Denied(s: State, t: State, x: PlayerId) {
    && t == s.(net := t.net) && t.net.open == s.net.open && t.net.logs.Keys == s.net.logs.Keys
    && forall y :: y in s.net.logs ==>
         t.net.logs[y] == s.net.logs[y] + if y == x && y in s.net.open then [Other] else []
  }

  // ---- joining -------------------------------------------------------------------------------------------------

  lemma {:induction false} ListedAll(order: seq<PlayerId>, players: map<PlayerId, PlayerState>)
    requires forall c :: c in order ==> c in players
    ensures |Listed(order, players)| == |order|
    ensures forall k :: 0 <= k < |order| ==> Listed(order, players)[k] == players[order[k]]
  {
    if |order| > 0 {
      ListedAll(order[1..], players);
    }
  }

  lemma AddAdds(r: Room, x: PlayerId)
    requires KeysOk(r) && (r.conns == [] <==> r.hostId == x) && x !in r.conns
    ensures var e, ps := AddPlayer(r, x), Newcomer(x, r.conns == []);
            && e.room == r.(conns := r.conns + [x], players := r.players[x := ps])
            && e.to == Elements(r.conns) && e.msgs == [PlayerJoin(ps)]
            && Welcome(r, x) == [JoinAck(r.conns == [], Listed(r.conns, r.players)), Other]
            && Lists(r, Listed(r.conns, r.players))
  {
    ListedAll(r.conns, r.players);
  }

  lemma GreetIntroduces(net: Net, r: Room, x: PlayerId)
    requires KeysOk(r) && (r.conns == [] <==> r.hostId == x) && x !in r.conns
    ensures Introduced(net, Greet(Post(net, AddPlayer(r, x)), r, x), r, x, Listed(r.conns, r.players))
  {
    AddAdds(r, x);
    assert forall y :: y in net.logs ==> net.logs[y] + [] == net.logs[y];
  }

  lemma BindJoins(s: State, code: Code, x: PlayerId)
    requires code in s.rooms && KeysOk(s.rooms[code]) && x !in s.rooms[code].conns
    requires s.rooms[code].conns == [] <==> s.rooms[code].hostId == x
    ensures Joined(s, Bind(s, code, x), code, s.rooms[code], x)
  {
    AddAdds(s.rooms[code], x);
    GreetIntroduces(s.net, s.rooms[code], x);
  }

  lemma ListedJoins(s: State, code: Code, x: PlayerId, slack: nat)
    requires Inv(s, slack) && code in s.rooms && x !in s.inRoom
    ensures Joined(s, Bind(s, code, x), code, s.rooms[code], x)
  {
    MembersSeen(s, code, slack);
    assert RoomOk(s.rooms[code]) && |s.rooms[code].conns| > 0;
    assert s.rooms[code].hostId == s.rooms[code].conns[0];
    BindJoins(s, code, x);
  }

  lemma CreatorJoins(s: State, code: Code, x: PlayerId, password: string)
    requires code !in s.rooms
    ensures Joined(s, Bind(CreateRoom(s, code, x, password), code, x), code, Asked(x, password, s.maxPlayers), x)
  {
    var made := CreateRoom(s, code, x, password);
    assert made.rooms[code] == Asked(x, password, s.maxPlayers);
    BindJoins(made, code, x);
    var r := made.rooms[code];
    var joined := r.(conns := r.conns + [x], players := r.players[x := Newcomer(x, true)]);
    assert made.rooms[code := joined] == s.rooms[code := joined];
  }

  lemma DenyDenies(s: State, x: PlayerId)
    ensures Denied(s, Deny(s, x), x)
  {}

  /** A listed room with a place free, whose password was given. */
  ghost predicate Admits(s: State, code: Code, password: Option<string>) {
    && code in s.rooms && |s.rooms[code].conns| < s.rooms[code].maxPlayers
    && (s.rooms[code].password == "" || password == Some(s.rooms[code].password))
  }

  lemma CreateTakesEffect(s: State, x: PlayerId, code: Code, password: string)
    requires code !in s.rooms
    ensures var t := OnJoinRequest(s, x, Create(code, password));
            if x in s.inRoom then Denied(s, t, x) else Joined(s, t, code, Asked(x, password, s.maxPlayers), x)
  {
    if x in s.inRoom {
      DenyDenies(s, x);
    } else {
      CreatorJoins(s, code, x, password);
    }
  }

  lemma CodeTakesEffect(s: State, x: PlayerId, code: Code, password: Option<string>, slack: nat)
    requires Inv(s, slack)
    ensures var t := OnJoinRequest(s, x, ByCode(code, password));
            if x in s.inRoom || !Admits(s, code, password) then Denied(s, t, x)
            else Joined(s, t, code, s.rooms[code], x)
  {
    if x in s.inRoom || !Admits(s, code, password) {
      DenyDenies(s, x);
    } else {
      ListedJoins(s, code, x, slack);
    }
  }

  lemma RequestTakesEffect(s: State, x: PlayerId, request: Request, slack: nat)
    requires Inv(s, slack) && (request.Create? ==> request.newCode !in s.rooms)
    ensures var t := OnJoinRequest(s, x, request);
            match request
            case Create(code, password) =>
              if x in s.inRoom then Denied(s, t, x) else Joined(s, t, code, Asked(x, password, s.maxPlayers), x)
            case ByCode(code, password) =>
              if x in s.inRoom || !Admits(s, code, password) then Denied(s, t, x)
              else Joined(s, t, code, s.rooms[code], x)
  {
    match request
    case Create(code, password) => CreateTakesEffect(s, x, code, password);
    case ByCode(code, password) => CodeTakesEffect(s, x, code, password, slack);
  }

  // ---- terms -----------------------------------------------------------------------------------------------------

  /** The room was made with this password, and holds as many as this limit or eight. */
  ghost predicate Terms(s: State, code: Code, password: string, limit: nat) {
    && code in s.rooms && s.rooms[code].password == password
    && s.rooms[code].maxPlayers == (if limit < 8 then limit else 8)
  }

  lemma TermsStay(s: State, ev: Event, slack: nat, code: Code)
    requires code in s.rooms && code in Step(s, ev).rooms && Enabled(s, ev, slack)
    ensures var r, t := s.rooms[code], Step(s, ev).rooms[code]; t.password == r.password && t.maxPlayers == r.maxPlayers
  {
    if ev.Update? && HasRoom(s, ev.id) {
      OnlyOwnState(s.rooms[s.playerRoom[ev.id]], ev.id, ev.entries);
    }
  }

  lemma LimitStays(s: State, ev: Event)
    ensures Step(s, ev).maxPlayers == s.maxPlayers
  {}

  lemma {:induction false} LimitIsBooted(run: Run, slack: nat, i: nat)
    requires IsRun(run, slack) && i < |run.states|
    ensures run.states[i].maxPlayers == run.states[0].maxPlayers
  {
    if i > 0 {
      LimitIsBooted(run, slack, i - 1);
      assert StepAt(run, i - 1, slack);
      LimitStays(run.states[i - 1], run.events[i - 1]);
    }
  }

  /** Event i is the request that made the room, and it has been listed ever since, up to state j. */
  ghost predicate MadeAt(run: Run, i: nat, j: nat, x: PlayerId, code: Code, password: string)
    requires i < j < |run.states| == |run.events| + 1
  {
    && run.events[i] == JoinRequest(x, Create(code, password)) && x !in run.states[i].inRoom
    && forall k :: i < k <= j ==> code in run.states[k].rooms
  }

  lemma {:induction false} TermsSince(run: Run, slack: nat, i: nat, j: nat, x: PlayerId, code: Code, password: string)
    requires IsRun(run, slack) && i < j < |run.states| && MadeAt(run, i, j, x, code, password)
    ensures Terms(run.states[j], code, password, run.states[0].maxPlayers)
    decreases j
  {
    assert StepAt(run, j - 1, slack);
    if j == i + 1 {
      ReachableOk(run, slack, i);
      LimitIsBooted(run, slack, i);
      MadeWithTerms(run.states[i], x, code, password, slack);
    } else {
      TermsSince(run, slack, i, j - 1, x, code, password);
      TermsStay(run.states[j - 1], run.events[j - 1], slack, code);
    }
  }

  lemma MadeWithTerms(s: State, x: PlayerId, code: Code, password: string, slack: nat)
    requires Inv(s, slack) && Enabled(s, JoinRequest(x, Create(code, password)), slack)
    requires x !in s.inRoom && code in Step(s, JoinRequest(x, Create(code, password))).rooms
    ensures Terms(Step(s, JoinRequest(x, Create(code, password))), code, password, s.maxPlayers)
  {
    if x in s.net.logs {
      RequestTakesEffect(s, x, Create(code, password), slack);
    }
  }

  // ---- over runs -------------------------------------------------------------------------------------------------

  /**
   What any join request does, in any run. A creator is alone in a room with the password it asked for; whoever is
   let in by a code is last in the room; everyone else is told no, and whoever has not shaken hands nothing.
   */
  lemma JoinTakesEffect(run: Run, slack: nat, i: nat, x: PlayerId, request: Request)
    requires IsRun(run, slack) && i < |run.events| && run.events[i] == JoinRequest(x, request)
    ensures var s, t := run.states[i], run.states[i + 1];
            if x !in s.net.logs then t == s
            else
              match request
              case Create(code, password) =>
                if x in s.inRoom then Denied(s, t, x)
                else Joined(s, t, code, Asked(x, password, run.states[0].maxPlayers), x)
              case ByCode(code, password) =>
                if x in s.inRoom || !Admits(s, code, password) then Denied(s, t, x)
                else Joined(s, t, code, s.rooms[code], x)
  {
    ReachableOk(run, slack, i);
    LimitIsBooted(run, slack, i);
    assert StepAt(run, i, slack);
    if x in run.states[i].net.logs {
      RequestTakesEffect(run.states[i], x, request, slack);
    }
  }

  /**
   The password of the request that made a room, and the configured limit, decide as long as the room is listed:
   a newcomer with its code gets in exactly if there is a place and no other password was asked for.
   */
  lemma PasswordDecides(
      run: Run, slack: nat, i: nat, j: nat, x: PlayerId, code: Code, password: string, y: PlayerId,
          given: Option<string>)
    requires IsRun(run, slack) && i < j < |run.events| && MadeAt(run, i, j, x, code, password)
    requires run.events[j] == JoinRequest(y, ByCode(code, given))
    requires y in run.states[j].net.logs && y !in run.states[j].inRoom
    ensures var limit := if run.states[0].maxPlayers < 8 then run.states[0].maxPlayers else 8;
            y in run.states[j + 1].playerRoom && run.states[j + 1].playerRoom[y] == code <==>
              |run.states[j].rooms[code].conns| < limit && (password == "" || given == Some(password))
  {
    TermsSince(run, slack, i, j, x, code, password);
    JoinTakesEffect(run, slack, j, y, ByCode(code, given));
    ReachableOk(run, slack, j);
    OutsiderUnbound(run.states[j], y, slack);
  }

  /** A handshake: the session is open, and has been told its id and nothing else. */
  lemma HandshakeTakesEffect(run: Run, slack: nat, i: nat, x: PlayerId)
    requires IsRun(run, slack) && i < |run.events| && run.events[i] == Handshake(x)
    ensures var s, t := run.states[i], run.states[i + 1];
            && x !in s.net.logs && x !in s.inRoom && x != NOBODY
            && t == s.(net := Net(s.net.logs[x := [HandshakeAck(x)]], s.net.open + {x}))
  {
    ReachableOk(run, slack, i);
    assert StepAt(run, i, slack);
  }
}
