/**
 What a departure does, over every run: who is gone, who moves up, what becomes of the puzzles and what the others
 are told. The laws speak of the states before and after, not of how the server gets from one to the other.
 */
module Departures {
  import opened Keys
  import opened Protocol
  import opened Puzzles
  import opened Rooms
  import opened Channels
  import opened Server
  import opened ServerInvariant
  import opened Runs

  /** x is taken out, and whoever was behind it moves up by one. */
  ghost predicate ClosedUp(was: seq<nat>, now: seq<nat>, x: nat) {
    exists i :: 0 <= i < |was| && was[i] == x && now == was[..i] + was[i + 1..]
  }

  lemma WithoutClosesUp(s: seq<nat>, x: nat)
    requires x in s
    ensures ClosedUp(s, Without(s, x), x)
  {}

  // ---- the puzzles -------------------------------------------------------------------------------------------

  /** What a token that was granted then has left, in milliseconds. */
  function TimeLeft(s: PuzzleSession, now: int): int {
    if now - s.tokenGrantedAt > s.tokenDuration then 0 else s.tokenDuration - (now - s.tokenGrantedAt)
  }

  /**
   A live puzzle after x has left: over if x was its only player, otherwise with the head of the others in
   control.
   */
  ghost predicate PuzzleLeft(z: PuzzleState, y: PuzzleState, p: PuzzleId, x: PlayerId, now: int, msgs: seq<Msg>)
    requires p in z.sessions
  {
    var s := z.sessions[p];
    if x !in s.controlQueue then p in y.sessions && y.sessions[p] == s
    else if |s.controlQueue| == 1 then p !in y.sessions && PuzzleEnd(p) in msgs
    else
      && p in y.sessions && |y.sessions[p].controlQueue| > 0
      && var u := y.sessions[p];
         && ClosedUp(s.controlQueue, u.controlQueue, x) && u.currentController == u.controlQueue[0]
         && u.tokenDuration == s.tokenDuration
         && u.tokenGrantedAt == (if s.currentController == x then now else s.tokenGrantedAt)
         && PuzzleToken(p, u.currentController, TimeLeft(u, now), u.controlQueue) in msgs
  }

  ghost predicate OfPuzzlesOnly(msgs: seq<Msg>) {
    forall i :: 0 <= i < |msgs| ==> msgs[i].PuzzleToken? || msgs[i].PuzzleEnd?
  }

  lemma DropLeft(z: PuzzleState, p: PuzzleId, x: PlayerId, now: int, members: set<PlayerId>)
    requires QueuesOk(z, members) && p in z.sessions
    ensures var o := Drop(z, p, x, now); PuzzleLeft(z, o.z, p, x, now, o.msgs) && OfPuzzlesOnly(o.msgs)
  {
    var q := z.sessions[p].controlQueue;
    assert QueueOk(z.sessions[p], members);
    if x in q {
      WithoutKeys(q, x);
      WithoutClosesUp(q, x);
    }
  }

  lemma {:induction false} DropAllSheds(z: PuzzleState, ids: seq<PuzzleId>, x: PlayerId, now: int)
    ensures DropAll(z, ids, x, now).z.sessions.Keys <= z.sessions.Keys
    ensures OfPuzzlesOnly(DropAll(z, ids, x, now).msgs)
    decreases |ids|
  {
    if |ids| > 0 {
      DropAllSheds(Drop(z, ids[0], x, now).z, ids[1..], x, now);
    }
  }

  lemma {:induction false} DropAllLeft(
      z: PuzzleState, ids: seq<PuzzleId>, p: PuzzleId, x: PlayerId, now: int, members: set<PlayerId>)
    requires OrderOk(z) && QueuesOk(z, members) && Distinct(ids) && p in ids && p in z.sessions
    ensures var o := DropAll(z, ids, x, now); PuzzleLeft(z, o.z, p, x, now, o.msgs)
    decreases |ids|
  {
    var first := Drop(z, ids[0], x, now);
    DropQueues(z, ids[0], x, now, members);
    if ids[0] == p {
      DropLeft(z, p, x, now, members);
      if p in first.z.sessions {
        DropAllKeeps(first.z, ids[1..], p, x, now);
      } else {
        DropAllSheds(first.z, ids[1..], x, now);
      }
    } else {
      DropAllLeft(first.z, ids[1..], p, x, now, members);
    }
  }

  /** All puzzles, and the timers that are pending then. */
  ghost predicate PuzzlesLeft(z: PuzzleState, y: PuzzleState, x: PlayerId, now: int, msgs: seq<Msg>) {
    && y.sessions.Keys <= z.sessions.Keys && TimersOk(y)
    && forall p :: p in z.sessions ==> PuzzleLeft(z, y, p, x, now, msgs)
  }

  lemma DisconnectLeft(z: PuzzleState, x: PlayerId, now: int, members: set<PlayerId>)
    requires OrderOk(z) && QueuesOk(z, members) && TimersOk(z)
    ensures var o := Disconnect(z, x, now); PuzzlesLeft(z, o.z, x, now, o.msgs) && OfPuzzlesOnly(o.msgs)
  {
    DisconnectOk(z, x, now, members);
    DropAllSheds(z, z.order, x, now);
    forall p | p in z.sessions ensures PuzzleLeft(z, Disconnect(z, x, now).z, p, x, now, Disconnect(z, x, now).msgs) {
      DropAllLeft(z, z.order, p, x, now, members);
    }
  }

  // ---- the room ------------------------------------------------------------------------------------------------

  /** A room of several after x has left it: the first of those who stay is host, and nothing else has changed. */
  ghost predicate RoomLeft(r: Room, t: Room, x: PlayerId, now: int, msgs: seq<Msg>) {
    && ClosedUp(r.conns, t.conns, x) && |t.conns| > 0 && t.hostId == t.conns[0]
    && t.players.Keys == r.players.Keys - {x}
    && (forall y :: y in t.players ==> t.players[y] == r.players[y].(isHost := y == t.conns[0]))
    && t.last == r.last - {x}
    && t.password == r.password && t.maxPlayers == r.maxPlayers && t.ticking == r.ticking
    && PuzzlesLeft(r.puzzles, t.puzzles, x, now, msgs)
  }

  /** What those who stay are told: of the puzzles, of the departure, and of a new host. */
  function Farewell(r: Room, x: PlayerId, msgs: seq<Msg>): seq<Msg>
    requires |r.conns| > 0
  {
    msgs + [PlayerLeave(x)] + if r.conns[0] == x && |r.conns| > 1 then [HostReassign(r.conns[1])] else []
  }

  lemma LeaveLeft(r: Room, x: PlayerId, dropped: Out, now: int)
    requires KeysOk(r) && HostOk(r) && x in r.conns && |r.conns| > 1
    requires PuzzlesLeft(r.puzzles, dropped.z, x, now, dropped.msgs)
    ensures var e := Leave(r, x, dropped);
            RoomLeft(r, e.room, x, now, dropped.msgs) && e.to == Elements(e.room.conns)
            && e.msgs == Farewell(r, x, dropped.msgs)
  {
    WithoutKeys(r.conns, x);
    WithoutClosesUp(r.conns, x);
  }

  lemma SomeoneStays(r: Room, x: PlayerId)
    requires KeysOk(r) && x in r.conns
    ensures |Without(r.conns, x)| == |r.conns| - 1
    ensures |r.conns| > 1 <==> exists y :: y in r.conns && y != x
  {
    WithoutKeys(r.conns, x);
    assert |r.conns| > 1 ==> r.conns[0] != r.conns[1] && r.conns[0] in r.conns && r.conns[1] in r.conns;
    assert |r.conns| == 1 ==> x == r.conns[0];
  }

  // ---- the server ----------------------------------------------------------------------------------------------

  /** In no index and in no room. */
  ghost predicate Absent(s: State, x: PlayerId) {
    && x !in s.playerRoom
    && forall code :: code in s.rooms ==>
         x !in s.rooms[code].conns && x !in s.rooms[code].players && x !in s.rooms[code].last
  }

  lemma UnboundIsAbsent(s: State, x: PlayerId)
    requires IndexOk(s.rooms, s.playerRoom) && RoomsOk(s.rooms) && x !in s.playerRoom
    ensures Absent(s, x)
  {
    forall code | code in s.rooms
      ensures x !in s.rooms[code].conns && x !in s.rooms[code].players && x !in s.rooms[code].last
    {
      assert KeysOk(s.rooms[code]);
    }
  }

  /** x has heard the first part, the other open members both parts, and nobody else anything. */
  ghost predicate Heard(was: Net, now: Net, r: Room, x: PlayerId, first: seq<Msg>, farewell: seq<Msg>) {
    && now.logs.Keys == was.logs.Keys
    && forall y :: y in was.logs ==>
         now.logs[y] == was.logs[y] + if y !in was.open || y !in r.conns then []
                                      else if y == x then first else first + farewell
  }

  /** The room is listed exactly if somebody stays; a room that is not is stopped, empty and without timers. */
  ghost predicate RoomsLeft(s: State, t: State, code: Code, x: PlayerId)
    requires code in s.rooms
  {
    && (code in t.rooms <==> exists y :: y in s.rooms[code].conns && y != x)
    && (forall c :: c != code ==> (c in t.rooms <==> c in s.rooms))
    && (forall c :: c != code && c in s.rooms ==> t.rooms[c] == s.rooms[c])
    && if code in t.rooms then t.order == s.order && t.retired == s.retired
       else
         && ClosedUp(s.order, t.order, code) && |t.retired| == |s.retired| + 1 && t.retired[..|s.retired|] == s.retired
         && var dead := t.retired[|s.retired|];
            dead.conns == [] && dead.players == map[] && !dead.ticking && dead.puzzles.timers.armed == map[]
  }

  /** x, which was bound, has left the server, and `first` went to its whole room before. */
  ghost predicate Departed(s: State, t: State, x: PlayerId, first: seq<Msg>) {
    && x in s.playerRoom && s.playerRoom[x] in s.rooms && x in s.rooms[s.playerRoom[x]].conns
    && var code, r := s.playerRoom[x], s.rooms[s.playerRoom[x]];
    && Absent(t, x) && t.playerRoom == s.playerRoom - {x} && t.net.open == s.net.open - {x}
    && t.inRoom == s.inRoom && t.now == s.now && t.maxPlayers == s.maxPlayers
    && RoomsLeft(s, t, code, x)
    && exists msgs ::
         && OfPuzzlesOnly(msgs)
         && Heard(s.net, t.net, r, x, first, Farewell(r, x, msgs))
         && (code in t.rooms ==> RoomLeft(r, t.rooms[code], x, s.now, msgs))
  }

  lemma PostHeard(net: Net, e: Effect, r: Room, x: PlayerId)
    requires x !in net.open && Distinct(r.conns)
    requires e.to == Elements(Without(r.conns, x)) || (e.to == {} && forall y :: y in r.conns ==> y == x)
    ensures Heard(net, Post(net, e), r, x, [], e.msgs)
  {
    WithoutKeys(r.conns, x);
    assert forall y :: y in net.logs ==> [] + e.msgs == e.msgs;
  }

  /** A farewell that nobody is there to hear. */
  lemma NobodyHears(was: Net, now: Net, r: Room, x: PlayerId, first: seq<Msg>, a: seq<Msg>, b: seq<Msg>)
    requires Heard(was, now, r, x, first, a) && forall y :: y in r.conns ==> y == x
    ensures Heard(was, now, r, x, first, b)
  {}

  lemma StaysListed(s: State, code: Code, x: PlayerId, e: Effect)
    requires code in s.rooms && |e.room.conns| > 0 && exists y :: y in s.rooms[code].conns && y != x
    ensures RoomsLeft(s, Left(s, code, x, e), code, x)
  {}

  lemma GoesUnlisted(s: State, code: Code, x: PlayerId, e: Effect)
    requires code in s.rooms && code in s.order && |e.room.conns| == 0 && Dead(e.room)
    requires forall y :: y in s.rooms[code].conns ==> y == x
    ensures RoomsLeft(s, Left(s, code, x, e), code, x)
  {
    WithoutClosesUp(s.order, code);
  }

  lemma RoomDeparts(r: Room, x: PlayerId, now: int)
    requires RoomOk(r) && x in r.conns
    ensures var e, msgs := RemovePlayer(r, x, now), Disconnect(r.puzzles, x, now).msgs;
            && OfPuzzlesOnly(msgs)
            && (|r.conns| == 1 ==> |e.room.conns| == 0 && Dead(e.room) && e.to == {})
            && (|r.conns| > 1 ==>
                  && RoomLeft(r, e.room, x, now, msgs) && e.room.conns == Without(r.conns, x)
                  && e.to == Elements(e.room.conns) && e.msgs == Farewell(r, x, msgs))
  {
    SomeoneStays(r, x);
    DisconnectLeft(r.puzzles, x, now, Elements(r.conns));
    if |r.conns| == 1 {
      RemovePlayerOk(r, x, now);
    } else {
      LeaveLeft(r, x, Disconnect(r.puzzles, x, now), now);
    }
  }

  /** A departure that leaves the rooms and the connections so. */
  lemma LeftDeparts(s: State, code: Code, x: PlayerId, e: Effect, msgs: seq<Msg>)
    requires x in s.playerRoom && s.playerRoom[x] == code && x !in s.net.open
    requires code in s.rooms && x in s.rooms[code].conns && OfPuzzlesOnly(msgs)
    requires Absent(Left(s, code, x, e), x) && RoomsLeft(s, Left(s, code, x, e), code, x)
    requires Heard(s.net, Post(s.net, e), s.rooms[code], x, [], Farewell(s.rooms[code], x, msgs))
    requires |e.room.conns| > 0 ==> RoomLeft(s.rooms[code], e.room, x, s.now, msgs)
    ensures Departed(s, Left(s, code, x, e), x, [])
  {}

  lemma MemberLeaves(s: State, code: Code, x: PlayerId)
    requires x in s.playerRoom && s.playerRoom[x] == code && code in s.rooms && x !in s.net.open && code in s.order
    requires RoomOk(s.rooms[code]) && x in s.rooms[code].conns
    requires Absent(Left(s, code, x, RemovePlayer(s.rooms[code], x, s.now)), x)
    ensures Departed(s, Left(s, code, x, RemovePlayer(s.rooms[code], x, s.now)), x, [])
  {
    var r := s.rooms[code];
    var e, msgs := RemovePlayer(r, x, s.now), Disconnect(r.puzzles, x, s.now).msgs;
    SomeoneStays(r, x);
    RoomDeparts(r, x, s.now);
    PostHeard(s.net, e, r, x);
    if |r.conns| == 1 {
      NobodyHears(s.net, Post(s.net, e), r, x, [], e.msgs, Farewell(r, x, msgs));
      GoesUnlisted(s, code, x, e);
    } else {
      StaysListed(s, code, x, e);
    }
    LeftDeparts(s, code, x, e, msgs);
  }

  lemma RemoveAbsent(s: State, x: PlayerId, slack: nat)
    requires Inv(s, slack) && x in s.playerRoom
    ensures Absent(RemoveMember(s, x), x)
  {
    RemoveStep(s, x, slack);
    RemoveUnbinds(s, x);
    UnboundIsAbsent(RemoveMember(s, x), x);
  }

  lemma RemoveUnbinds(s: State, x: PlayerId)
    requires NO_CODE !in s.rooms && IndexOk(s.rooms, s.playerRoom)
    ensures x !in RemoveMember(s, x).playerRoom
  {}

  lemma BoundIsMember(s: State, x: PlayerId, slack: nat)
    requires Inv(s, slack) && x in s.playerRoom
    ensures var code := s.playerRoom[x];
            code in s.rooms && code != NO_CODE && code in s.order && x in s.rooms[code].conns && RoomOk(s.rooms[code])
  {}

  lemma RemoveDeparts(s: State, x: PlayerId, slack: nat)
    requires Inv(s, slack) && x in s.playerRoom && x !in s.net.open
    ensures Departed(s, RemoveMember(s, x), x, [])
  {
    BoundIsMember(s, x, slack);
    RemoveAbsent(s, x, slack);
    MemberLeaves(s, s.playerRoom[x], x);
  }

  // ---- the two ways to leave -------------------------------------------------------------------------------------

  /** The socket was open until now: what x heard is what it had heard. */
  lemma WasOpen(s: State, t: State, x: PlayerId)
    requires Departed(Hangup(s, x), t, x, [])
    ensures Departed(s, t, x, [])
  {
    var r := s.rooms[s.playerRoom[x]];
    var msgs :| OfPuzzlesOnly(msgs) && Heard(Hangup(s, x).net, t.net, r, x, [], Farewell(r, x, msgs))
                && (s.playerRoom[x] in t.rooms ==> RoomLeft(r, t.rooms[s.playerRoom[x]], x, s.now, msgs));
    assert Heard(s.net, t.net, r, x, [], Farewell(r, x, msgs));
  }

  /** ... and before that the room was told. */
  lemma WasAnnounced(s: State, t: State, x: PlayerId)
    requires x in s.playerRoom && HasRoom(s, x) && x in s.rooms[s.playerRoom[x]].conns
    requires Departed(Announce(s, x), t, x, [])
    ensures Departed(s, t, x, [Other])
  {
    var r := s.rooms[s.playerRoom[x]];
    var msgs :| OfPuzzlesOnly(msgs) && Heard(Announce(s, x).net, t.net, r, x, [], Farewell(r, x, msgs))
                && (s.playerRoom[x] in t.rooms ==> RoomLeft(r, t.rooms[s.playerRoom[x]], x, s.now, msgs));
    HeardBoth(s.net, t.net, r, x, Farewell(r, x, msgs));
  }

  lemma HeardBoth(was: Net, now: Net, r: Room, x: PlayerId, farewell: seq<Msg>)
    requires Heard(Send(was, Elements(r.conns), [Other]), now, r, x, [], farewell)
    ensures Heard(was, now, r, x, [Other], farewell)
  {
    forall y | y in was.logs
      ensures now.logs[y] == was.logs[y] + if y !in was.open || y !in r.conns then []
                                           else if y == x then [Other] else [Other] + farewell
    {
      assert was.logs[y] + [Other] + ([] + farewell) == was.logs[y] + ([Other] + farewell);
      assert was.logs[y] + [] + [] == was.logs[y] + [];
      assert was.logs[y] + [Other] + [] == was.logs[y] + [Other];
    }
  }

  lemma CloseDeparts(s: State, x: PlayerId, slack: nat)
    requires Inv(s, slack) && x in s.playerRoom
    ensures Departed(s, OnClose(s, x), x, [])
  {
    HangupStep(s, x, slack);
    RemoveDeparts(Hangup(s, x), x, slack);
    WasOpen(s, OnClose(s, x), x);
  }

  lemma KickDeparts(s: State, x: PlayerId, slack: nat)
    requires Inv(s, slack) && x in s.playerRoom
    ensures Departed(s, OnKick(s, x), x, [Other])
  {
    BoundIsMember(s, x, slack);
    NoiseStep(s, Elements(s.rooms[s.playerRoom[x]].conns), slack);
    CloseDeparts(Announce(s, x), x, slack);
    WasAnnounced(s, OnKick(s, x), x);
  }

  lemma ClosesOrKicks(s: State, x: PlayerId)
    ensures Step(s, Close(x)) == OnClose(s, x) && Step(s, Kick(x)) == OnKick(s, x)
  {}

  /**
   A departure, in any run: the player is in no index and no room; the room is listed exactly if somebody else was
   in it; those who stay move up, the first of them is host, and each whose socket is open is told; every puzzle
   goes on among them.
   */
  lemma Departure(run: Run, slack: nat, i: nat, x: PlayerId)
    requires IsRun(run, slack) && i < |run.events| && (run.events[i] == Close(x) || run.events[i] == Kick(x))
    requires x in run.states[i].playerRoom
    ensures Departed(run.states[i], run.states[i + 1], x, if run.events[i].Kick? then [Other] else [])
  {
    ReachableOk(run, slack, i);
    assert StepAt(run, i, slack);
    ClosesOrKicks(run.states[i], x);
    if run.events[i].Kick? {
      KickDeparts(run.states[i], x, slack);
    } else {
      CloseDeparts(run.states[i], x, slack);
    }
  }

  /** Someone who is in no room: a socket may close, and nothing else happens. */
  lemma NobodyDeparts(run: Run, slack: nat, i: nat, x: PlayerId)
    requires IsRun(run, slack) && i < |run.events| && x !in run.states[i].playerRoom
    ensures var s, t := run.states[i], run.states[i + 1];
            && (run.events[i] == Kick(x) ==> t == s)
            && (run.events[i] in {Close(x), SocketDown(x)} ==> t == s.(net := s.net.(open := s.net.open - {x})))
  {
    assert StepAt(run, i, slack);
  }
}
