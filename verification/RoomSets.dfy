/**
 Several `Room` objects side by side: rooms that share no object do not notice what another does. Each operation
 of a room is given here once more with what it leaves alone.
 */
module RoomSets {
  import opened Protocol
  import opened Channels
  import opened Sockets
  import opened Server
  import opened RoomObjects
  import R = Rooms

  ghost function Parts(rooms: map<Code, Room>): set<object> {
    rooms.Values
    + (set c | c in rooms :: rooms[c].connections)
    + (set c | c in rooms :: rooms[c].state)
    + (set c | c in rooms :: rooms[c].puzzleManager)
  }

  /** The records and sessions of the rooms. */
  ghost function Leaves(rooms: map<Code, Room>): set<object>
    reads Parts(rooms)
  {
    (set c, id | c in rooms && id in rooms[c].state.players :: rooms[c].state.players[id])
    + (set c, id | c in rooms && id in rooms[c].state.lastBroadcast :: rooms[c].state.lastBroadcast[id])
    + (set c, p | c in rooms && p in rooms[c].puzzleManager.puzzles :: rooms[c].puzzleManager.puzzles[p])
  }

  ghost function ViewsOf(rooms: map<Code, Room>): map<Code, R.Room>
    reads Parts(rooms), Leaves(rooms)
  {
    map c | c in rooms :: rooms[c].View()
  }

  ghost predicate AllValid(rooms: map<Code, Room>)
    reads Parts(rooms)
  {
    forall c :: c in rooms ==> rooms[c].Valid()
  }

  /** No two rooms share an object, and all of them send on the same sockets. */
  ghost predicate AllApart(rooms: map<Code, Room>, wire: Wire) {
    && (forall c :: c in rooms ==> rooms[c].connections.wire == wire)
    && (forall a, b :: a in rooms && b in rooms && a != b ==> Apart(rooms[a], rooms[b]))
  }

  /** Rooms none of whose objects were written. */
  twostate lemma SameRooms(rooms: map<Code, Room>)
    requires forall c :: c in rooms ==> old(allocated(rooms[c])) && old(rooms[c].Valid()) && Undisturbed(rooms[c])
    ensures AllValid(rooms) && ViewsOf(rooms) == old(ViewsOf(rooms))
  {
    forall c | c in rooms ensures rooms[c].Valid() && rooms[c].View() == old(rooms[c].View()) {
      SameRoom(rooms[c]);
    }
  }

  /** A room of a Map, and the others. */
  lemma Split(rooms: map<Code, Room>, code: Code)
    requires code in rooms
    ensures AllValid(rooms) <==> AllValid(rooms - {code}) && rooms[code].Valid()
    ensures ViewsOf(rooms) == ViewsOf(rooms - {code})[code := rooms[code].View()]
  {
    var rest := rooms - {code};
    assert forall c :: c in rooms && c != code ==> c in rest && rest[c] == rooms[c];
  }

  /** A room and others it shares no object with. */
  ghost predicate Alongside(r: Room, rest: map<Code, Room>)
    reads r, r.connections, r.state, r.puzzleManager, Parts(rest)
  {
    r.Valid() && AllValid(rest) && forall c :: c in rest ==> Apart(rest[c], r)
  }

  /** What the room may write is no object of the others. */
  lemma Owned(r: Room, rest: map<Code, Room>)
    requires Alongside(r, rest)
    ensures forall c :: c in rest ==>
              rest[c] !in r.Writable() && rest[c].connections !in r.Writable()
              && rest[c].state !in r.Writable() && rest[c].puzzleManager !in r.Writable()
    ensures forall c, i :: c in rest && i in rest[c].state.players ==> rest[c].state.players[i] !in r.Writable()
    ensures forall c, i :: c in rest && i in rest[c].state.lastBroadcast ==>
              rest[c].state.lastBroadcast[i] !in r.Writable()
    ensures forall c, i :: c in rest && i in rest[c].puzzleManager.puzzles ==>
              rest[c].puzzleManager.puzzles[i] !in r.Writable()
  {}

  /** Rooms that own nothing of what may have been written. */
  twostate lemma Spared(new rest: map<Code, Room>, new written: set<object>)
    requires forall c :: c in rest ==> old(allocated(rest[c])) && old(rest[c].Valid())
    requires forall c :: c in rest ==>
               && rest[c] !in written && rest[c].connections !in written
               && rest[c].state !in written && rest[c].puzzleManager !in written
    requires forall c, i :: c in rest && i in old(rest[c].state.players) ==>
               old(rest[c].state.players[i]) !in written
    requires forall c, i :: c in rest && i in old(rest[c].state.lastBroadcast) ==>
               old(rest[c].state.lastBroadcast[i]) !in written
    requires forall c, i :: c in rest && i in old(rest[c].puzzleManager.puzzles) ==>
               old(rest[c].puzzleManager.puzzles[i]) !in written
    requires forall o: object :: old(allocated(o)) && o !in written ==> unchanged(o)
    ensures AllValid(rest) && ViewsOf(rest) == old(ViewsOf(rest))
  {
    SameRooms(rest);
  }

  /** What a room did to itself, to the sockets and to the others: what the effect says, and nothing. */
  twostate predicate Did(r: Room, rest: map<Code, Room>, e: R.Effect)
    reads r, r.connections, r.state, r.puzzleManager, r.connections.wire
    reads r.state.players.Values, r.state.lastBroadcast.Values, r.puzzleManager.puzzles.Values
    reads Parts(rest), Leaves(rest)
  {
    && r.Valid() && r.View() == e.room
    && r.connections.wire.net == Post(old(r.connections.wire.net), e)
    && AllValid(rest) && ViewsOf(rest) == old(ViewsOf(rest))
  }

  method AddPlayer(r: Room, ghost rest: map<Code, Room>, id: PlayerId)
    requires Alongside(r, rest) && id !in r.connections.order
    modifies r.Writable(), r.connections.wire
    ensures Did(r, rest, R.AddPlayer(old(r.View()), id))
  {
    ghost var written: set<object> := r.Writable() + {r.connections.wire};
    Owned(r, rest);
    r.AddPlayer(id);
    Spared(rest, written);
  }

  method RemovePlayer(r: Room, ghost rest: map<Code, Room>, id: PlayerId, now: int) returns (empty: bool)
    requires Alongside(r, rest)
    modifies r.Writable(), r.connections.wire
    ensures Did(r, rest, R.RemovePlayer(old(r.View()), id, now)) && empty == (|r.View().conns| == 0)
  {
    ghost var written: set<object> := r.Writable() + {r.connections.wire};
    Owned(r, rest);
    empty := r.RemovePlayer(id, now);
    Spared(rest, written);
  }

  method SetCutscene(r: Room, ghost rest: map<Code, Room>, id: PlayerId, active: bool)
    requires Alongside(r, rest)
    modifies r.Writable(), r.connections.wire
    ensures Did(r, rest, R.SetCutscene(old(r.View()), id, active))
  {
    ghost var written: set<object> := r.Writable() + {r.connections.wire};
    Owned(r, rest);
    var known := r.SetCutscene(id, active);
    Spared(rest, written);
  }

  method UpdatePlayer(r: Room, ghost rest: map<Code, Room>, id: PlayerId, patch: Patch)
    requires Alongside(r, rest)
    modifies r.state.players.Values
    ensures r.Valid() && r.View() == R.UpdatePlayer(old(r.View()), id, patch)
    ensures AllValid(rest) && ViewsOf(rest) == old(ViewsOf(rest))
  {
    ghost var written: set<object> := r.Writable() + {r.connections.wire};
    Owned(r, rest);
    r.UpdatePlayer(id, patch);
    Spared(rest, written);
  }

  method OnInterval(r: Room, ghost rest: map<Code, Room>) returns (ghost e: R.Effect)
    requires Alongside(r, rest)
    modifies r.Writable(), r.connections.wire
    ensures e == R.Tick(old(r.View())) && Did(r, rest, e)
  {
    ghost var written: set<object> := r.Writable() + {r.connections.wire};
    Owned(r, rest);
    e := r.OnInterval();
    Spared(rest, written);
  }

  method StartPuzzle(r: Room, ghost rest: map<Code, Room>, puzzleId: PuzzleId, now: int)
    requires Alongside(r, rest)
    modifies r.Writable(), r.connections.wire
    ensures Did(r, rest, R.StartPuzzle(old(r.View()), puzzleId, now))
  {
    ghost var written: set<object> := r.Writable() + {r.connections.wire};
    Owned(r, rest);
    r.StartPuzzle(puzzleId, now);
    Spared(rest, written);
  }

  method PassPuzzle(r: Room, ghost rest: map<Code, Room>, puzzleId: PuzzleId, id: PlayerId, now: int)
    requires Alongside(r, rest)
    modifies r.Writable(), r.connections.wire
    ensures Did(r, rest, R.PassPuzzle(old(r.View()), puzzleId, id, now))
  {
    ghost var written: set<object> := r.Writable() + {r.connections.wire};
    Owned(r, rest);
    r.PassPuzzle(puzzleId, id, now);
    Spared(rest, written);
  }

  method OnTokenTimer(r: Room, ghost rest: map<Code, Room>, handle: nat, now: int)
    requires Alongside(r, rest) && handle in r.puzzleManager.armed
    modifies r.Writable(), r.connections.wire
    ensures Did(r, rest, R.FireTimer(old(r.View()), handle, now))
  {
    ghost var written: set<object> := r.Writable() + {r.connections.wire};
    Owned(r, rest);
    r.OnTokenTimer(handle, now);
    Spared(rest, written);
  }
}
