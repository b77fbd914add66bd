/**
 The room manager as an object: the Maps of server/src/manager.ts, the `Room` objects in them and the sockets.
 Whatever one of its rooms does, all of them together are in the state a step of `Server` gives.
 */
module ManagerObjects {
  import opened Wrappers
  import opened Keys
  import opened Protocol
  import opened Channels
  import opened Sockets
  import opened Server
  import opened RoomObjects
  import opened RoomSets
  import opened Conservation
  import R = Rooms

  class RoomManager {
    const maxPlayers: nat
    const wire: Wire
    var now: int
    var order: seq<Code>
    var rooms: map<Code, Room>
    var playerRoom: map<PlayerId, Code>
    ghost var joined: set<PlayerId>
    ghost var retired: seq<R.Room>

    /** Every room is in order, and no two share an object. */
    ghost predicate Valid()
      reads this, Parts(rooms)
    {
      AllValid(rooms) && AllApart(rooms, wire)
    }

    ghost function View(): State
      reads this, wire, Parts(rooms), Leaves(rooms)
    {
      State(now, maxPlayers, order, ViewsOf(rooms), playerRoom, wire.net, joined, retired)
    }

    predicate InRoom(playerId: PlayerId)
      reads this
    {
      playerId in playerRoom && playerRoom[playerId] != NO_CODE && playerRoom[playerId] in rooms
    }

    /** What the room of a player may write. */
    ghost function Writable(playerId: PlayerId): set<object>
      reads this, Parts(rooms)
    {
      if InRoom(playerId) then rooms[playerRoom[playerId]].Writable() else {}
    }

    constructor (maxPlayers: nat)
      ensures Valid() && View() == Boot(maxPlayers) && fresh(wire)
    {
      this.maxPlayers := maxPlayers;
      wire := new Wire();
      now, order, rooms, playerRoom, joined, retired := 0, [], map[], map[], {}, [];
      new;
      assert ViewsOf(rooms) == map[];
    }

    function GetRoomForPlayer(playerId: PlayerId): (code: Option<Code>)
      reads this
      ensures code.Some? <==> InRoom(playerId)
      ensures code.Some? ==> code.value == playerRoom[playerId]
    {
      if InRoom(playerId) then Some(playerRoom[playerId]) else None
    }

    /** A room of the Map, and what it may write. */
    lemma Ready(code: Code)
      requires Valid() && code in rooms
      ensures Alongside(rooms[code], rooms - {code}) && rooms[code].connections.wire == wire
      ensures this !in rooms[code].Writable()
    {}

    // ---- one room of the Map ---------------------------------------------------------------------------------

    method CutsceneIn(code: Code, id: PlayerId, active: bool)
      requires Valid() && code in rooms
      modifies rooms[code].Writable(), wire
      ensures unchanged(this) && Valid()
              && View() == Put(old(View()), code, R.SetCutscene(old(rooms[code].View()), id, active))
    {
      ghost var e := R.SetCutscene(rooms[code].View(), id, active);
      Ready(code);
      SetCutscene(rooms[code], rooms - {code}, id, active);
      Combined(this, code, e);
    }

    method StartIn(code: Code, puzzleId: PuzzleId)
      requires Valid() && code in rooms
      modifies rooms[code].Writable(), wire
      ensures unchanged(this) && Valid()
              && View() == Put(old(View()), code, R.StartPuzzle(old(rooms[code].View()), puzzleId, now))
    {
      ghost var e := R.StartPuzzle(rooms[code].View(), puzzleId, now);
      Ready(code);
      StartPuzzle(rooms[code], rooms - {code}, puzzleId, now);
      Combined(this, code, e);
    }

    method PassIn(code: Code, puzzleId: PuzzleId, id: PlayerId)
      requires Valid() && code in rooms
      modifies rooms[code].Writable(), wire
      ensures unchanged(this) && Valid()
              && View() == Put(old(View()), code, R.PassPuzzle(old(rooms[code].View()), puzzleId, id, now))
    {
      ghost var e := R.PassPuzzle(rooms[code].View(), puzzleId, id, now);
      Ready(code);
      PassPuzzle(rooms[code], rooms - {code}, puzzleId, id, now);
      Combined(this, code, e);
    }

    /** A token timer of a room goes off. */
    method OnTokenTimer(code: Code, handle: nat)
      requires Valid() && code in rooms && handle in rooms[code].puzzleManager.armed
      modifies rooms[code].Writable(), wire
      ensures unchanged(this) && Valid()
              && View() == Put(old(View()), code, R.FireTimer(old(rooms[code].View()), handle, now))
    {
      ghost var e := R.FireTimer(rooms[code].View(), handle, now);
      Ready(code);
      RoomSets.OnTokenTimer(rooms[code], rooms - {code}, handle, now);
      Combined(this, code, e);
    }

    /** The interval of a room's state. */
    method OnInterval(code: Code) returns (ghost e: R.Effect)
      requires Valid() && code in rooms
      modifies rooms[code].Writable(), wire
      ensures unchanged(this) && Valid() && e == R.Tick(old(rooms[code].View())) && View() == Put(old(View()), code, e)
    {
      Ready(code);
      e := RoomSets.OnInterval(rooms[code], rooms - {code});
      Combined(this, code, e);
    }

    /** A member's own entry changes. */
    method UpdateIn(code: Code, id: PlayerId, patch: Patch)
      requires Valid() && code in rooms
      modifies rooms[code].state.players.Values
      ensures unchanged(this) && Valid() && View() == var s := old(View());
              s.(rooms := s.rooms[code := R.UpdatePlayer(s.rooms[code], id, patch)])
    {
      ghost var r := R.UpdatePlayer(rooms[code].View(), id, patch);
      Ready(code);
      UpdatePlayer(rooms[code], rooms - {code}, id, patch);
      CombinedViews(rooms, code, r);
    }

    /** A player enters the room. */
    method AddIn(code: Code, id: PlayerId)
      requires Valid() && code in rooms && id !in rooms[code].connections.order
      modifies rooms[code].Writable(), wire
      ensures unchanged(this) && Valid() && View() == Put(old(View()), code, R.AddPlayer(old(rooms[code].View()), id))
    {
      ghost var e := R.AddPlayer(rooms[code].View(), id);
      Ready(code);
      AddPlayer(rooms[code], rooms - {code}, id);
      Combined(this, code, e);
    }

    /** A player leaves the room. */
    method RemoveIn(code: Code, id: PlayerId) returns (empty: bool)
      requires Valid() && code in rooms
      modifies rooms[code].Writable(), wire
      ensures unchanged(this) && Valid()
              && View() == Put(old(View()), code, R.RemovePlayer(old(rooms[code].View()), id, now))
      ensures empty == (|View().rooms[code].conns| == 0)
    {
      ghost var e := R.RemovePlayer(rooms[code].View(), id, now);
      Ready(code);
      empty := RoomSets.RemovePlayer(rooms[code], rooms - {code}, id, now);
      Combined(this, code, e);
    }

    /** A packet to everyone in a room, which stays as it is. */
    method TellIn(code: Code, msg: Msg)
      requires Valid() && code in rooms
      modifies wire
      ensures Valid()
      ensures View() == var s := old(View()); s.(net := Send(s.net, Elements(s.rooms[code].conns), [msg]))
    {
      rooms[code].connections.Broadcast(msg);
      Bystanders(rooms, this, wire, {this, wire});
    }

    /** A new session, on a socket of its own. */
    method Accept(playerId: PlayerId)
      requires Valid()
      modifies wire
      ensures Valid() && View() == OnHandshake(old(View()), playerId)
    {
      wire.Accept(playerId);
      Bystanders(rooms, this, wire, {this, wire});
    }

    /** A packet to one session. */
    method Tell(playerId: PlayerId, msg: Msg)
      requires Valid()
      modifies wire
      ensures unchanged(this) && Valid() && View() == old(View()).(net := Send(old(View()).net, {playerId}, [msg]))
    {
      wire.SafeSend(playerId, msg);
      Bystanders(rooms, this, wire, {this, wire});
    }

    method CloseSocket(playerId: PlayerId)
      requires Valid()
      modifies wire
      ensures Valid() && View() == Hangup(old(View()), playerId)
    {
      wire.Close(playerId);
      Bystanders(rooms, this, wire, {this, wire});
    }

    // ---- the Maps --------------------------------------------------------------------------------------------

    /** A room that is not in the Map yet, and shares no object with those that are, is listed last. */
    method List(code: Code, room: Room)
      requires Valid() && code !in rooms && Alongside(room, rooms) && room.connections.wire == wire
      modifies this`order, this`rooms
      ensures Valid() && rooms == old(rooms)[code := room]
      ensures View() == var s := old(View()); s.(rooms := s.rooms[code := old(room.View())], order := s.order + [code])
    {
      ghost var all := rooms[code := room];
      Listed(rooms, code, room);
      rooms := rooms[code := room];
      order := order + [code];
      Bystanders(all, this, wire, {this, wire});
    }

    /** A new room, made of new objects. */
    method CreateRoom(code: Code, hostId: PlayerId, password: string) returns (room: Room)
      requires Valid() && code !in rooms
      modifies this`order, this`rooms
      ensures Valid() && fresh(room) && rooms == old(rooms)[code := room] && fresh(room.Writable())
      ensures room.connections.order == []
      ensures View() == Server.CreateRoom(old(View()), code, hostId, password)
    {
      room := new Room(hostId, password, maxPlayers, wire);
      Bystanders(rooms, this, wire, {this, wire});
      ghost var made := room.Writable();
      List(code, room);
      assert room.Writable() == made;
    }

    method Bind(playerId: PlayerId, code: Code)
      requires Valid()
      modifies this`playerRoom
      ensures Valid() && View() == old(View()).(playerRoom := old(playerRoom)[playerId := code])
    {
      playerRoom := playerRoom[playerId := code];
      Bystanders(rooms, this, wire, {this, wire});
    }

    method Unbind(playerId: PlayerId)
      requires Valid()
      modifies this`playerRoom
      ensures Valid() && View() == old(View()).(playerRoom := old(playerRoom) - {playerId})
    {
      playerRoom := playerRoom - {playerId};
      Bystanders(rooms, this, wire, {this, wire});
    }

    /** A room is no longer listed. */
    method Destroy(code: Code)
      requires Valid() && code in rooms
      modifies this`rooms, this`order, this`retired
      ensures Valid()
      ensures View() == var s := old(View());
                        s.(rooms := s.rooms - {code}, order := Without(s.order, code),
                           retired := s.retired + [s.rooms[code]])
    {
      ghost var rest := rooms - {code};
      ghost var was: map<Code, R.Room> := ViewsOf(rooms);
      Split(rooms, code);
      assert ViewsOf(rest) == was - {code} && rooms[code].View() == was[code];
      retired := retired + [rooms[code].View()];
      rooms := rooms - {code};
      order := Without(order, code);
      Bystanders(rest, this, wire, {this, wire});
    }

    /** The player is bound to the room before the room takes it in. */
    method BindPlayer(playerId: PlayerId, code: Code)
      requires Valid() && code in rooms && playerId !in rooms[code].connections.order
      modifies this`playerRoom, rooms[code].Writable(), wire
      ensures Valid() && rooms == old(rooms)
      ensures View() == Put(old(View()).(playerRoom := old(playerRoom)[playerId := code]), code,
                            R.AddPlayer(old(rooms[code].View()), playerId))
    {
      ghost var r := rooms[code].View();
      Bind(playerId, code);
      ghost var bound := View();
      assert bound.rooms[code] == r;
      AddIn(code, playerId);
      assert View() == Put(bound, code, R.AddPlayer(r, playerId));
    }

    /** Out of both Maps; a room that is empty now is destroyed. */
    method RemovePlayer(playerId: PlayerId)
      requires Valid()
      modifies this, Writable(playerId), wire
      ensures Valid() && View() == RemoveMember(old(View()), playerId)
    {
      if playerId !in playerRoom || playerRoom[playerId] == NO_CODE {
        return;
      }
      ghost var s := View();
      var code := playerRoom[playerId];
      Unbind(playerId);
      if code !in rooms {
        return;
      }
      ghost var e := R.RemovePlayer(rooms[code].View(), playerId, now);
      var empty := RemoveIn(code, playerId);
      if empty {
        Destroy(code);
        DroppedIs(s.rooms, code, e.room);
      }
    }

    method KickPlayer(playerId: PlayerId) returns (found: bool)
      requires Valid()
      modifies this, Writable(playerId), wire
      ensures Valid() && found == HasRoom(old(View()), playerId)
      ensures View() == if found then RemoveMember(Hangup(old(View()), playerId), playerId) else old(View())
    {
      if !InRoom(playerId) {
        return false;
      }
      CloseSocket(playerId);
      RemovePlayer(playerId);
      return true;
    }

    method TotalPlayers() returns (n: nat)
      requires CodesOk(View().order, View().rooms) && IndexOk(View().rooms, playerRoom)
      requires forall code :: code in rooms ==> Distinct(rooms[code].connections.order)
      ensures n == TotalSize(View().order, View().rooms)
    {
      n := |playerRoom|;
      TotalSizeIs(View().order, View().rooms, playerRoom);
    }
  }

  /** One room more. */
  lemma Listed(rooms: map<Code, Room>, code: Code, room: Room)
    requires code !in rooms && Alongside(room, rooms)
    ensures AllValid(rooms[code := room])
    ensures ViewsOf(rooms[code := room]) == ViewsOf(rooms)[code := room.View()]
  {
    Split(rooms[code := room], code);
    assert rooms[code := room] - {code} == rooms;
  }

  lemma DroppedIs(rooms: map<Code, R.Room>, code: Code, r: R.Room)
    ensures rooms[code := r] - {code} == rooms - {code}
  {}

  /** Only the manager's own fields and the sockets were written. */
  twostate lemma Bystanders(new rooms: map<Code, Room>, new m: RoomManager, new wire: Wire, new written: set<object>)
    requires forall c :: c in rooms ==> old(allocated(rooms[c])) && old(rooms[c].Valid())
    requires written == {m, wire} && forall o: object :: old(allocated(o)) && o !in written ==> unchanged(o)
    ensures AllValid(rooms) && ViewsOf(rooms) == old(ViewsOf(rooms))
  {
    Spared(rooms, written);
  }

  /** The views before, of one room and of the others. */
  twostate lemma SplitBefore(new rooms: map<Code, Room>, new code: Code)
    requires code in rooms && forall c :: c in rooms ==> old(allocated(rooms[c])) && old(rooms[c].Valid())
    ensures old(ViewsOf(rooms)) == old(ViewsOf(rooms - {code}))[code := old(rooms[code].View())]
  {
    ghost var rest := rooms - {code};
    assert forall c :: c in rooms && c != code ==> c in rest && rest[c] == rooms[c];
  }

  /** One room of the Map has changed, and the others have not. */
  twostate lemma CombinedViews(new rooms: map<Code, Room>, new code: Code, new r: R.Room)
    requires code in rooms && forall c :: c in rooms ==> old(allocated(rooms[c])) && old(rooms[c].Valid())
    requires AllValid(rooms - {code}) && ViewsOf(rooms - {code}) == old(ViewsOf(rooms - {code}))
    requires rooms[code].Valid() && rooms[code].View() == r
    ensures AllValid(rooms) && ViewsOf(rooms) == old(ViewsOf(rooms))[code := r]
  {
    Split(rooms, code);
    SplitBefore(rooms, code);
  }

  /** One room of the manager has had an effect. */
  twostate lemma Combined(new m: RoomManager, new code: Code, new e: R.Effect)
    requires old(allocated(m)) && old(m.Valid()) && unchanged(m) && code in m.rooms
    requires old(allocated(m.rooms[code])) && Did(m.rooms[code], m.rooms - {code}, e)
    ensures m.Valid() && m.View() == Put(old(m.View()), code, e)
  {
    CombinedViews(m.rooms, code, e.room);
  }
}
