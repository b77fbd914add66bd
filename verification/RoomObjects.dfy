/**
 A room as an object: server/src/room.ts, with its connections, its state and its puzzle manager. Every method
 leaves the objects, and gives the sockets, what the function of `Rooms` of the same name says.
 */
module RoomObjects {
  import opened Wrappers
  import opened Keys
  import opened Protocol
  import opened Delta
  import opened Channels
  import opened Sockets
  import opened StateObjects
  import opened PuzzleObjects
  import R = Rooms
  import Puzzles

  class Room {
    var hostId: PlayerId
    const password: string
    const maxPlayers: nat
    const connections: Connections
    const state: ServerState
    const puzzleManager: PuzzleManager

    ghost predicate Valid()
      reads this, connections, state, puzzleManager
    {
      connections.Valid() && state.Valid() && puzzleManager.Valid() && state.order == connections.order
    }

    function View(): R.Room
      reads this, connections`order, state, state.players.Values, state.lastBroadcast.Values, puzzleManager,
          puzzleManager.puzzles.Values
    {
      R.Room(hostId, password, maxPlayers, connections.order, state.ticking, state.Live(), state.Last(),
          puzzleManager.View())
    }

    constructor (hostId: PlayerId, password: string, maxPlayers: nat, wire: Wire)
      ensures Valid() && View() == R.NewRoom(hostId, password, maxPlayers) && connections.wire == wire
      ensures fresh(connections) && fresh(state) && fresh(puzzleManager)
    {
      this.hostId, this.password := hostId, password;
      this.maxPlayers := if maxPlayers < R.MAX_PLAYERS_HARD then maxPlayers else R.MAX_PLAYERS_HARD;
      connections := new Connections(wire);
      state := new ServerState();
      puzzleManager := new PuzzleManager();
      new;
      state.Start();
      assert state.Live() == map[] && state.Last() == map[];
    }

    /** What a room's methods may write, but the sockets. */
    ghost function Writable(): set<object>
      reads state, puzzleManager
    {
      {this, connections, state, puzzleManager} + state.players.Values + puzzleManager.puzzles.Values
    }

    predicate IsFull()
      reads this, connections
    {
      |connections.order| >= maxPlayers
    }

    predicate CheckPassword(candidate: Option<string>)
      reads this
    {
      password == "" || candidate == Some(password)
    }

    method Broadcast(msg: Msg)
      requires Valid()
      modifies connections.wire
      ensures Valid() && View() == old(View())
      ensures connections.wire.net == Send(old(connections.wire.net), Elements(View().conns), [msg])
    {
      connections.Broadcast(msg);
    }

    method BroadcastExcept(except: PlayerId, msg: Msg)
      requires Valid()
      modifies connections.wire
      ensures Valid() && View() == old(View())
      ensures connections.wire.net == Send(old(connections.wire.net), Elements(View().conns) - {except}, [msg])
    {
      connections.BroadcastExcept(except, msg);
    }

    /** `connections.set`. */
    method Connect(id: PlayerId)
      requires connections.Valid() && id !in connections.order
      modifies connections
      ensures connections.Valid() && View() == old(View()).(conns := old(View()).conns + [id])
    {
      ghost var r := View();
      connections.Add(id);
      assert state.Live() == r.players && state.Last() == r.last;
    }

    /** `state.addPlayer`, with a new record. */
    method Register(p: PlayerState)
      requires state.Valid() && p.id !in state.players
      modifies state
      ensures state.Valid() && state.order == old(state.order) + [p.id]
      ensures View() == old(View()).(players := old(View()).players[p.id := p])
    {
      ghost var r := View();
      var record := new PlayerRecord(p, state);
      assert state.Live() == r.players && state.Last() == r.last;
      state.AddPlayer(record);
      assert puzzleManager.View() == r.puzzles;
    }

    /** A member enters both Maps. */
    method Enroll(id: PlayerId) returns (ps: PlayerState)
      requires Valid() && id !in connections.order
      modifies connections, state
      ensures Valid() && ps == CreatePlayerState(id).(isHost := id == hostId)
      ensures View() == old(View()).(conns := old(View()).conns + [id], players := old(View()).players[id := ps])
    {
      ps := CreatePlayerState(id).(isHost := id == hostId);
      Connect(id);
      Register(ps);
    }

    /** A new member: everyone else is told. */
    method AddPlayer(id: PlayerId)
      requires Valid() && id !in connections.order
      modifies Writable(), connections.wire
      ensures Valid() && View() == R.AddPlayer(old(View()), id).room
      ensures connections.wire.net == Post(old(connections.wire.net), R.AddPlayer(old(View()), id))
    {
      ghost var r := View();
      var ps := Enroll(id);
      BroadcastExcept(id, PlayerJoin(ps));
      assert Elements(r.conns + [id]) - {id} == Elements(r.conns) - {id};
    }

    method SetHost(host: PlayerId)
      requires Valid()
      modifies this`hostId, state.players.Values
      ensures Valid() && View() == old(View()).(hostId := host, players := R.SetHost(old(View()).players, host))
    {
      ghost var r := View();
      hostId := host;
      assert View() == r.(hostId := host);
      state.SetHost(host);
      assert state.order == r.conns && puzzleManager.View() == r.puzzles;
    }

    /** The longest-present member becomes host. */
    method ReassignHost()
      requires Valid()
      modifies this`hostId, state.players.Values, connections.wire
      ensures Valid()
      ensures var r := old(View());
              if |r.conns| == 0 then View() == r && connections.wire.net == old(connections.wire.net)
              else
                && View() == r.(hostId := r.conns[0], players := R.SetHost(r.players, r.conns[0]))
                && connections.wire.net
                    == Send(old(connections.wire.net), Elements(r.conns), [HostReassign(r.conns[0])])
    {
      if |connections.order| == 0 {
        return;
      }
      SetHost(connections.order[0]);
      Broadcast(HostReassign(hostId));
    }

    method SetScene(id: PlayerId, active: bool)
      requires Valid() && id in connections.order
      modifies state.players.Values
      ensures Valid() && id in old(View()).players
      ensures View() == var r := old(View()); r.(players := r.players[id := r.players[id].(inCutscene := active)])
    {
      ghost var r := View();
      state.SetCutscene(id, active);
      assert puzzleManager.View() == r.puzzles;
    }

    method SetCutscene(id: PlayerId, active: bool) returns (known: bool)
      requires Valid()
      modifies Writable(), connections.wire
      ensures Valid() && known == (id in old(View()).conns)
      ensures View() == R.SetCutscene(old(View()), id, active).room
      ensures connections.wire.net == Post(old(connections.wire.net), R.SetCutscene(old(View()), id, active))
    {
      ghost var r := View();
      if id !in connections.order {
        SendNothing(connections.wire.net, {});
        return false;
      }
      SetScene(id, active);
      BroadcastExcept(id, if active then CutsceneStart(id) else CutsceneEnd(id));
      SceneIs(r, id, active);
      return true;
    }

    method BroadcastDiff(changed: seq<PlayerState>)
      requires Valid()
      modifies connections.wire
      ensures Valid() && View() == old(View())
      ensures connections.wire.net
              == Send(old(connections.wire.net), Elements(View().conns),
                      if |changed| > 0 then [StateUpdate(changed)] else [])
    {
      if |changed| > 0 {
        Broadcast(StateUpdate(changed));
      } else {
        SendNothing(connections.wire.net, Elements(connections.order));
      }
    }

    method TickState() returns (changed: seq<PlayerState>)
      requires Valid()
      modifies state`lastBroadcast
      ensures Valid()
      ensures var r := old(View());
              changed == Changed(r.conns, r.players, r.last) && View() == r.(last := Snapshots(r.players, r.last))
    {
      ghost var r := View();
      changed := state.Tick();
      assert puzzleManager.View() == r.puzzles && state.Live() == r.players;
    }

    /** The interval of the state calls back into the room. */
    method OnInterval() returns (ghost e: R.Effect)
      requires Valid()
      modifies Writable(), connections.wire
      ensures Valid() && e == R.Tick(old(View())) && View() == e.room
      ensures connections.wire.net == Post(old(connections.wire.net), e)
    {
      ghost var r := View();
      var changed := TickState();
      ghost var last := View().last;
      BroadcastDiff(changed);
      TickedIs(r, changed, last);
      e := R.Tick(r);
    }

    /** `connections.delete`. */
    method Disconnect(id: PlayerId)
      requires connections.Valid()
      modifies connections
      ensures connections.Valid() && View() == old(View()).(conns := Without(old(View()).conns, id))
    {
      ghost var r := View();
      connections.Remove(id);
      assert state.Live() == r.players && state.Last() == r.last;
    }

    /** `state.removePlayer`. */
    method Unregister(id: PlayerId)
      requires state.Valid()
      modifies state
      ensures state.Valid() && state.order == Without(old(state.order), id)
              && state.players == old(state.players) - {id}
      ensures View() == old(View()).(players := old(View()).players - {id}, last := old(View()).last - {id})
    {
      ghost var r := View();
      state.RemovePlayer(id);
      assert puzzleManager.View() == r.puzzles;
    }

    /** The puzzles react to a departure, as `d` says; the players are not touched. */
    method DropFromPuzzles(id: PlayerId, now: int, ghost d: Puzzles.Out)
      requires Valid() && d == Puzzles.Disconnect(puzzleManager.View(), id, now)
      modifies puzzleManager, puzzleManager.puzzles.Values, connections.wire
      ensures Valid() && puzzleManager.View() == d.z
      ensures state.Live() == old(state.Live()) && state.Last() == old(state.Last())
      ensures connections.wire.net == Send(old(connections.wire.net), Elements(connections.order), d.msgs)
    {
      puzzleManager.OnPlayerDisconnect(id, connections, now);
      Untouched(state);
    }

    /** What a handler asks of the puzzle manager: start or restart a puzzle with everyone in the room. */
    method StartPuzzle(puzzleId: PuzzleId, now: int)
      requires Valid()
      modifies Writable(), connections.wire
      ensures Valid() && View() == R.StartPuzzle(old(View()), puzzleId, now).room
      ensures connections.wire.net == Post(old(connections.wire.net), R.StartPuzzle(old(View()), puzzleId, now))
    {
      puzzleManager.StartPuzzle(puzzleId, connections.order, connections, R.TOKEN_DURATION, now);
      Untouched(state);
    }

    method PassPuzzle(puzzleId: PuzzleId, id: PlayerId, now: int)
      requires Valid()
      modifies Writable(), connections.wire
      ensures Valid() && View() == R.PassPuzzle(old(View()), puzzleId, id, now).room
      ensures connections.wire.net == Post(old(connections.wire.net), R.PassPuzzle(old(View()), puzzleId, id, now))
    {
      puzzleManager.HandlePuzzlePass(puzzleId, id, connections, now);
      Untouched(state);
    }

    /** The event loop calls back for a token timer. */
    method OnTokenTimer(handle: nat, now: int)
      requires Valid() && handle in puzzleManager.armed
      modifies Writable(), connections.wire
      ensures Valid() && View() == R.FireTimer(old(View()), handle, now).room
      ensures connections.wire.net == Post(old(connections.wire.net), R.FireTimer(old(View()), handle, now))
    {
      puzzleManager.OnTimer(handle, connections, now);
      Untouched(state);
    }

    method UpdatePlayer(id: PlayerId, patch: Patch)
      requires Valid()
      modifies state.players.Values
      ensures Valid() && View() == R.UpdatePlayer(old(View()), id, patch)
    {
      ghost var r := View();
      state.UpdatePlayer(id, patch);
      assert puzzleManager.View() == r.puzzles;
    }

    method Stop()
      requires Valid()
      modifies state`ticking
      ensures Valid() && View() == old(View()).(ticking := false)
    {
      state.Stop();
    }

    /** Everything a departure does but the succession. */
    method Depart(id: PlayerId, now: int)
      requires Valid() && id in connections.order
      modifies connections, connections.wire, state, puzzleManager, puzzleManager.puzzles.Values
      ensures Valid() && state.players == old(state.players) - {id}
      ensures var r := old(View());
              var d, to := Puzzles.Disconnect(r.puzzles, id, now), Elements(Without(r.conns, id));
              && View() == Gone(r, id, d)
              && connections.wire.net == Send(Send(old(connections.wire.net), to, d.msgs), to, [PlayerLeave(id)])
    {
      ghost var d := Puzzles.Disconnect(puzzleManager.View(), id, now);
      Disconnect(id);
      Unregister(id);
      DropFromPuzzles(id, now, d);
      Broadcast(PlayerLeave(id));
    }

    /** A member leaves; the room says whether it is empty now. */
    method RemovePlayer(id: PlayerId, now: int) returns (empty: bool)
      requires Valid()
      modifies Writable(), connections.wire
      ensures Valid() && View() == R.RemovePlayer(old(View()), id, now).room && empty == (|View().conns| == 0)
      ensures connections.wire.net == Post(old(connections.wire.net), R.RemovePlayer(old(View()), id, now))
    {
      ghost var r, net := View(), connections.wire.net;
      if id !in connections.order {
        SendNothing(net, {});
        return |connections.order| == 0;
      }
      Depart(id, now);
      ghost var d := Puzzles.Disconnect(r.puzzles, id, now);
      LeftIs(r, net, id, d, connections.wire.net);
      assert R.RemovePlayer(r, id, now) == R.Leave(r, id, d);
      if id == hostId && |connections.order| > 0 {
        ReassignHost();
      }
      if |connections.order| == 0 {
        Stop();
        return true;
      }
      return false;
    }
  }

  // ---- several rooms -----------------------------------------------------------------------------------------

  /** Two rooms that share no object: records and sessions belong to their rooms. */
  ghost predicate Apart(a: Room, b: Room) {
    a != b && a.connections != b.connections && a.state != b.state && a.puzzleManager != b.puzzleManager
  }

  /** Nothing was written to a room or its objects. */
  twostate predicate Undisturbed(r: Room)
    reads r, r.connections, r.state, r.puzzleManager
    reads r.state.players.Values, r.state.lastBroadcast.Values, r.puzzleManager.puzzles.Values
  {
    && unchanged(r) && unchanged(r.connections) && unchanged(r.state) && unchanged(r.puzzleManager)
    && (forall id :: id in r.state.players ==> old(allocated(r.state.players[id])) && unchanged(r.state.players[id]))
    && (forall id :: id in r.state.lastBroadcast ==>
          old(allocated(r.state.lastBroadcast[id])) && unchanged(r.state.lastBroadcast[id]))
    && (forall p :: p in r.puzzleManager.puzzles ==>
          old(allocated(r.puzzleManager.puzzles[p])) && unchanged(r.puzzleManager.puzzles[p]))
  }

  twostate lemma SamePuzzles(m: PuzzleManager)
    requires unchanged(m) && forall p :: p in m.puzzles ==> old(allocated(m.puzzles[p])) && unchanged(m.puzzles[p])
    ensures m.View() == old(m.View())
  {
    assert forall p :: p in m.puzzles ==> m.puzzles[p].View() == old(m.puzzles[p].View());
  }

  twostate lemma SameRoom(r: Room)
    requires old(r.Valid()) && Undisturbed(r)
    ensures r.Valid() && r.View() == old(r.View())
  {
    Untouched(r.state);
    SamePuzzles(r.puzzleManager);
  }

  // ---- over values ---------------------------------------------------------------------------------------------

  lemma SceneIs(r: R.Room, id: PlayerId, active: bool)
    requires id in r.conns && id in r.players
    ensures R.SetCutscene(r, id, active)
         == R.Effect(r.(players := r.players[id := r.players[id].(inCutscene := active)]),
                     Elements(r.conns) - {id}, [if active then CutsceneStart(id) else CutsceneEnd(id)])
  {}

  lemma TickedIs(r: R.Room, changed: seq<PlayerState>, last: map<PlayerId, PlayerState>)
    requires changed == Changed(r.conns, r.players, r.last) && last == Snapshots(r.players, r.last)
    ensures R.Tick(r) ==
            R.Effect(r.(last := last), Elements(r.conns), if |changed| > 0 then [StateUpdate(changed)] else [])
  {}

  /** The room and the channels after everything but the succession. */
  function Gone(r: R.Room, id: PlayerId, d: Puzzles.Out): R.Room {
    r.(conns := Without(r.conns, id), players := r.players - {id}, last := r.last - {id}, puzzles := d.z)
  }

  lemma LeftIs(r: R.Room, net: Net, id: PlayerId, d: Puzzles.Out, after: Net)
    requires id in r.conns
    requires var to := Elements(Without(r.conns, id)); after == Send(Send(net, to, d.msgs), to, [PlayerLeave(id)])
    ensures var e, rest := R.Leave(r, id, d), Gone(r, id, d);
            if |rest.conns| == 0 then
              e.room == rest.(ticking := false) && after == Post(net, e)
            else if id == r.hostId then
              && e.room == rest.(hostId := rest.conns[0], players := R.SetHost(rest.players, rest.conns[0]))
              && Send(after, Elements(rest.conns), [HostReassign(rest.conns[0])]) == Post(net, e)
            else e.room == rest && after == Post(net, e)
  {
    var to, msgs := Elements(Without(r.conns, id)), d.msgs + [PlayerLeave(id)];
    SendMore(net, to, d.msgs, [PlayerLeave(id)]);
    if |Without(r.conns, id)| > 0 {
      SendMore(net, to, msgs, [HostReassign(Without(r.conns, id)[0])]);
    }
  }
}
