/**
 The puzzle manager as objects that change in place: server/src/puzzle.ts. Its methods do to the sessions, the
 timers and the sockets of the room what the functions of `Puzzles` say.
 */
module PuzzleObjects {
  import opened Wrappers
  import opened Keys
  import opened Protocol
  import opened Puzzles
  import opened Channels
  import opened Sockets
  import P = Puzzles

  class Session {
    ghost const owner: PuzzleManager
    const puzzleId: PuzzleId
    var controlQueue: seq<PlayerId>
    var currentController: PlayerId
    const tokenDuration: nat
    var tokenTimer: Option<nat>
    var tokenGrantedAt: int

    function View(): PuzzleSession
      reads this
    {
      PuzzleSession(controlQueue, currentController, tokenDuration, tokenTimer, tokenGrantedAt)
    }

    constructor (puzzleId: PuzzleId, queue: seq<PlayerId>, duration: nat, now: int, ghost owner: PuzzleManager)
      requires |queue| > 0
      ensures View() == PuzzleSession(queue, queue[0], duration, None, now)
      ensures this.puzzleId == puzzleId && this.owner == owner
    {
      this.owner := owner;
      this.puzzleId, controlQueue, currentController := puzzleId, queue, queue[0];
      tokenDuration, tokenTimer, tokenGrantedAt := duration, None, now;
    }

    /** Give the session a queue: its head is the controller from now on. */
    method Hand(queue: seq<PlayerId>, now: int)
      requires |queue| > 0
      modifies this
      ensures View() == old(View()).(controlQueue := queue, currentController := queue[0], tokenGrantedAt := now)
    {
      controlQueue, currentController, tokenGrantedAt := queue, queue[0], now;
    }
  }

  class PuzzleManager {
    var order: seq<PuzzleId>
    var puzzles: map<PuzzleId, Session>
    var armed: map<nat, Timer>
    var nextHandle: nat

    ghost predicate Valid()
      reads this
    {
      && Distinct(order) && (forall p :: p in order <==> p in puzzles)
      && (forall p :: p in puzzles ==> puzzles[p].puzzleId == p && puzzles[p].owner == this)
    }

    function View(): PuzzleState
      reads this, puzzles.Values
    {
      PuzzleState(order, map p | p in puzzles :: puzzles[p].View(), Timers(armed, nextHandle))
    }

    constructor ()
      ensures Valid() && View() == NO_PUZZLES && puzzles == map[]
    {
      order, puzzles, armed, nextHandle := [], map[], map[], 0;
      new;
      assert View().sessions == map[];
    }

    /** `clearTimeout`, and the session forgets the handle. */
    method ClearTimer(session: Session)
      requires Valid() && session.puzzleId in puzzles && puzzles[session.puzzleId] == session
      modifies this`armed, session
      ensures View() == Cleared(old(View()), session.puzzleId)
    {
      if session.tokenTimer.Some? {
        armed := armed - {session.tokenTimer.value};
        session.tokenTimer := None;
      }
      assert View().sessions == old(View()).sessions[session.puzzleId := session.View()];
    }

    method BroadcastToken(session: Session, room: Connections, now: int)
      requires room.Valid()
      modifies room.wire
      ensures room.Valid()
              && room.wire.net == Send(old(room.wire.net), Elements(room.order),
                  [TokenMsg(session.puzzleId, session.View(), now)])
    {
      var elapsed := now - session.tokenGrantedAt;
      var left := session.tokenDuration - elapsed;
      var remaining := if left < 0 then 0 else left;
      room.Broadcast(PuzzleToken(session.puzzleId, session.currentController, remaining, session.controlQueue));
    }

    /** `setTimeout`, and the session keeps the handle. */
    method Arm(session: Session, now: int)
      requires Valid() && session.puzzleId in puzzles && puzzles[session.puzzleId] == session
      modifies this`armed, this`nextHandle, session`tokenTimer
      ensures View() == Armed(old(View()), session.puzzleId, now)
    {
      armed := armed[nextHandle := Timer(session.puzzleId, now + session.tokenDuration)];
      session.tokenTimer := Some(nextHandle);
      nextHandle := nextHandle + 1;
      assert View().sessions == old(View()).sessions[session.puzzleId := session.View()];
    }

    /** Clear the old timer, tell everyone, arm a new one. */
    method GrantToken(session: Session, room: Connections, now: int)
      requires Valid() && room.Valid() && session.puzzleId in puzzles && puzzles[session.puzzleId] == session
      modifies this`armed, this`nextHandle, session, room.wire
      ensures View() == P.GrantToken(old(View()), session.puzzleId, now).z
      ensures room.wire.net
              == Send(old(room.wire.net), Elements(room.order), P.GrantToken(old(View()), session.puzzleId, now).msgs)
    {
      ghost var z, net := View(), room.wire.net;
      ClearTimer(session);
      ghost var cleared := View();
      assert room.wire.net == net && session.View() == cleared.sessions[session.puzzleId];
      BroadcastToken(session, room, now);
      ghost var told := room.wire.net;
      assert View() == cleared;
      Arm(session, now);
      assert room.wire.net == told;
      GrantedIs(z, session.puzzleId, now);
    }

    /** A new session replaces the one of its puzzle, or comes last. */
    method Enter(session: Session)
      requires Valid() && session.owner == this
      modifies this`order, this`puzzles
      ensures Valid() && puzzles == old(puzzles)[session.puzzleId := session]
      ensures View() == Entered(old(View()), session.puzzleId, session.View())
    {
      if session.puzzleId !in puzzles {
        order := order + [session.puzzleId];
      }
      puzzles := puzzles[session.puzzleId := session];
      assert View().sessions == old(View()).sessions[session.puzzleId := session.View()];
    }

    /** Announce the puzzle, then grant the first token. */
    method Launch(session: Session, room: Connections, now: int)
      requires Valid() && room.Valid() && session.owner == this
      modifies this, session, room.wire
      ensures Valid() && room.Valid()
      ensures var entered := Entered(old(View()), session.puzzleId, old(session.View()));
              var granted := P.GrantToken(entered, session.puzzleId, now);
              View() == granted.z
              && room.wire.net ==
                 Send(old(room.wire.net), Elements(room.order), [PuzzleStart(session.puzzleId)] + granted.msgs)
    {
      ghost var net := room.wire.net;
      Enter(session);
      ghost var entered := View();
      assert room.wire.net == net;
      room.Broadcast(PuzzleStart(session.puzzleId));
      assert View() == entered;
      GrantToken(session, room, now);
      SendMore(net, Elements(room.order), [PuzzleStart(session.puzzleId)],
          P.GrantToken(entered, session.puzzleId, now).msgs);
    }

    method StartPuzzle(puzzleId: PuzzleId, ids: seq<PlayerId>, room: Connections, tokenDuration: nat, now: int)
      requires Valid() && room.Valid()
      modifies this, puzzles.Values, room.wire
      ensures Valid() && room.Valid()
      ensures View() == P.Start(old(View()), puzzleId, ids, tokenDuration, now).z
      ensures room.wire.net
              == Send(old(room.wire.net), Elements(room.order),
                  P.Start(old(View()), puzzleId, ids, tokenDuration, now).msgs)
    {
      ghost var z, net := View(), room.wire.net;
      if puzzleId in puzzles {
        ClearTimer(puzzles[puzzleId]);
      }
      ghost var cleared := View();
      assert room.wire.net == net;
      if |ids| == 0 {
        SendNothing(net, Elements(room.order));
        return;
      }
      var session := new Session(puzzleId, ids, tokenDuration, now, this);
      assert View() == cleared && room.wire.net == net;
      Launch(session, room, now);
      StartedIs(z, puzzleId, ids, tokenDuration, now);
    }

    /** The session is gone from the Map. */
    method Forget(puzzleId: PuzzleId)
      requires Valid() && puzzleId in puzzles
      modifies this`order, this`puzzles
      ensures Valid() && order == Without(old(order), puzzleId) && puzzles == old(puzzles) - {puzzleId}
    {
      WithoutKeys(order, puzzleId);
      order, puzzles := Without(order, puzzleId), puzzles - {puzzleId};
    }

    /** Clear the timer and delete the entry. */
    method Delete(puzzleId: PuzzleId)
      requires Valid() && puzzleId in puzzles
      modifies this, puzzles[puzzleId]
      ensures Valid() && puzzles == old(puzzles) - {puzzleId}
      ensures View() == P.End(old(View()), puzzleId).z
    {
      ghost var z := View();
      ClearTimer(puzzles[puzzleId]);
      ghost var cleared := View();
      Forget(puzzleId);
      assert View().sessions == cleared.sessions - {puzzleId};
      EndedIs(z, puzzleId);
    }

    method EndPuzzle(puzzleId: PuzzleId, room: Connections)
      requires Valid() && room.Valid()
      modifies this, puzzles.Values, room.wire
      ensures Valid() && room.Valid() && puzzles == old(puzzles) - {puzzleId}
      ensures View() == P.End(old(View()), puzzleId).z
      ensures room.wire.net == Send(old(room.wire.net), Elements(room.order), P.End(old(View()), puzzleId).msgs)
    {
      ghost var net := room.wire.net;
      if puzzleId !in puzzles {
        SendNothing(net, Elements(room.order));
        return;
      }
      Delete(puzzleId);
      assert room.wire.net == net;
      room.Broadcast(PuzzleEnd(puzzleId));
    }

    /** A session gets a queue, and its head the token. */
    method HandTo(session: Session, queue: seq<PlayerId>, room: Connections, now: int)
      requires Valid() && room.Valid() && session.puzzleId in puzzles && puzzles[session.puzzleId] == session
               && |queue| > 0
      modifies this`armed, this`nextHandle, session, room.wire
      ensures View() == P.HandTo(old(View()), session.puzzleId, queue, now).z
      ensures room.wire.net
              == Send(old(room.wire.net), Elements(room.order),
                  P.HandTo(old(View()), session.puzzleId, queue, now).msgs)
    {
      ghost var z, net := View(), room.wire.net;
      session.Hand(queue, now);
      assert View().sessions == z.sessions[session.puzzleId := session.View()];
      assert room.wire.net == net;
      GrantToken(session, room, now);
    }

    /** Rotate: the head of the queue goes to the back. */
    method NextController(puzzleId: PuzzleId, room: Connections, now: int)
      requires Valid() && room.Valid()
      modifies this, puzzles.Values, room.wire
      ensures Valid() && room.Valid()
      ensures View() == P.Next(old(View()), puzzleId, now).z
      ensures room.wire.net == Send(old(room.wire.net), Elements(room.order), P.Next(old(View()), puzzleId, now).msgs)
    {
      if puzzleId !in puzzles {
        SendNothing(room.wire.net, Elements(room.order));
        return;
      }
      var session := puzzles[puzzleId];
      if |session.controlQueue| == 0 {
        EndPuzzle(puzzleId, room);
        return;
      }
      HandTo(session, session.controlQueue[1..] + [session.controlQueue[0]], room, now);
    }

    /** Only the current controller may pass the token. */
    method HandlePuzzlePass(puzzleId: PuzzleId, playerId: PlayerId, room: Connections, now: int)
      requires Valid() && room.Valid()
      modifies this, puzzles.Values, room.wire
      ensures Valid() && room.Valid()
      ensures View() == P.Pass(old(View()), puzzleId, playerId, now).z
      ensures room.wire.net
              == Send(old(room.wire.net), Elements(room.order), P.Pass(old(View()), puzzleId, playerId, now).msgs)
    {
      if puzzleId !in puzzles || puzzles[puzzleId].currentController != playerId {
        SendNothing(room.wire.net, Elements(room.order));
        return;
      }
      NextController(puzzleId, room, now);
    }

    /** The event loop calls back for a timer that is due. */
    method OnTimer(handle: nat, room: Connections, now: int)
      requires Valid() && room.Valid() && handle in armed
      modifies this, puzzles.Values, room.wire
      ensures Valid() && room.Valid()
      ensures View() == P.Fire(old(View()), handle, now).z
      ensures room.wire.net == Send(old(room.wire.net), Elements(room.order), P.Fire(old(View()), handle, now).msgs)
    {
      ghost var z, net := View(), room.wire.net;
      var puzzleId := armed[handle].puzzleId;
      armed := armed - {handle};
      assert View() == z.(timers := z.timers.(armed := z.timers.armed - {handle}));
      assert room.wire.net == net;
      NextController(puzzleId, room, now);
    }

    /** The queue of a session without a player who left. */
    method Shorten(session: Session, playerId: PlayerId)
      requires Valid() && session.puzzleId in puzzles && puzzles[session.puzzleId] == session
      modifies session
      ensures session.View() == old(session.View()).(controlQueue := Without(old(session.controlQueue), playerId))
      ensures View() == old(View()).(sessions := old(View()).sessions[session.puzzleId := session.View()])
    {
      session.controlQueue := Without(session.controlQueue, playerId);
      assert View().sessions == old(View()).sessions[session.puzzleId := session.View()];
    }

    /** The loop body of `onPlayerDisconnect`. */
    method DropFrom(session: Session, playerId: PlayerId, room: Connections, now: int)
      requires Valid() && room.Valid() && session.puzzleId in puzzles && puzzles[session.puzzleId] == session
      modifies this, puzzles.Values, room.wire
      ensures Valid() && room.Valid() && forall p :: p in puzzles ==> p in old(puzzles) && puzzles[p] == old(puzzles)[p]
      ensures forall p :: p in old(puzzles) && p != session.puzzleId ==> p in puzzles
      ensures View() == P.Drop(old(View()), session.puzzleId, playerId, now).z
      ensures room.wire.net
              == Send(old(room.wire.net), Elements(room.order),
                  P.Drop(old(View()), session.puzzleId, playerId, now).msgs)
    {
      ghost var z, net := View(), room.wire.net;
      if playerId !in session.controlQueue {
        SendNothing(net, Elements(room.order));
        return;
      }
      var wasController := session.currentController == playerId;
      Shorten(session, playerId);
      ghost var shorter := View();
      assert room.wire.net == net;
      if |session.controlQueue| == 0 {
        EndPuzzle(session.puzzleId, room);
      } else if wasController {
        HandTo(session, session.controlQueue, room, now);
        HandedIs(z, session.puzzleId, session.controlQueue, now);
      } else {
        BroadcastToken(session, room, now);
        assert View() == shorter;
      }
    }

    method DropNext(ghost z: PuzzleState, ids: seq<PuzzleId>, i: nat, playerId: PlayerId, room: Connections, now: int,
                    ghost net: Net, ghost told: seq<Msg>)
      returns (ghost more: seq<Msg>)
      requires Valid() && room.Valid() && i < |ids| && ids[i] in puzzles
               && Halfway(z, ids, i, playerId, now, View(), told)
      requires room.wire.net == Send(net, Elements(room.order), told)
      modifies this, puzzles.Values, room.wire
      ensures Valid() && room.Valid() && forall p :: p in puzzles ==> p in old(puzzles) && puzzles[p] == old(puzzles)[p]
      ensures forall p :: p in old(puzzles) && p != ids[i] ==> p in puzzles
      ensures Halfway(z, ids, i + 1, playerId, now, View(), more)
              && room.wire.net == Send(net, Elements(room.order), more)
    {
      ghost var msgs := P.Drop(View(), ids[i], playerId, now).msgs;
      HalfwayNext(z, ids, i, playerId, now, View(), told);
      SendMore(net, Elements(room.order), told, msgs);
      DropFrom(puzzles[ids[i]], playerId, room, now);
      more := told + msgs;
    }

    /** A player has left: every session it waits in goes on without it, one after the other. */
    method OnPlayerDisconnect(playerId: PlayerId, room: Connections, now: int)
      requires Valid() && room.Valid()
      modifies this, puzzles.Values, room.wire
      ensures Valid() && room.Valid()
      ensures View() == P.Disconnect(old(View()), playerId, now).z
      ensures room.wire.net
              == Send(old(room.wire.net), Elements(room.order), P.Disconnect(old(View()), playerId, now).msgs)
    {
      var ids := order;
      ghost var z, net, told := View(), room.wire.net, [];
      SendNothing(net, Elements(room.order));
      HalfwayStart(z, ids, playerId, now);
      var i := 0;
      while i < |ids|
        invariant 0 <= i <= |ids| && Valid() && room.Valid()
        invariant forall p :: p in puzzles ==> p in old(puzzles) && puzzles[p] == old(puzzles)[p]
        invariant forall k :: i <= k < |ids| ==> ids[k] in puzzles
        invariant Halfway(z, ids, i, playerId, now, View(), told)
        invariant room.wire.net == Send(net, Elements(room.order), told)
      {
        told := DropNext(z, ids, i, playerId, room, now, net, told);
        i := i + 1;
      }
      HalfwayDone(z, ids, playerId, now, View(), told);
    }
  }

  // ---- over values ---------------------------------------------------------------------------------------------

  function Cleared(z: PuzzleState, p: PuzzleId): PuzzleState
    requires p in z.sessions
  {
    z.(timers := Clear(z.timers, z.sessions[p].tokenTimer),
        sessions := z.sessions[p := z.sessions[p].(tokenTimer := None)])
  }

  function Armed(z: PuzzleState, p: PuzzleId, now: int): PuzzleState
    requires p in z.sessions
  {
    var s := z.sessions[p];
    z.(timers := Timers(z.timers.armed[z.timers.next := Timer(p, now + s.tokenDuration)], z.timers.next + 1),
       sessions := z.sessions[p := s.(tokenTimer := Some(z.timers.next))])
  }

  lemma GrantedIs(z: PuzzleState, p: PuzzleId, now: int)
    requires p in z.sessions
    ensures P.GrantToken(z, p, now) == Out(Armed(Cleared(z, p), p, now), [TokenMsg(p, Cleared(z, p).sessions[p], now)])
  {}

  function Entered(z: PuzzleState, p: PuzzleId, s: PuzzleSession): PuzzleState {
    z.(order := if p in z.sessions then z.order else z.order + [p], sessions := z.sessions[p := s])
  }

  lemma StartedIs(z: PuzzleState, p: PuzzleId, ids: seq<PlayerId>, duration: nat, now: int)
    requires |ids| > 0
    ensures var cleared := if p in z.sessions then Cleared(z, p) else z;
            var entered := Entered(cleared, p, PuzzleSession(ids, ids[0], duration, None, now));
            var granted := P.GrantToken(entered, p, now);
            P.Start(z, p, ids, duration, now) == Out(granted.z, [PuzzleStart(p)] + granted.msgs)
  {}

  lemma EndedIs(z: PuzzleState, p: PuzzleId)
    requires p in z.sessions
    ensures var cleared := Cleared(z, p);
            P.End(z, p) == Out(cleared.(order := Without(z.order, p), sessions := cleared.sessions - {p}),
                [PuzzleEnd(p)])
  {}

  /** Shortening the queue first makes no difference to what is handed out. */
  lemma HandedIs(z: PuzzleState, p: PuzzleId, queue: seq<PlayerId>, now: int)
    requires p in z.sessions && |queue| > 0
    ensures P.HandTo(z.(sessions := z.sessions[p := z.sessions[p].(controlQueue := queue)]), p, queue, now)
            == P.HandTo(z, p, queue, now)
  {}

  /** The loop over the puzzles has come to position i. */
  ghost predicate Halfway(
      z: PuzzleState, ids: seq<PuzzleId>, i: nat, playerId: PlayerId, now: int, y: PuzzleState, told: seq<Msg>)
    requires i <= |ids|
  {
    var rest := P.DropAll(y, ids[i..], playerId, now);
    P.DropAll(z, ids, playerId, now) == Out(rest.z, told + rest.msgs)
  }

  lemma HalfwayStart(z: PuzzleState, ids: seq<PuzzleId>, playerId: PlayerId, now: int)
    ensures Halfway(z, ids, 0, playerId, now, z, [])
  {}

  lemma Associative(a: seq<Msg>, b: seq<Msg>, c: seq<Msg>)
    ensures a + (b + c) == (a + b) + c
  {}

  lemma HalfwayNext(
      z: PuzzleState, ids: seq<PuzzleId>, i: nat, playerId: PlayerId, now: int, y: PuzzleState, told: seq<Msg>)
    requires i < |ids| && Halfway(z, ids, i, playerId, now, y, told)
    ensures var o := P.Drop(y, ids[i], playerId, now); Halfway(z, ids, i + 1, playerId, now, o.z, told + o.msgs)
  {}

  lemma HalfwayDone(z: PuzzleState, ids: seq<PuzzleId>, playerId: PlayerId, now: int, y: PuzzleState, told: seq<Msg>)
    requires Halfway(z, ids, |ids|, playerId, now, y, told)
    ensures P.DropAll(z, ids, playerId, now) == Out(y, told)
  {}
}
