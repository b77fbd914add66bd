/**
 Rotation of the puzzle control token, server/src/puzzle.ts as functions: each gives the new state and the
 packets it broadcasts, in order. The timers of the event loop are part of the state.
 */
module Puzzles {
  import opened Wrappers
  import opened Keys
  import opened Protocol

  datatype PuzzleSession = PuzzleSession(
    controlQueue: seq<PlayerId>, currentController: PlayerId,
    tokenDuration: nat, tokenTimer: Option<nat>, tokenGrantedAt: int)

  /** A pending `setTimeout` of the puzzle manager. */
  datatype Timer = Timer(puzzleId: PuzzleId, deadline: int)

  /** Pending timers by handle; handles are never reused. */
  datatype Timers = Timers(armed: map<nat, Timer>, next: nat)

  /** The `puzzles` Map (its insertion order and its entries) and the timers it has armed. */
  datatype PuzzleState = PuzzleState(order: seq<PuzzleId>, sessions: map<PuzzleId, PuzzleSession>, timers: Timers)

  const NO_PUZZLES := PuzzleState([], map[], Timers(map[], 0))

  datatype Out = Out(z: PuzzleState, msgs: seq<Msg>)

  // ---- the operations ------------------------------------------------------------------------------

  function Clear(t: Timers, handle: Option<nat>): Timers {
    if handle.Some? then t.(armed := t.armed - {handle.value}) else t
  }

  function TokenMsg(puzzleId: PuzzleId, s: PuzzleSession, now: int): Msg {
    var left := s.tokenDuration - (now - s.tokenGrantedAt);
    PuzzleToken(puzzleId, s.currentController, if left < 0 then 0 else left, s.controlQueue)
  }

  /** `grantToken`: clear the old timer, tell everyone, arm a new one. */
  function GrantToken(z: PuzzleState, puzzleId: PuzzleId, now: int): Out
    requires puzzleId in z.sessions
  {
    var s := z.sessions[puzzleId];
    var t := Clear(z.timers, s.tokenTimer);
    Out(z.(sessions := z.sessions[puzzleId := s.(tokenTimer := Some(t.next))],
           timers := Timers(t.armed[t.next := Timer(puzzleId, now + s.tokenDuration)], t.next + 1)),
        [TokenMsg(puzzleId, s, now)])
  }

  /** Give a puzzle a queue: the token goes to its head, from now on. */
  function HandTo(z: PuzzleState, puzzleId: PuzzleId, queue: seq<PlayerId>, now: int): Out
    requires puzzleId in z.sessions && |queue| > 0
  {
    var s := z.sessions[puzzleId].(controlQueue := queue, currentController := queue[0], tokenGrantedAt := now);
    GrantToken(z.(sessions := z.sessions[puzzleId := s]), puzzleId, now)
  }

  function Start(z: PuzzleState, puzzleId: PuzzleId, ids: seq<PlayerId>, duration: nat, now: int): Out {
    var cleared :=
      if puzzleId in z.sessions then
        var s := z.sessions[puzzleId];
        z.(timers := Clear(z.timers, s.tokenTimer), sessions := z.sessions[puzzleId := s.(tokenTimer := None)])
      else z;
    if |ids| == 0 then Out(cleared, [])
    else
      var order := if puzzleId in z.sessions then z.order else z.order + [puzzleId];
      var s := PuzzleSession(ids, ids[0], duration, None, now);
      var granted := GrantToken(cleared.(order := order, sessions := cleared.sessions[puzzleId := s]), puzzleId, now);
      Out(granted.z, [PuzzleStart(puzzleId)] + granted.msgs)
  }

  function End(z: PuzzleState, puzzleId: PuzzleId): Out {
    if puzzleId !in z.sessions then Out(z, [])
    else
      Out(PuzzleState(Without(z.order, puzzleId), z.sessions - {puzzleId},
          Clear(z.timers, z.sessions[puzzleId].tokenTimer)),
          [PuzzleEnd(puzzleId)])
  }

  /** `nextController`: the head of the queue goes to the back. */
  function Next(z: PuzzleState, puzzleId: PuzzleId, now: int): Out {
    if puzzleId !in z.sessions then Out(z, [])
    else
      var q := z.sessions[puzzleId].controlQueue;
      if |q| == 0 then End(z, puzzleId) else HandTo(z, puzzleId, q[1..] + [q[0]], now)
  }

  /** `handlePuzzlePass`: only the current controller may pass. */
  function Pass(z: PuzzleState, puzzleId: PuzzleId, playerId: PlayerId, now: int): Out {
    if puzzleId in z.sessions && z.sessions[puzzleId].currentController == playerId then Next(z, puzzleId, now)
    else Out(z, [])
  }

  /** A timer goes off: the event loop forgets it and calls back. */
  function Fire(z: PuzzleState, handle: nat, now: int): Out
    requires handle in z.timers.armed
  {
    Next(z.(timers := z.timers.(armed := z.timers.armed - {handle})), z.timers.armed[handle].puzzleId, now)
  }

  /** The body of the loop in `onPlayerDisconnect`, for one puzzle. */
  function Drop(z: PuzzleState, puzzleId: PuzzleId, playerId: PlayerId, now: int): Out {
    if puzzleId !in z.sessions || playerId !in z.sessions[puzzleId].controlQueue then Out(z, [])
    else
      var s := z.sessions[puzzleId];
      var rest := Without(s.controlQueue, playerId);
      var shorter := z.(sessions := z.sessions[puzzleId := s.(controlQueue := rest)]);
      if |rest| == 0 then End(shorter, puzzleId)
      else if s.currentController == playerId then HandTo(z, puzzleId, rest, now)
      else Out(shorter, [TokenMsg(puzzleId, shorter.sessions[puzzleId], now)])
  }

  /** `onPlayerDisconnect`: one puzzle after the other, in the order of the Map. */
  function DropAll(z: PuzzleState, ids: seq<PuzzleId>, playerId: PlayerId, now: int): Out
    decreases |ids|
  {
    if |ids| == 0 then Out(z, [])
    else
      var first := Drop(z, ids[0], playerId, now);
      var rest := DropAll(first.z, ids[1..], playerId, now);
      Out(rest.z, first.msgs + rest.msgs)
  }

  function Disconnect(z: PuzzleState, playerId: PlayerId, now: int): Out {
    DropAll(z, z.order, playerId, now)
  }

  // ---- invariants ----------------------------------------------------------------------------------

  ghost predicate OrderOk(z: PuzzleState) {
    Distinct(z.order) && forall p :: p in z.order <==> p in z.sessions
  }

  /** The queue is nonempty and without duplicates, its head is the controller, and it holds only these players. */
  ghost predicate QueueOk(s: PuzzleSession, members: set<PlayerId>) {
    && |s.controlQueue| > 0
    && Distinct(s.controlQueue)
    && s.currentController == s.controlQueue[0]
    && forall x :: x in s.controlQueue ==> x in members
  }

  ghost predicate QueuesOk(z: PuzzleState, members: set<PlayerId>) {
    forall p :: p in z.sessions ==> QueueOk(z.sessions[p], members)
  }

  /** The puzzle has exactly the timer it should: armed, for it, due when its token runs out. */
  ghost predicate ArmedFor(z: PuzzleState, p: PuzzleId)
    requires p in z.sessions
  {
    var s := z.sessions[p];
    && s.tokenTimer.Some?
    && s.tokenTimer.value in z.timers.armed
    && z.timers.armed[s.tokenTimer.value] == Timer(p, s.tokenGrantedAt + s.tokenDuration)
  }

  /** Every pending timer is the one of a live puzzle. */
  ghost predicate NoStray(z: PuzzleState) {
    forall h :: h in z.timers.armed ==>
      && h < z.timers.next
      && z.timers.armed[h].puzzleId in z.sessions
      && z.sessions[z.timers.armed[h].puzzleId].tokenTimer == Some(h)
  }

  /** Timer accounting: pending timers and puzzles are in bijection, with the right deadlines. */
  ghost predicate TimersOk(z: PuzzleState) {
    NoStray(z) && forall p :: p in z.sessions ==> ArmedFor(z, p)
  }

  /** The same but for one puzzle, whose timer may have just gone off. */
  ghost predicate TimersOkBut(z: PuzzleState, puzzleId: PuzzleId)
    requires puzzleId in z.sessions
  {
    && NoStray(z)
    && (forall p :: p in z.sessions && p != puzzleId ==> ArmedFor(z, p))
    && (forall h :: z.sessions[puzzleId].tokenTimer == Some(h) ==>
          h < z.timers.next && (h in z.timers.armed ==> z.timers.armed[h].puzzleId == puzzleId))
  }

  lemma GrantTokenTimers(z: PuzzleState, puzzleId: PuzzleId, now: int)
    requires puzzleId in z.sessions && TimersOkBut(z, puzzleId) && z.sessions[puzzleId].tokenGrantedAt == now
    ensures TimersOk(GrantToken(z, puzzleId, now).z)
  {}

  lemma HandToTimers(z: PuzzleState, puzzleId: PuzzleId, queue: seq<PlayerId>, now: int)
    requires puzzleId in z.sessions && TimersOkBut(z, puzzleId) && |queue| > 0
    ensures TimersOk(HandTo(z, puzzleId, queue, now).z)
  {}

  lemma TimersOkAllBut(z: PuzzleState, puzzleId: PuzzleId)
    requires TimersOk(z) && puzzleId in z.sessions
    ensures TimersOkBut(z, puzzleId)
  {}

  lemma EndTimers(z: PuzzleState, puzzleId: PuzzleId)
    requires puzzleId in z.sessions && TimersOkBut(z, puzzleId)
    ensures TimersOk(End(z, puzzleId).z)
  {}

  /**
   Starting or restarting keeps the accounting exactly when someone is there to play, or the puzzle is not
   live yet.
   */
  lemma StartTimers(z: PuzzleState, puzzleId: PuzzleId, ids: seq<PlayerId>, duration: nat, now: int)
    requires TimersOk(z)
    ensures TimersOk(Start(z, puzzleId, ids, duration, now).z) <==> |ids| > 0 || puzzleId !in z.sessions
  {
    var r := Start(z, puzzleId, ids, duration, now).z;
    if |ids| == 0 {
      if puzzleId in z.sessions {
        assert !ArmedFor(r, puzzleId);
      }
    } else {
      var s := PuzzleSession(ids, ids[0], duration, None, now);
      var t := if puzzleId in z.sessions then Clear(z.timers, z.sessions[puzzleId].tokenTimer) else z.timers;
      var order := if puzzleId in z.sessions then z.order else z.order + [puzzleId];
      var y := PuzzleState(order, z.sessions[puzzleId := s], t);
      if puzzleId in z.sessions {
        assert ArmedFor(z, puzzleId);
        assert y.sessions == z.sessions[puzzleId := z.sessions[puzzleId].(tokenTimer := None)][puzzleId := s];
      }
      forall p | p in y.sessions && p != puzzleId ensures ArmedFor(y, p) {
        assert ArmedFor(z, p);
      }
      assert NoStray(y);
      GrantTokenTimers(y, puzzleId, now);
    }
  }

  lemma NextTimers(z: PuzzleState, puzzleId: PuzzleId, now: int)
    requires puzzleId in z.sessions ==> TimersOkBut(z, puzzleId)
    requires puzzleId !in z.sessions ==> TimersOk(z)
    ensures TimersOk(Next(z, puzzleId, now).z)
  {
    if puzzleId in z.sessions {
      var q := z.sessions[puzzleId].controlQueue;
      if |q| == 0 {
        EndTimers(z, puzzleId);
      } else {
        HandToTimers(z, puzzleId, q[1..] + [q[0]], now);
      }
    }
  }

  /** No stale timer fires: a pending timer belongs to a live puzzle, and going off it is replaced. */
  lemma FireTimers(z: PuzzleState, handle: nat, now: int)
    requires TimersOk(z) && handle in z.timers.armed
    ensures var p := z.timers.armed[handle].puzzleId;
            && p in z.sessions && z.sessions[p].tokenTimer == Some(handle)
            && z.timers.armed[handle].deadline == z.sessions[p].tokenGrantedAt + z.sessions[p].tokenDuration
    ensures TimersOk(Fire(z, handle, now).z)
    ensures handle !in Fire(z, handle, now).z.timers.armed
  {
    var p := z.timers.armed[handle].puzzleId;
    assert ArmedFor(z, p);
    var y := z.(timers := z.timers.(armed := z.timers.armed - {handle}));
    forall q | q in y.sessions && q != p ensures ArmedFor(y, q) {
      assert ArmedFor(z, q);
    }
    NextTimers(y, p, now);
  }

  lemma PassTimers(z: PuzzleState, puzzleId: PuzzleId, playerId: PlayerId, now: int)
    requires TimersOk(z)
    ensures TimersOk(Pass(z, puzzleId, playerId, now).z)
  {
    if puzzleId in z.sessions {
      TimersOkAllBut(z, puzzleId);
    }
    NextTimers(z, puzzleId, now);
  }

  lemma DropTimers(z: PuzzleState, puzzleId: PuzzleId, playerId: PlayerId, now: int)
    requires TimersOk(z)
    ensures TimersOk(Drop(z, puzzleId, playerId, now).z)
  {
    if puzzleId in z.sessions && playerId in z.sessions[puzzleId].controlQueue {
      TimersOkAllBut(z, puzzleId);
      var s := z.sessions[puzzleId];
      var rest := Without(s.controlQueue, playerId);
      var shorter := z.(sessions := z.sessions[puzzleId := s.(controlQueue := rest)]);
      forall p | p in shorter.sessions ensures ArmedFor(shorter, p) {
        assert ArmedFor(z, p);
      }
      TimersOkAllBut(shorter, puzzleId);
      if |rest| == 0 {
        EndTimers(shorter, puzzleId);
      } else if s.currentController == playerId {
        HandToTimers(z, puzzleId, rest, now);
      }
    }
  }

  /** The countdown in a token packet is the time until the pending timer of its puzzle goes off. */
  lemma CountdownIsTimer(z: PuzzleState, p: PuzzleId, now: int)
    requires TimersOk(z) && p in z.sessions && now >= z.sessions[p].tokenGrantedAt
    ensures var s := z.sessions[p];
            && s.tokenTimer.Some? && s.tokenTimer.value in z.timers.armed
            && var deadline, left := z.timers.armed[s.tokenTimer.value].deadline, TokenMsg(p, s, now).remainingMs;
               && (now <= deadline ==> now + left == deadline)
               && (now > deadline ==> left == 0)
               && left <= s.tokenDuration
  {
    assert ArmedFor(z, p);
  }

  // ---- queues --------------------------------------------------------------------------------------

  lemma StartQueues(
      z: PuzzleState, puzzleId: PuzzleId, ids: seq<PlayerId>, duration: nat, now: int, members: set<PlayerId>)
    requires OrderOk(z) && QueuesOk(z, members)
    requires Distinct(ids) && forall x :: x in ids ==> x in members
    ensures var r := Start(z, puzzleId, ids, duration, now).z; OrderOk(r) && QueuesOk(r, members)
  {}

  lemma NextQueues(z: PuzzleState, puzzleId: PuzzleId, now: int, members: set<PlayerId>)
    requires OrderOk(z) && QueuesOk(z, members)
    ensures var r := Next(z, puzzleId, now).z; OrderOk(r) && QueuesOk(r, members) && r.sessions.Keys == z.sessions.Keys
  {}

  /** After the loop body has run for a puzzle, the player is out of its queue. */
  lemma DropQueues(z: PuzzleState, puzzleId: PuzzleId, playerId: PlayerId, now: int, members: set<PlayerId>)
    requires OrderOk(z) && QueuesOk(z, members)
    ensures var r := Drop(z, puzzleId, playerId, now).z;
            && OrderOk(r) && QueuesOk(r, members)
            && (puzzleId in r.sessions ==> playerId !in r.sessions[puzzleId].controlQueue)
            && (forall p :: p != puzzleId ==> (p in r.sessions <==> p in z.sessions))
            && (forall p :: p != puzzleId && p in z.sessions ==> r.sessions[p] == z.sessions[p])
  {
    WithoutKeys(z.order, puzzleId);
    if puzzleId in z.sessions {
      WithoutKeys(z.sessions[puzzleId].controlQueue, playerId);
    }
  }

  lemma {:induction false} DropAllOk(
      z: PuzzleState, ids: seq<PuzzleId>, playerId: PlayerId, now: int, members: set<PlayerId>)
    requires OrderOk(z) && QueuesOk(z, members) && TimersOk(z)
    requires forall p :: p in z.sessions && p !in ids ==> playerId !in z.sessions[p].controlQueue
    ensures var r := DropAll(z, ids, playerId, now).z;
            OrderOk(r) && QueuesOk(r, members - {playerId}) && TimersOk(r)
    decreases |ids|
  {
    if |ids| == 0 {
      forall p | p in z.sessions ensures QueueOk(z.sessions[p], members - {playerId}) {
        assert QueueOk(z.sessions[p], members);
      }
    } else {
      DropQueues(z, ids[0], playerId, now, members);
      DropTimers(z, ids[0], playerId, now);
      var y := Drop(z, ids[0], playerId, now).z;
      forall p | p in y.sessions && p !in ids[1..] ensures playerId !in y.sessions[p].controlQueue {
        if p != ids[0] {
          assert p !in ids;
        }
      }
      DropAllOk(y, ids[1..], playerId, now, members);
    }
  }

  /** A departure keeps every invariant, and the departed is in no queue. */
  lemma DisconnectOk(z: PuzzleState, playerId: PlayerId, now: int, members: set<PlayerId>)
    requires OrderOk(z) && QueuesOk(z, members) && TimersOk(z)
    ensures var r := Disconnect(z, playerId, now).z;
            OrderOk(r) && QueuesOk(r, members - {playerId}) && TimersOk(r)
  {
    DropAllOk(z, z.order, playerId, now, members);
  }

  lemma SomeMember(z: PuzzleState, p: PuzzleId, members: set<PlayerId>)
    requires p in z.sessions && QueuesOk(z, members)
    ensures members != {}
  {
    assert QueueOk(z.sessions[p], members);
    assert z.sessions[p].controlQueue[0] in members;
  }

  /** With nobody left, no puzzle and no timer is left either. */
  lemma NobodyLeft(z: PuzzleState, members: set<PlayerId>)
    requires OrderOk(z) && QueuesOk(z, members) && TimersOk(z)
    ensures members == {} ==> z.sessions == map[] && z.timers.armed == map[] && z.order == []
  {
    if |z.order| > 0 {
      assert z.order[0] in z.order;
      SomeMember(z, z.order[0], members);
    } else {
      assert z.sessions.Keys == {};
      assert z.timers.armed.Keys == {};
    }
  }

  // ---- bounded waiting -------------------------------------------------------------------------------

  /** How long k turns take. */
  function Turns(k: nat, turn: nat): nat {
    k * turn
  }

  /** When player x has the token at the latest: a full turn, and the lateness of a timer, for everyone ahead. */
  function Due(s: PuzzleSession, x: PlayerId, slack: nat): int
    requires x in s.controlQueue
  {
    s.tokenGrantedAt + Turns(IndexOf(s.controlQueue, x), s.tokenDuration + slack)
  }

  /** The current token is not overdue by more than the lateness of a timer. */
  predicate OnTime(s: PuzzleSession, now: int, slack: nat) {
    s.tokenGrantedAt <= now <= s.tokenGrantedAt + s.tokenDuration + slack
  }

  /** No token is overdue. */
  ghost predicate Clocked(z: PuzzleState, now: int, slack: nat) {
    forall p :: p in z.sessions ==> OnTime(z.sessions[p], now, slack)
  }

  /** Time passes, as far as the pending timers let it. */
  ghost predicate TimersWait(z: PuzzleState, now: int, slack: nat) {
    forall h :: h in z.timers.armed ==> now <= z.timers.armed[h].deadline + slack
  }

  lemma AdvanceClocked(z: PuzzleState, now: int, later: int, slack: nat)
    requires Clocked(z, now, slack) && TimersOk(z) && now <= later && TimersWait(z, later, slack)
    ensures Clocked(z, later, slack)
  {}

  lemma StartClocked(z: PuzzleState, puzzleId: PuzzleId, ids: seq<PlayerId>, duration: nat, now: int, slack: nat)
    requires Clocked(z, now, slack)
    ensures Clocked(Start(z, puzzleId, ids, duration, now).z, now, slack)
  {}

  lemma PassClocked(z: PuzzleState, puzzleId: PuzzleId, playerId: PlayerId, now: int, slack: nat)
    requires Clocked(z, now, slack)
    ensures Clocked(Pass(z, puzzleId, playerId, now).z, now, slack)
  {}

  lemma FireClocked(z: PuzzleState, handle: nat, now: int, slack: nat)
    requires Clocked(z, now, slack) && handle in z.timers.armed
    ensures Clocked(Fire(z, handle, now).z, now, slack)
  {}

  lemma {:induction false} DropAllClocked(z: PuzzleState, ids: seq<PuzzleId>, gone: PlayerId, now: int, slack: nat)
    requires Clocked(z, now, slack)
    ensures Clocked(DropAll(z, ids, gone, now).z, now, slack)
    decreases |ids|
  {
    if |ids| > 0 {
      var y := Drop(z, ids[0], gone, now).z;
      assert Clocked(y, now, slack);
      DropAllClocked(y, ids[1..], gone, now, slack);
    }
  }

  /** What a step does for a player who waits: the player has the token, or is due no later than before. */
  ghost predicate NoLater(s: PuzzleSession, s': PuzzleSession, x: PlayerId, slack: nat)
    requires x in s.controlQueue
  {
    && x in s'.controlQueue
    && s'.tokenDuration == s.tokenDuration
    && (s'.currentController == x || Due(s', x, slack) <= Due(s, x, slack))
  }

  lemma OneTurnLess(at: int, now: int, k: nat, turn: nat)
    requires now <= at + turn && k > 0
    ensures now + Turns(k - 1, turn) <= at + Turns(k, turn)
  {}

  /** The token moves on, by expiry or by a pass: everyone behind the head is one turn closer. */
  lemma NextNoLater(z: PuzzleState, puzzleId: PuzzleId, now: int, x: PlayerId, slack: nat, members: set<PlayerId>)
    requires QueuesOk(z, members)
    requires puzzleId in z.sessions && x in z.sessions[puzzleId].controlQueue
             && z.sessions[puzzleId].currentController != x
    requires OnTime(z.sessions[puzzleId], now, slack)
    ensures puzzleId in Next(z, puzzleId, now).z.sessions
    ensures NoLater(z.sessions[puzzleId], Next(z, puzzleId, now).z.sessions[puzzleId], x, slack)
  {}

  lemma CutNoLater(s: PuzzleSession, gone: PlayerId, x: PlayerId, at: int, slack: nat, members: set<PlayerId>)
    requires QueueOk(s, members) && gone in s.controlQueue && x in s.controlQueue && gone != x
             && s.currentController != x
    requires at == s.tokenGrantedAt || (gone == s.currentController && at <= s.tokenGrantedAt + s.tokenDuration + slack)
    ensures x in Without(s.controlQueue, gone)
    ensures Due(s.(controlQueue := Without(s.controlQueue, gone), tokenGrantedAt := at), x, slack) <= Due(s, x, slack)
  {
    WithoutIndex(s.controlQueue, gone, x);
    assert gone == s.currentController ==> IndexOf(s.controlQueue, gone) == 0;
    CutDue(s, Without(s.controlQueue, gone), at, x, slack);
  }

  /** The same place in the queue and the same grant, or a place nearer and a grant that is not overdue. */
  lemma CutDue(s: PuzzleSession, rest: seq<PlayerId>, at: int, x: PlayerId, slack: nat)
    requires x in rest && x in s.controlQueue
    requires var i, k := IndexOf(rest, x), IndexOf(s.controlQueue, x);
             (i == k && at == s.tokenGrantedAt) || (i == k - 1 && at <= s.tokenGrantedAt + s.tokenDuration + slack)
    ensures Due(s.(controlQueue := rest, tokenGrantedAt := at), x, slack) <= Due(s, x, slack)
  {
    if IndexOf(rest, x) < IndexOf(s.controlQueue, x) {
      OneTurnLess(s.tokenGrantedAt, at, IndexOf(s.controlQueue, x), s.tokenDuration + slack);
    }
  }

  /** Someone else leaves: whoever waits is due no later. */
  lemma DropNoLater(
      z: PuzzleState, puzzleId: PuzzleId, gone: PlayerId, now: int, x: PlayerId, slack: nat, members: set<PlayerId>)
    requires QueuesOk(z, members) && gone != x
    requires puzzleId in z.sessions && x in z.sessions[puzzleId].controlQueue
             && z.sessions[puzzleId].currentController != x
    requires OnTime(z.sessions[puzzleId], now, slack)
    ensures puzzleId in Drop(z, puzzleId, gone, now).z.sessions
    ensures NoLater(z.sessions[puzzleId], Drop(z, puzzleId, gone, now).z.sessions[puzzleId], x, slack)
  {
    var s := z.sessions[puzzleId];
    assert QueueOk(s, members);
    if gone in s.controlQueue {
      var at := if gone == s.currentController then now else s.tokenGrantedAt;
      CutNoLater(s, gone, x, at, slack, members);
      var rest := Without(s.controlQueue, gone);
      var s' := Drop(z, puzzleId, gone, now).z.sessions[puzzleId];
      assert s'.controlQueue == rest && s'.tokenGrantedAt == at && s'.tokenDuration == s.tokenDuration;
    }
  }

  /** A waiting player who stays is due no later after any departure. */
  lemma {:induction false} DropAllNoLater(
      z: PuzzleState, ids: seq<PuzzleId>, puzzleId: PuzzleId, gone: PlayerId, now: int, x: PlayerId, slack: nat,
          members: set<PlayerId>)
    requires OrderOk(z) && QueuesOk(z, members) && gone != x && Distinct(ids)
    requires puzzleId in z.sessions && x in z.sessions[puzzleId].controlQueue
             && z.sessions[puzzleId].currentController != x
    requires OnTime(z.sessions[puzzleId], now, slack)
    ensures var r := DropAll(z, ids, gone, now).z;
            puzzleId in r.sessions && NoLater(z.sessions[puzzleId], r.sessions[puzzleId], x, slack)
            && (puzzleId !in ids ==> r.sessions[puzzleId] == z.sessions[puzzleId])
    decreases |ids|
  {
    if |ids| > 0 {
      var y := Drop(z, ids[0], gone, now).z;
      DropQueues(z, ids[0], gone, now, members);
      if ids[0] == puzzleId {
        DropNoLater(z, puzzleId, gone, now, x, slack, members);
        DropAllKeeps(y, ids[1..], puzzleId, gone, now);
      } else {
        DropAllNoLater(y, ids[1..], puzzleId, gone, now, x, slack, members);
      }
    }
  }

  /** The loop touches a puzzle only in its own round. */
  lemma {:induction false} DropAllKeeps(
      z: PuzzleState, ids: seq<PuzzleId>, puzzleId: PuzzleId, gone: PlayerId, now: int)
    requires puzzleId in z.sessions && puzzleId !in ids
    ensures var r := DropAll(z, ids, gone, now).z;
            puzzleId in r.sessions && r.sessions[puzzleId] == z.sessions[puzzleId]
    decreases |ids|
  {
    if |ids| > 0 {
      DropAllKeeps(Drop(z, ids[0], gone, now).z, ids[1..], puzzleId, gone, now);
    }
  }
}
