/** The other side of bounded waiting: whoever has the token keeps it for its whole turn. */
module FullTurns {
  import opened Keys
  import opened Protocol
  import opened Puzzles
  import opened Rooms
  import opened Server
  import opened Runs
  import opened Succession
  import opened Waiting

  /** The turn lasts until this time. */
  function TurnEnds(z: PuzzleState, p: PuzzleId): int
    requires p in z.sessions
  {
    z.sessions[p].tokenGrantedAt + z.sessions[p].tokenDuration
  }

  /** The same token still with the same player, for the same time. */
  ghost predicate SameTurn(z: PuzzleState, y: PuzzleState, p: PuzzleId)
    requires p in z.sessions
  {
    && p in y.sessions
    && y.sessions[p].currentController == z.sessions[p].currentController
    && y.sessions[p].tokenGrantedAt == z.sessions[p].tokenGrantedAt
    && y.sessions[p].tokenDuration == z.sessions[p].tokenDuration
  }

  /** A timer that is due is not the one of a turn that has not ended. */
  lemma FireSameTurn(z: PuzzleState, handle: nat, now: int, p: PuzzleId)
    requires TimersOk(z) && p in z.sessions && now < TurnEnds(z, p)
    requires handle in z.timers.armed && z.timers.armed[handle].deadline <= now
    ensures SameTurn(z, Fire(z, handle, now).z, p)
  {
    FireTimers(z, handle, now);
  }

  /** Nobody but the controller can pass the token on. */
  lemma PassSameTurn(z: PuzzleState, q: PuzzleId, id: PlayerId, now: int, p: PuzzleId)
    requires p in z.sessions && (q != p || id != z.sessions[p].currentController)
    ensures SameTurn(z, Pass(z, q, id, now).z, p)
  {}

  lemma DropSameTurn(z: PuzzleState, q: PuzzleId, gone: PlayerId, now: int, p: PuzzleId, members: set<PlayerId>)
    requires QueuesOk(z, members) && p in z.sessions && gone != z.sessions[p].currentController
    ensures SameTurn(z, Drop(z, q, gone, now).z, p)
  {
    if q == p && gone in z.sessions[p].controlQueue {
      assert QueueOk(z.sessions[p], members);
      WithoutKeys(z.sessions[p].controlQueue, gone);
    }
  }

  lemma {:induction false} DropAllSameTurn(
      z: PuzzleState, ids: seq<PuzzleId>, gone: PlayerId, now: int, p: PuzzleId, members: set<PlayerId>)
    requires OrderOk(z) && QueuesOk(z, members) && p in z.sessions && gone != z.sessions[p].currentController
    ensures SameTurn(z, DropAll(z, ids, gone, now).z, p)
    decreases |ids|
  {
    if |ids| > 0 {
      DropSameTurn(z, ids[0], gone, now, p, members);
      DropQueues(z, ids[0], gone, now, members);
      DropAllSameTurn(Drop(z, ids[0], gone, now).z, ids[1..], gone, now, p, members);
    }
  }

  lemma LeaveSameTurn(r: Room, id: PlayerId, now: int, slack: nat, p: PuzzleId)
    requires Orderly(r, now, slack) && p in r.puzzles.sessions
    requires r.puzzles.sessions[p].currentController in RemovePlayer(r, id, now).room.conns
    ensures SameTurn(r.puzzles, RemovePlayer(r, id, now).room.puzzles, p)
  {
    if id in r.conns {
      WithoutKeys(r.conns, id);
      DropAllSameTurn(r.puzzles, r.puzzles.order, id, now, p, Elements(r.conns));
    }
  }

  lemma RemoveSameTurn(s: State, id: PlayerId, code: Code, slack: nat, p: PuzzleId)
    requires code in s.rooms && Orderly(s.rooms[code], s.now, slack) && p in s.rooms[code].puzzles.sessions
    requires code in RemoveMember(s, id).rooms
    requires s.rooms[code].puzzles.sessions[p].currentController in RemoveMember(s, id).rooms[code].conns
    ensures SameTurn(s.rooms[code].puzzles, RemoveMember(s, id).rooms[code].puzzles, p)
  {
    if id in s.playerRoom && s.playerRoom[id] == code && code != NO_CODE {
      LeaveSameTurn(s.rooms[code], id, s.now, slack, p);
    }
  }

  /** The controller gives its token away. */
  ghost predicate GivesAway(ev: Event, p: PuzzleId, x: PlayerId) {
    ev.PassesPuzzle? && ev.id == x && ev.puzzleId == p
  }

  lemma PuzzleStepSameTurn(s: State, ev: Event, code: Code, slack: nat, p: PuzzleId)
    requires code in s.rooms && TimersOk(s.rooms[code].puzzles) && p in s.rooms[code].puzzles.sessions
    requires OfPuzzles(ev) && Enabled(s, ev, slack) && !Restarts(s, ev, code, p)
             && s.now < TurnEnds(s.rooms[code].puzzles, p)
    requires !GivesAway(ev, p, s.rooms[code].puzzles.sessions[p].currentController)
    ensures code in Step(s, ev).rooms && SameTurn(s.rooms[code].puzzles, Step(s, ev).rooms[code].puzzles, p)
  {
    var z := s.rooms[code].puzzles;
    match ev
    case PassesPuzzle(id, q) => PassSameTurn(z, q, id, s.now, p);
    case TimerFires(at, handle) => if at == code { FireSameTurn(z, handle, s.now, p); }
    case StartsPuzzle(_, _) =>
  }

  /** A step that is neither the controller's pass or departure nor a restart leaves a running turn alone. */
  lemma StepSameTurn(s: State, ev: Event, code: Code, slack: nat, p: PuzzleId)
    requires code in s.rooms && Orderly(s.rooms[code], s.now, slack) && TimersOk(s.rooms[code].puzzles)
    requires p in s.rooms[code].puzzles.sessions && s.now < TurnEnds(s.rooms[code].puzzles, p)
    requires Enabled(s, ev, slack) && !Restarts(s, ev, code, p)
    requires !GivesAway(ev, p, s.rooms[code].puzzles.sessions[p].currentController)
    requires code in Step(s, ev).rooms
             && s.rooms[code].puzzles.sessions[p].currentController in Step(s, ev).rooms[code].conns
    ensures SameTurn(s.rooms[code].puzzles, Step(s, ev).rooms[code].puzzles, p)
  {
    if OfPuzzles(ev) {
      PuzzleStepSameTurn(s, ev, code, slack, p);
    } else if ev.Close? {
      RemoveSameTurn(Hangup(s, ev.id), ev.id, code, slack, p);
    } else if ev.Kick? {
      if HasRoom(s, ev.id) {
        RemoveSameTurn(Hangup(Announce(s, ev.id), ev.id), ev.id, code, slack, p);
      }
    } else {
      SamePuzzles(s, ev, code);
    }
  }

  // ---- runs ------------------------------------------------------------------------------------------------

  lemma {:induction false} TimePasses(run: Run, slack: nat, i: nat, j: nat)
    requires IsRun(run, slack) && i <= j < |run.states|
    ensures run.states[i].now <= run.states[j].now
    decreases j - i
  {
    if i < j {
      assert StepAt(run, i, slack);
      TimePasses(run, slack, i + 1, j);
    }
  }

  ghost predicate NotGivenAway(run: Run, i: nat, j: nat, p: PuzzleId, x: PlayerId)
    requires i <= j < |run.states| == |run.events| + 1
  {
    forall k :: i <= k < j ==> !GivesAway(run.events[k], p, x)
  }

  lemma SameTurnAt(run: Run, slack: nat, k: nat, code: Code, p: PuzzleId)
    requires IsRun(run, slack) && k < |run.events|
    requires code in run.states[k].rooms && p in run.states[k].rooms[code].puzzles.sessions
    requires var z := run.states[k].rooms[code].puzzles;
             && run.states[k].now < TurnEnds(z, p)
             && !Restarts(run.states[k], run.events[k], code, p)
             && !GivesAway(run.events[k], p, z.sessions[p].currentController)
             && code in run.states[k + 1].rooms
                 && z.sessions[p].currentController in run.states[k + 1].rooms[code].conns
    ensures SameTurn(run.states[k].rooms[code].puzzles, run.states[k + 1].rooms[code].puzzles, p)
  {
    ReachableOrderly(run, slack, k, code);
    TimersAccountedFor(run, slack, k);
    assert StepAt(run, k, slack);
    StepSameTurn(run.states[k], run.events[k], code, slack, p);
  }

  /**
   A full turn: a player that has the token, stays, and does not pass it keeps it until its duration is over,
   whoever else comes, goes or tries to pass, as long as nobody restarts the puzzle.
   */
  lemma {:induction false} FullTurn(run: Run, slack: nat, i: nat, j: nat, code: Code, p: PuzzleId, x: PlayerId)
    requires IsRun(run, slack) && i <= j < |run.states|
    requires Undisturbed(run, i, j, code, p) && NotGivenAway(run, i, j, p, x)
    requires code in run.states[i].rooms && x in run.states[i].rooms[code].conns && Controls(run.states[i], code, p, x)
    requires code in run.states[j].rooms && x in run.states[j].rooms[code].conns
    requires run.states[j].now < TurnEnds(run.states[i].rooms[code].puzzles, p)
    ensures Controls(run.states[j], code, p, x)
    ensures SameTurn(run.states[i].rooms[code].puzzles, run.states[j].rooms[code].puzzles, p)
    decreases j - i
  {
    if i < j {
      MemberThroughout(run, slack, i, j - 1, j, code, x);
      TimePasses(run, slack, j - 1, j);
      FullTurn(run, slack, i, j - 1, code, p, x);
      assert !Restarts(run.states[j - 1], run.events[j - 1], code, p);
      assert !GivesAway(run.events[j - 1], p, x);
      SameTurnAt(run, slack, j - 1, code, p);
    }
  }
}
