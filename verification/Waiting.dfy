/** Bounded waiting for the puzzle token: nobody in the queue of a puzzle waits longer than the turns ahead of it. */
module Waiting {
  import opened Keys
  import opened Protocol
  import opened Puzzles
  import opened Rooms
  import opened Server
  import opened ServerInvariant
  import opened Runs
  import opened Succession

  /** x is in the queue of the puzzle. */
  ghost predicate Queued(z: PuzzleState, p: PuzzleId, x: PlayerId) {
    p in z.sessions && x in z.sessions[p].controlQueue
  }

  /** What a step does for x, who waits: the token arrived, or is due no later than before. */
  ghost predicate Progress(z: PuzzleState, y: PuzzleState, p: PuzzleId, x: PlayerId, slack: nat)
    requires Queued(z, p, x)
  {
    p in y.sessions && NoLater(z.sessions[p], y.sessions[p], x, slack)
  }

  ghost predicate Waits(z: PuzzleState, p: PuzzleId, x: PlayerId) {
    Queued(z, p, x) && z.sessions[p].currentController != x
  }

  /** The puzzles of a room are in order, and no token is overdue. */
  ghost predicate Orderly(r: Room, now: int, slack: nat) {
    && Distinct(r.conns) && OrderOk(r.puzzles)
    && QueuesOk(r.puzzles, Elements(r.conns)) && Clocked(r.puzzles, now, slack)
  }

  lemma NextProgress(
      z: PuzzleState, q: PuzzleId, now: int, p: PuzzleId, x: PlayerId, slack: nat, members: set<PlayerId>)
    requires QueuesOk(z, members) && Clocked(z, now, slack) && Waits(z, p, x)
    ensures Progress(z, Next(z, q, now).z, p, x, slack)
  {
    if q == p {
      NextNoLater(z, p, now, x, slack, members);
    }
  }

  lemma PassProgress(
      z: PuzzleState, q: PuzzleId, id: PlayerId, now: int, p: PuzzleId, x: PlayerId, slack: nat, members: set<PlayerId>)
    requires QueuesOk(z, members) && Clocked(z, now, slack) && Waits(z, p, x)
    ensures Progress(z, Pass(z, q, id, now).z, p, x, slack)
  {}

  lemma FireProgress(
      z: PuzzleState, handle: nat, now: int, p: PuzzleId, x: PlayerId, slack: nat, members: set<PlayerId>)
    requires QueuesOk(z, members) && Clocked(z, now, slack) && Waits(z, p, x) && handle in z.timers.armed
    ensures Progress(z, Fire(z, handle, now).z, p, x, slack)
  {
    NextProgress(z.(timers := z.timers.(armed := z.timers.armed - {handle})), z.timers.armed[handle].puzzleId, now, p,
        x, slack, members);
  }

  lemma StartProgress(
      z: PuzzleState, q: PuzzleId, ids: seq<PlayerId>, duration: nat, now: int, p: PuzzleId, x: PlayerId, slack: nat)
    requires Waits(z, p, x) && q != p
    ensures Progress(z, Start(z, q, ids, duration, now).z, p, x, slack)
  {}

  lemma LeaveProgress(r: Room, id: PlayerId, now: int, p: PuzzleId, x: PlayerId, slack: nat)
    requires Orderly(r, now, slack) && Waits(r.puzzles, p, x) && x in RemovePlayer(r, id, now).room.conns
    ensures Progress(r.puzzles, RemovePlayer(r, id, now).room.puzzles, p, x, slack)
  {
    if id in r.conns {
      WithoutKeys(r.conns, id);
      DropAllNoLater(r.puzzles, r.puzzles.order, p, id, now, x, slack, Elements(r.conns));
    }
  }

  /** Someone in the room starts this puzzle anew. */
  ghost predicate Restarts(s: State, ev: Event, code: Code, p: PuzzleId) {
    ev.StartsPuzzle? && ev.puzzleId == p && HasRoom(s, ev.id) && s.playerRoom[ev.id] == code
  }

  lemma RemoveProgress(s: State, id: PlayerId, code: Code, p: PuzzleId, x: PlayerId, slack: nat)
    requires code in s.rooms && Orderly(s.rooms[code], s.now, slack) && Waits(s.rooms[code].puzzles, p, x)
    requires code in RemoveMember(s, id).rooms && x in RemoveMember(s, id).rooms[code].conns
    ensures Progress(s.rooms[code].puzzles, RemoveMember(s, id).rooms[code].puzzles, p, x, slack)
  {
    if id in s.playerRoom && s.playerRoom[id] == code && code != NO_CODE {
      LeaveProgress(s.rooms[code], id, s.now, p, x, slack);
    }
  }

  ghost predicate OfPuzzles(ev: Event) {
    ev.StartsPuzzle? || ev.PassesPuzzle? || ev.TimerFires?
  }

  lemma StartStepProgress(s: State, id: PlayerId, q: PuzzleId, code: Code, p: PuzzleId, x: PlayerId, slack: nat)
    requires code in s.rooms && Waits(s.rooms[code].puzzles, p, x) && !Restarts(s, StartsPuzzle(id, q), code, p)
    ensures var t := Step(s, StartsPuzzle(id, q));
            code in t.rooms && Progress(s.rooms[code].puzzles, t.rooms[code].puzzles, p, x, slack)
  {
    var r := s.rooms[code];
    if q != p {
      StartProgress(r.puzzles, q, r.conns, TOKEN_DURATION, s.now, p, x, slack);
    }
  }

  lemma PassStepProgress(s: State, id: PlayerId, q: PuzzleId, code: Code, p: PuzzleId, x: PlayerId, slack: nat)
    requires code in s.rooms && Orderly(s.rooms[code], s.now, slack) && Waits(s.rooms[code].puzzles, p, x)
    ensures var t := Step(s, PassesPuzzle(id, q));
            code in t.rooms && Progress(s.rooms[code].puzzles, t.rooms[code].puzzles, p, x, slack)
  {
    PassProgress(s.rooms[code].puzzles, q, id, s.now, p, x, slack, Elements(s.rooms[code].conns));
  }

  lemma FireStepProgress(s: State, at: Code, handle: nat, code: Code, p: PuzzleId, x: PlayerId, slack: nat)
    requires code in s.rooms && Orderly(s.rooms[code], s.now, slack) && Waits(s.rooms[code].puzzles, p, x)
    ensures var t := Step(s, TimerFires(at, handle));
            code in t.rooms && Progress(s.rooms[code].puzzles, t.rooms[code].puzzles, p, x, slack)
  {
    var r := s.rooms[code];
    if handle in r.puzzles.timers.armed {
      FireProgress(r.puzzles, handle, s.now, p, x, slack, Elements(r.conns));
    }
  }

  /** The other events leave the puzzles of a room alone, but for departures. */
  lemma SamePuzzles(s: State, ev: Event, code: Code)
    requires code in s.rooms && !OfPuzzles(ev) && !ev.Close? && !ev.Kick?
    requires ev.JoinRequest? && ev.request.Create? ==> ev.request.newCode != code
    ensures code in Step(s, ev).rooms && Step(s, ev).rooms[code].puzzles == s.rooms[code].puzzles
  {
    if ev.Update? && HasRoom(s, ev.id) {
      OnlyOwnState(s.rooms[s.playerRoom[ev.id]], ev.id, ev.entries);
    }
  }

  lemma StepProgress(s: State, ev: Event, code: Code, p: PuzzleId, x: PlayerId, slack: nat)
    requires code in s.rooms && Orderly(s.rooms[code], s.now, slack) && Waits(s.rooms[code].puzzles, p, x)
    requires code in Step(s, ev).rooms && x in Step(s, ev).rooms[code].conns
    requires ev.JoinRequest? && ev.request.Create? ==> ev.request.newCode != code
    requires !Restarts(s, ev, code, p)
    ensures Progress(s.rooms[code].puzzles, Step(s, ev).rooms[code].puzzles, p, x, slack)
  {
    match ev
    case StartsPuzzle(id, q) => StartStepProgress(s, id, q, code, p, x, slack);
    case PassesPuzzle(id, q) => PassStepProgress(s, id, q, code, p, x, slack);
    case TimerFires(at, handle) => FireStepProgress(s, at, handle, code, p, x, slack);
    case Close(id) => RemoveProgress(Hangup(s, id), id, code, p, x, slack);
    case Kick(id) => if HasRoom(s, id) { RemoveProgress(Hangup(Announce(s, id), id), id, code, p, x, slack); }
    case _ => SamePuzzles(s, ev, code);
  }

  // ---- runs ------------------------------------------------------------------------------------------------

  /** Nobody restarts the puzzle between state i and state j. */
  ghost predicate Undisturbed(run: Run, i: nat, j: nat, code: Code, p: PuzzleId)
    requires i <= j < |run.states| == |run.events| + 1
  {
    forall k :: i <= k < j ==> !Restarts(run.states[k], run.events[k], code, p)
  }

  ghost predicate Controls(s: State, code: Code, p: PuzzleId, x: PlayerId) {
    code in s.rooms && p in s.rooms[code].puzzles.sessions && s.rooms[code].puzzles.sessions[p].currentController == x
  }

  ghost predicate HasControlled(run: Run, i: nat, j: nat, code: Code, p: PuzzleId, x: PlayerId)
    requires i <= j < |run.states|
  {
    exists k :: i <= k <= j && Controls(run.states[k], code, p, x)
  }

  lemma ReachableOrderly(run: Run, slack: nat, i: nat, code: Code)
    requires IsRun(run, slack) && i < |run.states| && code in run.states[i].rooms
    ensures Orderly(run.states[i].rooms[code], run.states[i].now, slack)
  {
    ReachableOk(run, slack, i);
  }

  /** One step of a run, for someone who waits and stays. */
  lemma ProgressAt(run: Run, slack: nat, k: nat, code: Code, p: PuzzleId, x: PlayerId)
    requires IsRun(run, slack) && k < |run.events|
    requires code in run.states[k].rooms && Waits(run.states[k].rooms[code].puzzles, p, x)
    requires code in run.states[k + 1].rooms && x in run.states[k + 1].rooms[code].conns
    requires !Restarts(run.states[k], run.events[k], code, p)
    ensures Progress(run.states[k].rooms[code].puzzles, run.states[k + 1].rooms[code].puzzles, p, x, slack)
  {
    ReachableOrderly(run, slack, k, code);
    assert StepAt(run, k, slack);
    StepProgress(run.states[k], run.events[k], code, p, x, slack);
  }

  lemma ProgressIsDue(z: PuzzleState, y: PuzzleState, p: PuzzleId, x: PlayerId, slack: nat)
    requires Waits(z, p, x) && Progress(z, y, p, x, slack) && y.sessions[p].currentController != x
    ensures Waits(y, p, x) && Due(y.sessions[p], x, slack) <= Due(z.sessions[p], x, slack)
  {}

  lemma {:induction false} DueKept(run: Run, slack: nat, i: nat, j: nat, code: Code, p: PuzzleId, x: PlayerId)
    requires IsRun(run, slack) && i <= j < |run.states| && Undisturbed(run, i, j, code, p)
    requires code in run.states[i].rooms && Queued(run.states[i].rooms[code].puzzles, p, x)
    requires x in run.states[i].rooms[code].conns
    requires code in run.states[j].rooms && x in run.states[j].rooms[code].conns
    requires !HasControlled(run, i, j, code, p, x)
    ensures Waits(run.states[j].rooms[code].puzzles, p, x)
    ensures Due(run.states[j].rooms[code].puzzles.sessions[p], x, slack)
            <= Due(run.states[i].rooms[code].puzzles.sessions[p], x, slack)
    decreases j - i
  {
    assert !Controls(run.states[j], code, p, x);
    if i < j {
      MemberThroughout(run, slack, i, j - 1, j, code, x);
      assert !HasControlled(run, i, j - 1, code, p, x);
      DueKept(run, slack, i, j - 1, code, p, x);
      ProgressAt(run, slack, j - 1, code, p, x);
      ProgressIsDue(run.states[j - 1].rooms[code].puzzles, run.states[j].rooms[code].puzzles, p, x, slack);
    }
  }

  /** Who waits is not overdue. */
  lemma NotYetDue(z: PuzzleState, p: PuzzleId, x: PlayerId, now: int, slack: nat, members: set<PlayerId>)
    requires QueuesOk(z, members) && Clocked(z, now, slack) && Waits(z, p, x)
    ensures now <= Due(z.sessions[p], x, slack)
  {}

  /**
   In every timed run without a restart, under any mix of passes, expiries, joins and departures, a player at
   position k of the queue who stays has had the token by the time k turns are over, counted from the grant.
   */
  lemma BoundedWaiting(run: Run, slack: nat, i: nat, j: nat, code: Code, p: PuzzleId, x: PlayerId)
    requires IsRun(run, slack) && i <= j < |run.states| && Undisturbed(run, i, j, code, p)
    requires code in run.states[i].rooms && Queued(run.states[i].rooms[code].puzzles, p, x)
    requires code in run.states[j].rooms && x in run.states[j].rooms[code].conns
    requires var s := run.states[i].rooms[code].puzzles.sessions[p];
             run.states[j].now > s.tokenGrantedAt + IndexOf(s.controlQueue, x) * (s.tokenDuration + slack)
    ensures exists k :: i <= k <= j && Controls(run.states[k], code, p, x)
  {
    QueuesHold(run, slack, i, code, p);
    if !HasControlled(run, i, j, code, p, x) {
      DueKept(run, slack, i, j, code, p, x);
      ReachableOrderly(run, slack, j, code);
      NotYetDue(run.states[j].rooms[code].puzzles, p, x, run.states[j].now, slack,
          Elements(run.states[j].rooms[code].conns));
    }
  }
}
