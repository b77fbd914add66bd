/** The puzzle mirror of a client against the puzzles of the server, packet by packet. */
module PuzzleTracking {
  import opened Keys
  import opened Protocol
  import opened Puzzles
  import opened Mirror

  /** What the client shows is the live state of the puzzle it shows; a client without one shows nothing. */
  ghost predicate Tracks(z: PuzzleState, v: PuzzleMirror) {
    if v.active then
      && v.puzzleId != NO_PUZZLE
      && v.puzzleId in z.sessions
      && v.controllerId == z.sessions[v.puzzleId].currentController
      && v.queue == z.sessions[v.puzzleId].controlQueue
    else v == NO_PUZZLE_MIRROR
  }

  /** What every operation on the puzzles does for a client that receives its packets. */
  ghost predicate Keeps(z: PuzzleState, o: Out, v: PuzzleMirror) {
    && (forall msg :: msg in o.msgs ==> IsPuzzleMsg(msg))
    && (Tracks(z, v) ==> Tracks(o.z, OnPuzzles(v, o.msgs)))
  }

  lemma OneMsg(v: PuzzleMirror, msg: Msg)
    ensures OnPuzzles(v, [msg]) == OnPuzzle(v, msg)
  {}

  lemma HandToKeeps(z: PuzzleState, puzzleId: PuzzleId, queue: seq<PlayerId>, now: int, v: PuzzleMirror)
    requires puzzleId in z.sessions && puzzleId != NO_PUZZLE && |queue| > 0
    requires forall x :: x in queue ==> x in z.sessions[puzzleId].controlQueue
    ensures Keeps(z, HandTo(z, puzzleId, queue, now), v)
  {}

  /** Ending a puzzle, its queue perhaps shortened before. */
  lemma EndKeeps(z: PuzzleState, y: PuzzleState, puzzleId: PuzzleId, v: PuzzleMirror)
    requires puzzleId in z.sessions && puzzleId in y.sessions && puzzleId != NO_PUZZLE
    requires y.sessions - {puzzleId} == z.sessions - {puzzleId}
    ensures Keeps(z, End(y, puzzleId), v)
  {}

  /** A departure from behind the head: everyone is told the shorter queue. */
  lemma ShortenKeeps(z: PuzzleState, puzzleId: PuzzleId, rest: seq<PlayerId>, now: int, v: PuzzleMirror)
    requires puzzleId in z.sessions && puzzleId != NO_PUZZLE
    requires forall x :: x in rest ==> x in z.sessions[puzzleId].controlQueue
    ensures var s := z.sessions[puzzleId].(controlQueue := rest);
            Keeps(z, Out(z.(sessions := z.sessions[puzzleId := s]), [TokenMsg(puzzleId, s, now)]), v)
  {
    OneMsg(v, TokenMsg(puzzleId, z.sessions[puzzleId].(controlQueue := rest), now));
  }

  /** A start shows the puzzle to everyone, whatever they showed before. */
  lemma StartKeeps(z: PuzzleState, puzzleId: PuzzleId, ids: seq<PlayerId>, duration: nat, now: int, v: PuzzleMirror)
    requires puzzleId != NO_PUZZLE && |ids| > 0
    ensures var o := Start(z, puzzleId, ids, duration, now);
            var w := OnPuzzles(v, o.msgs);
            && (forall msg :: msg in o.msgs ==> IsPuzzleMsg(msg))
            && w.active && w.puzzleId == puzzleId && Tracks(o.z, w)
  {
    var o := Start(z, puzzleId, ids, duration, now);
    assert o.msgs == [o.msgs[0]] + [o.msgs[1]];
    OnPuzzlesConcat(v, [o.msgs[0]], [o.msgs[1]]);
    OneMsg(v, o.msgs[0]);
    OneMsg(OnPuzzle(v, o.msgs[0]), o.msgs[1]);
  }

  /** The ids of live puzzles are not empty: the handlers drop requests without one. */
  ghost predicate Named(z: PuzzleState) {
    NO_PUZZLE !in z.sessions
  }

  lemma NextKeeps(z: PuzzleState, puzzleId: PuzzleId, now: int, v: PuzzleMirror)
    requires Named(z)
    ensures Keeps(z, Next(z, puzzleId, now), v) && Named(Next(z, puzzleId, now).z)
  {
    if puzzleId in z.sessions {
      var q := z.sessions[puzzleId].controlQueue;
      if |q| == 0 {
        EndKeeps(z, z, puzzleId, v);
      } else {
        HandToKeeps(z, puzzleId, q[1..] + [q[0]], now, v);
      }
    }
  }

  lemma PassKeeps(z: PuzzleState, puzzleId: PuzzleId, playerId: PlayerId, now: int, v: PuzzleMirror)
    requires Named(z)
    ensures Keeps(z, Pass(z, puzzleId, playerId, now), v) && Named(Pass(z, puzzleId, playerId, now).z)
  {
    NextKeeps(z, puzzleId, now, v);
  }

  lemma FireKeeps(z: PuzzleState, handle: nat, now: int, v: PuzzleMirror)
    requires Named(z) && handle in z.timers.armed
    ensures Keeps(z, Fire(z, handle, now), v) && Named(Fire(z, handle, now).z)
  {
    NextKeeps(z.(timers := z.timers.(armed := z.timers.armed - {handle})), z.timers.armed[handle].puzzleId, now, v);
  }

  lemma DropKeeps(z: PuzzleState, puzzleId: PuzzleId, gone: PlayerId, now: int, v: PuzzleMirror)
    requires Named(z)
    ensures Keeps(z, Drop(z, puzzleId, gone, now), v) && Named(Drop(z, puzzleId, gone, now).z)
  {
    if puzzleId in z.sessions && gone in z.sessions[puzzleId].controlQueue {
      var s := z.sessions[puzzleId];
      var rest := Without(s.controlQueue, gone);
      assert forall x :: x in rest ==> x in s.controlQueue;
      var shorter := z.(sessions := z.sessions[puzzleId := s.(controlQueue := rest)]);
      if |rest| == 0 {
        assert shorter.sessions - {puzzleId} == z.sessions - {puzzleId};
        EndKeeps(z, shorter, puzzleId, v);
      } else if s.currentController == gone {
        HandToKeeps(z, puzzleId, rest, now, v);
      } else {
        ShortenKeeps(z, puzzleId, rest, now, v);
      }
    }
  }

  lemma {:induction false} DropAllKeepsMirror(
      z: PuzzleState, ids: seq<PuzzleId>, gone: PlayerId, now: int, v: PuzzleMirror)
    requires Named(z)
    ensures Keeps(z, DropAll(z, ids, gone, now), v) && Named(DropAll(z, ids, gone, now).z)
    decreases |ids|
  {
    if |ids| > 0 {
      DropKeeps(z, ids[0], gone, now, v);
      var first := Drop(z, ids[0], gone, now);
      var w := OnPuzzles(v, first.msgs);
      DropAllKeepsMirror(first.z, ids[1..], gone, now, w);
      OnPuzzlesConcat(v, first.msgs, DropAll(first.z, ids[1..], gone, now).msgs);
    }
  }
}
