/**
 The gate of a client against the puzzles of its room, for any number of puzzles. The queues of live puzzles are
 nested, since a later start takes everyone who is there; so the end of one puzzle is never the last that a client
 hears while another is live.
 */
module Gates {
  import opened Keys
  import opened Protocol
  import opened Puzzles
  import opened Mirror
  import opened PuzzleTracking

  ghost predicate Within(z: PuzzleState, p: PuzzleId, q: PuzzleId)
    requires p in z.sessions && q in z.sessions
  {
    forall x :: x in z.sessions[p].controlQueue ==> x in z.sessions[q].controlQueue
  }

  ghost predicate Nested(z: PuzzleState) {
    forall p, q :: p in z.sessions && q in z.sessions ==> Within(z, p, q) || Within(z, q, p)
  }

  ghost predicate Live(z: PuzzleState) {
    z.sessions != map[]
  }

  ghost predicate HasToken(msgs: seq<Msg>) {
    exists k :: 0 <= k < |msgs| && msgs[k].PuzzleToken?
  }

  ghost predicate OnlyEnds(msgs: seq<Msg>) {
    forall k :: 0 <= k < |msgs| ==> msgs[k].PuzzleEnd?
  }

  /**
   A client against the puzzles: while one is live it shows one exactly if it was ever told of a token; one that
   was not shows nothing, and whoever is in a queue was told.
   */
  ghost predicate Gated(z: PuzzleState, c: PlayerId, v: PuzzleMirror, told: bool) {
    && Tracks(z, v)
    && (told && Live(z) ==> v.active)
    && (!told ==> v == NO_PUZZLE_MIRROR)
    && (forall p :: p in z.sessions && c in z.sessions[p].controlQueue ==> told)
  }

  /** What an operation does for the gates: they stay right, the queues nested, and a start comes with a token. */
  ghost predicate KeepsGate(o: Out, c: PlayerId, v: PuzzleMirror, told: bool) {
    && Gated(o.z, c, OnPuzzles(v, o.msgs), told || HasToken(o.msgs))
    && (HasToken(o.msgs) || OnlyEnds(o.msgs))
  }

  // ---- what packets do to what is shown ----------------------------------------------------------------------

  lemma {:induction false} EndsShowNothing(msgs: seq<Msg>)
    requires OnlyEnds(msgs)
    ensures OnPuzzles(NO_PUZZLE_MIRROR, msgs) == NO_PUZZLE_MIRROR
    decreases |msgs|
  {
    if |msgs| > 0 {
      EndsShowNothing(msgs[1..]);
    }
  }

  /** After a token, what was shown before makes no difference. */
  lemma {:induction false} TokenForgets(v: PuzzleMirror, w: PuzzleMirror, msgs: seq<Msg>)
    requires v == w || HasToken(msgs)
    ensures OnPuzzles(v, msgs) == OnPuzzles(w, msgs)
    decreases |msgs|
  {
    if |msgs| > 0 && v != w {
      if !msgs[0].PuzzleToken? {
        var k :| 0 <= k < |msgs| && msgs[k].PuzzleToken?;
        assert msgs[1..][k - 1] == msgs[k];
      }
      TokenForgets(OnPuzzle(v, msgs[0]), OnPuzzle(w, msgs[0]), msgs[1..]);
    }
  }

  lemma HasTokenConcat(a: seq<Msg>, b: seq<Msg>)
    ensures HasToken(a + b) <==> HasToken(a) || HasToken(b)
  {
    if HasToken(a) {
      var k :| 0 <= k < |a| && a[k].PuzzleToken?;
      assert (a + b)[k] == a[k];
    }
    if HasToken(b) {
      var k :| 0 <= k < |b| && b[k].PuzzleToken?;
      assert (a + b)[|a| + k] == b[k];
    }
  }

  // ---- starting and moving on --------------------------------------------------------------------------------

  lemma StartGate(z: PuzzleState, p: PuzzleId, ids: seq<PlayerId>, duration: nat, now: int,
                  c: PlayerId, v: PuzzleMirror, told: bool)
    requires p != NO_PUZZLE && |ids| > 0
    ensures KeepsGate(Start(z, p, ids, duration, now), c, v, told)
  {
    var o := Start(z, p, ids, duration, now);
    StartKeeps(z, p, ids, duration, now, v);
    assert o.msgs[1].PuzzleToken?;
  }

  lemma StartNested(z: PuzzleState, p: PuzzleId, ids: seq<PlayerId>, duration: nat, now: int)
    requires Nested(z) && |ids| > 0 && QueuesOk(z, Elements(ids))
    ensures Nested(Start(z, p, ids, duration, now).z)
  {
    var y := Start(z, p, ids, duration, now).z;
    forall q | q in y.sessions ensures Within(y, q, p) {
      if q != p {
        assert QueueOk(z.sessions[q], Elements(ids));
      }
    }
    forall q, r | q in y.sessions && r in y.sessions ensures Within(y, q, r) || Within(y, r, q) {
      assert q != p && r != p ==> Within(z, q, r) || Within(z, r, q);
    }
  }

  lemma NextGate(
      z: PuzzleState, p: PuzzleId, now: int, members: set<PlayerId>, c: PlayerId, v: PuzzleMirror, told: bool)
    requires Named(z) && QueuesOk(z, members) && Gated(z, c, v, told)
    ensures KeepsGate(Next(z, p, now), c, v, told)
  {
    if p in z.sessions {
      assert QueueOk(z.sessions[p], members);
      NextKeeps(z, p, now, v);
      var o := Next(z, p, now);
      assert o.msgs[0].PuzzleToken?;
      OneMsg(v, o.msgs[0]);
    }
  }

  lemma NextNested(z: PuzzleState, p: PuzzleId, now: int, members: set<PlayerId>)
    requires Nested(z) && QueuesOk(z, members)
    ensures Nested(Next(z, p, now).z)
  {
    var y := Next(z, p, now).z;
    if p in z.sessions {
      var q := z.sessions[p].controlQueue;
      assert QueueOk(z.sessions[p], members);
      assert forall x :: x in q <==> x in q[1..] + [q[0]];
    }
    forall q, r | q in y.sessions && r in y.sessions ensures Within(y, q, r) || Within(y, r, q) {
      assert Within(z, q, r) || Within(z, r, q);
    }
  }

  lemma PassGate(z: PuzzleState, p: PuzzleId, id: PlayerId, now: int, members: set<PlayerId>,
                 c: PlayerId, v: PuzzleMirror, told: bool)
    requires Named(z) && QueuesOk(z, members) && Gated(z, c, v, told)
    ensures KeepsGate(Pass(z, p, id, now), c, v, told)
  {
    NextGate(z, p, now, members, c, v, told);
  }

  lemma FireGate(
      z: PuzzleState, handle: nat, now: int, members: set<PlayerId>, c: PlayerId, v: PuzzleMirror, told: bool)
    requires Named(z) && QueuesOk(z, members) && Gated(z, c, v, told) && handle in z.timers.armed
    ensures KeepsGate(Fire(z, handle, now), c, v, told)
  {
    var y := z.(timers := z.timers.(armed := z.timers.armed - {handle}));
    NextGate(y, z.timers.armed[handle].puzzleId, now, members, c, v, told);
  }

  // ---- a departure -------------------------------------------------------------------------------------------

  /** The queue holds nobody else. */
  ghost predicate Only(s: PuzzleSession, gone: PlayerId) {
    forall x :: x in s.controlQueue ==> x == gone
  }

  /** One puzzle: it says nothing if the player was not in it, ends if nobody else was, and tells everyone otherwise. */
  lemma DropSays(z: PuzzleState, p: PuzzleId, gone: PlayerId, now: int, members: set<PlayerId>, v: PuzzleMirror)
    requires p in z.sessions && QueuesOk(z, members)
    ensures var o, s := Drop(z, p, gone, now), z.sessions[p];
            var w := OnPuzzles(v, o.msgs);
            if gone !in s.controlQueue then o == Out(z, []) && w == v
            else if Only(s, gone) then
              o.msgs == [PuzzleEnd(p)] && o.z.sessions == z.sessions - {p} && w == OnPuzzle(v, PuzzleEnd(p))
            else
              && |o.msgs| == 1 && o.msgs[0].PuzzleToken? && w.active && w.puzzleId == p
              && o.z.sessions == z.sessions[p := o.z.sessions[p]] && p in o.z.sessions
              && (forall x :: x in o.z.sessions[p].controlQueue <==> x in s.controlQueue && x != gone)
  {
    var s := z.sessions[p];
    assert QueueOk(s, members);
    if gone in s.controlQueue {
      var rest := Without(s.controlQueue, gone);
      WithoutKeys(s.controlQueue, gone);
      assert |rest| == 0 <==> Only(s, gone) by {
        if |rest| > 0 {
          assert rest[0] in rest;
        }
      }
      OneMsg(v, Drop(z, p, gone, now).msgs[0]);
    }
  }

  /** If nobody's puzzle ends, whoever hears anything shows a puzzle. */
  lemma {:induction false} DropAllTells(z: PuzzleState, ids: seq<PuzzleId>, gone: PlayerId, now: int,
                                        members: set<PlayerId>, v: PuzzleMirror)
    requires OrderOk(z) && QueuesOk(z, members)
    requires forall p :: p in z.sessions ==> !Only(z.sessions[p], gone)
    ensures var o := DropAll(z, ids, gone, now);
            var w := OnPuzzles(v, o.msgs);
            && o.z.sessions.Keys == z.sessions.Keys
            && (forall k :: 0 <= k < |o.msgs| ==> o.msgs[k].PuzzleToken?)
            && (if |o.msgs| == 0 then w == v else w.active)
    decreases |ids|
  {
    if |ids| > 0 {
      var first := Drop(z, ids[0], gone, now);
      if ids[0] in z.sessions {
        DropSays(z, ids[0], gone, now, members, v);
      }
      DropQueues(z, ids[0], gone, now, members);
      var w := OnPuzzles(v, first.msgs);
      DropAllTells(first.z, ids[1..], gone, now, members, w);
      OnPuzzlesConcat(v, first.msgs, DropAll(first.z, ids[1..], gone, now).msgs);
    }
  }

  /** A puzzle that the loop is past, and that is still live. */
  ghost predicate Survives(z: PuzzleState, ids: seq<PuzzleId>) {
    exists p :: p in z.sessions && p !in ids
  }

  ghost predicate ShowsSurvivor(v: PuzzleMirror, ids: seq<PuzzleId>) {
    v.active && v.puzzleId !in ids && v.puzzleId != NO_PUZZLE
  }

  /** One round of the loop, for a player in every queue. */
  lemma DropShows(z: PuzzleState, ids: seq<PuzzleId>, gone: PlayerId, now: int, members: set<PlayerId>, v: PuzzleMirror)
    requires Named(z) && QueuesOk(z, members) && Distinct(ids) && |ids| > 0
    requires ids[0] in z.sessions && gone in z.sessions[ids[0]].controlQueue
    requires Survives(z, ids) ==> ShowsSurvivor(v, ids)
    ensures var o := Drop(z, ids[0], gone, now);
            Survives(o.z, ids[1..]) ==> ShowsSurvivor(OnPuzzles(v, o.msgs), ids[1..])
  {
    var p, o := ids[0], Drop(z, ids[0], gone, now);
    DropSays(z, p, gone, now, members, v);
    if Only(z.sessions[p], gone) {
      if q :| q in o.z.sessions && q !in ids[1..] {
        assert q in z.sessions && q !in ids;
        assert v.puzzleId != p;
      }
    } else {
      assert p !in ids[1..] && p != NO_PUZZLE;
    }
  }

  lemma RestStays(z: PuzzleState, y: PuzzleState, ids: seq<PuzzleId>, gone: PlayerId)
    requires Distinct(ids) && |ids| > 0
    requires forall k :: 0 <= k < |ids| ==> ids[k] in z.sessions && gone in z.sessions[ids[k]].controlQueue
    requires forall p :: p != ids[0] && p in z.sessions ==> p in y.sessions && y.sessions[p] == z.sessions[p]
    ensures forall k :: 0 <= k < |ids[1..]| ==>
              ids[1..][k] in y.sessions && gone in y.sessions[ids[1..][k]].controlQueue
  {
    assert forall k :: 0 <= k < |ids[1..]| ==> ids[1..][k] == ids[k + 1] != ids[0];
  }

  /** If the player was in every queue, the last that is heard is the token of a puzzle that goes on, if one does. */
  lemma {:induction false} DropAllShows(z: PuzzleState, ids: seq<PuzzleId>, gone: PlayerId, now: int,
                                        members: set<PlayerId>, v: PuzzleMirror)
    requires Named(z) && OrderOk(z) && QueuesOk(z, members) && Distinct(ids)
    requires forall k :: 0 <= k < |ids| ==> ids[k] in z.sessions && gone in z.sessions[ids[k]].controlQueue
    requires Survives(z, ids) ==> ShowsSurvivor(v, ids)
    ensures var o := DropAll(z, ids, gone, now); Live(o.z) ==> OnPuzzles(v, o.msgs).active
    decreases |ids|
  {
    if |ids| > 0 {
      var first := Drop(z, ids[0], gone, now);
      DropShows(z, ids, gone, now, members, v);
      DropQueues(z, ids[0], gone, now, members);
      DropKeeps(z, ids[0], gone, now, v);
      var w := OnPuzzles(v, first.msgs);
      RestStays(z, first.z, ids, gone);
      DropAllShows(first.z, ids[1..], gone, now, members, w);
      OnPuzzlesConcat(v, first.msgs, DropAll(first.z, ids[1..], gone, now).msgs);
    } else if Live(z) {
      var p :| p in z.sessions;
      assert Survives(z, ids);
    }
  }

  /** If some puzzle ends with the player, the player was in every queue. */
  lemma InAllQueues(z: PuzzleState, gone: PlayerId, p: PuzzleId, members: set<PlayerId>)
    requires Nested(z) && QueuesOk(z, members) && p in z.sessions && Only(z.sessions[p], gone)
    ensures forall q :: q in z.sessions ==> gone in z.sessions[q].controlQueue
  {
    assert QueueOk(z.sessions[p], members);
    forall q | q in z.sessions ensures gone in z.sessions[q].controlQueue {
      assert QueueOk(z.sessions[q], members);
      assert z.sessions[p].controlQueue[0] in z.sessions[p].controlQueue;
      assert Within(z, p, q) || Within(z, q, p);
      assert z.sessions[q].controlQueue[0] in z.sessions[q].controlQueue;
    }
  }

  /** Tokens and ends, and what is left of each queue is the queue without the player. */
  ghost predicate Leaves(z: PuzzleState, o: Out, gone: PlayerId) {
    && (HasToken(o.msgs) || OnlyEnds(o.msgs))
    && (forall p :: p in o.z.sessions ==> p in z.sessions)
    && (forall p, x :: p in o.z.sessions && x != gone ==>
          (x in o.z.sessions[p].controlQueue <==> x in z.sessions[p].controlQueue))
  }

  lemma DropLeaves(z: PuzzleState, p: PuzzleId, gone: PlayerId, now: int, members: set<PlayerId>)
    requires QueuesOk(z, members)
    ensures Leaves(z, Drop(z, p, gone, now), gone)
  {
    if p in z.sessions {
      DropSays(z, p, gone, now, members, NO_PUZZLE_MIRROR);
    }
  }

  lemma {:induction false} DropAllLeaves(
      z: PuzzleState, ids: seq<PuzzleId>, gone: PlayerId, now: int, members: set<PlayerId>)
    requires OrderOk(z) && QueuesOk(z, members)
    ensures Leaves(z, DropAll(z, ids, gone, now), gone)
    decreases |ids|
  {
    if |ids| > 0 {
      var first := Drop(z, ids[0], gone, now);
      DropLeaves(z, ids[0], gone, now, members);
      DropQueues(z, ids[0], gone, now, members);
      DropAllLeaves(first.z, ids[1..], gone, now, members);
      HasTokenConcat(first.msgs, DropAll(first.z, ids[1..], gone, now).msgs);
    }
  }

  lemma DisconnectNested(z: PuzzleState, gone: PlayerId, now: int, members: set<PlayerId>)
    requires Nested(z) && OrderOk(z) && QueuesOk(z, members) && TimersOk(z)
    ensures Nested(Disconnect(z, gone, now).z)
  {
    var y := Disconnect(z, gone, now).z;
    DropAllLeaves(z, z.order, gone, now, members);
    DisconnectOk(z, gone, now, members);
    forall q | q in y.sessions ensures gone !in y.sessions[q].controlQueue {
      assert QueueOk(y.sessions[q], members - {gone});
    }
    forall q, r | q in y.sessions && r in y.sessions ensures Within(y, q, r) || Within(y, r, q) {
      assert Within(z, q, r) || Within(z, r, q);
    }
  }

  /** After a departure a client that was told shows a puzzle whenever one is still live. */
  lemma DisconnectShows(z: PuzzleState, gone: PlayerId, now: int, members: set<PlayerId>, v: PuzzleMirror, told: bool)
    requires Named(z) && Nested(z) && OrderOk(z) && QueuesOk(z, members)
    requires told && Live(z) ==> v.active
    ensures var o := Disconnect(z, gone, now);
            (told || HasToken(o.msgs)) && Live(o.z) ==> OnPuzzles(v, o.msgs).active
  {
    var o := Disconnect(z, gone, now);
    if p :| p in z.sessions && Only(z.sessions[p], gone) {
      InAllQueues(z, gone, p, members);
      DropAllShows(z, z.order, gone, now, members, v);
    } else {
      DropAllTells(z, z.order, gone, now, members, v);
      if |o.msgs| == 0 && Live(o.z) {
        var p :| p in o.z.sessions;
        assert p in z.sessions;
      }
    }
  }

  lemma DisconnectGate(z: PuzzleState, gone: PlayerId, now: int, members: set<PlayerId>,
                       c: PlayerId, v: PuzzleMirror, told: bool)
    requires Named(z) && Nested(z) && OrderOk(z) && QueuesOk(z, members) && Gated(z, c, v, told) && c != gone
    ensures KeepsGate(Disconnect(z, gone, now), c, v, told)
  {
    var o := Disconnect(z, gone, now);
    DropAllKeepsMirror(z, z.order, gone, now, v);
    DisconnectShows(z, gone, now, members, v, told);
    DropAllLeaves(z, z.order, gone, now, members);
    if OnlyEnds(o.msgs) {
      EndsShowNothing(o.msgs);
    }
  }
}
