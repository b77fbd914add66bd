/**
 How a token changes hands, over every run: by a pass, when its time is up, and at a start. The laws speak of the
 queues, the grants, the timers and the packets before and after.
 */
module Turns {
  import opened Keys
  import opened Protocol
  import opened Puzzles
  import opened Mirror
  import opened Rooms
  import opened ClientView
  import opened Channels
  import opened Server
  import opened Runs

  /** The first goes to the end, everyone else is one place further on. */
  ghost predicate Rotated(was: seq<PlayerId>, now: seq<PlayerId>) {
    && |now| == |was| > 0 && now[|was| - 1] == was[0]
    && forall k :: 0 < k < |was| ==> now[k - 1] == was[k]
  }

  /** The head of this queue has the token of p from now on, and its timer is pending. */
  ghost predicate HasTurn(y: PuzzleState, p: PuzzleId, queue: seq<PlayerId>, duration: nat, now: int) {
    && p in y.sessions && |queue| > 0
    && var s := y.sessions[p];
       && s.controlQueue == queue && s.currentController == queue[0]
       && s.tokenGrantedAt == now && s.tokenDuration == duration
       && s.tokenTimer.Some? && s.tokenTimer.value in y.timers.armed
       && y.timers.armed[s.tokenTimer.value] == Timer(p, now + duration)
  }

  /** No other puzzle changes, and no timer but that of p. */
  ghost predicate OthersPlayOn(z: PuzzleState, y: PuzzleState, p: PuzzleId) {
    && y.sessions.Keys == z.sessions.Keys + {p}
    && y.order == (if p in z.sessions then z.order else z.order + [p])
    && (forall o :: o in z.sessions && o != p ==> y.sessions[o] == z.sessions[o])
    && (forall h :: h in z.timers.armed && z.timers.armed[h].puzzleId != p ==>
          h in y.timers.armed && y.timers.armed[h] == z.timers.armed[h])
    && (forall h :: h in y.timers.armed && y.timers.armed[h].puzzleId != p ==> h in z.timers.armed)
  }

  /** All that has happened: these puzzles in the room, and these packets to its open members. */
  ghost predicate RoomPlays(s: State, t: State, code: Code, y: PuzzleState, msgs: seq<Msg>)
    requires code in s.rooms
  {
    && t == s.(rooms := s.rooms[code := s.rooms[code].(puzzles := y)], net := t.net)
    && t.net.open == s.net.open && t.net.logs.Keys == s.net.logs.Keys
    && forall c :: c in s.net.logs ==>
         t.net.logs[c] == s.net.logs[c] + if c in s.net.open && c in s.rooms[code].conns then msgs else []
  }

  /** The turn of p has begun: in the room, on every open connection, and on every screen there. */
  ghost predicate TurnBegins(s: State, t: State, code: Code, p: PuzzleId, duration: nat, before: seq<Msg>)
    requires code in s.rooms && code in t.rooms && p in t.rooms[code].puzzles.sessions
  {
    var z, y, q := s.rooms[code].puzzles, t.rooms[code].puzzles, t.rooms[code].puzzles.sessions[p].controlQueue;
    && HasTurn(y, p, q, duration, s.now) && OthersPlayOn(z, y, p)
    && RoomPlays(s, t, code, y, before + [PuzzleToken(p, q[0], duration, q)])
    && forall c :: c in t.rooms[code].conns && c in t.net.open && c in t.net.logs ==>
         Replay(t.net.logs[c]).puzzle == PuzzleMirror(true, p, q[0], q, duration)
  }

  // ---- the puzzles -------------------------------------------------------------------------------------------

  lemma TokenIsLast(log: seq<Msg>, p: PuzzleId, controller: PlayerId, duration: nat, queue: seq<PlayerId>)
    ensures Replay(log + [PuzzleToken(p, controller, duration, queue)]).puzzle ==
            PuzzleMirror(true, p, controller, queue, duration)
  {
    ReplayMore(log, [PuzzleToken(p, controller, duration, queue)]);
    ApplyOne(Replay(log), PuzzleToken(p, controller, duration, queue));
  }

  lemma NextBegins(z: PuzzleState, p: PuzzleId, now: int, members: set<PlayerId>)
    requires p in z.sessions && QueuesOk(z, members) && TimersOkBut(z, p)
    ensures var o, s := Next(z, p, now), z.sessions[p];
            && p in o.z.sessions && Rotated(s.controlQueue, o.z.sessions[p].controlQueue)
            && var q := o.z.sessions[p].controlQueue;
               && HasTurn(o.z, p, q, s.tokenDuration, now) && OthersPlayOn(z, o.z, p)
               && o.msgs == [PuzzleToken(p, q[0], s.tokenDuration, q)]
  {
    assert QueueOk(z.sessions[p], members);
    assert forall o :: o in z.sessions && o != p ==> ArmedFor(z, o);
  }

  lemma FireBegins(z: PuzzleState, h: nat, now: int, members: set<PlayerId>)
    requires h in z.timers.armed && QueuesOk(z, members) && TimersOk(z)
    ensures var o, p := Fire(z, h, now), z.timers.armed[h].puzzleId;
            && p in z.sessions && p in o.z.sessions
            && Rotated(z.sessions[p].controlQueue, o.z.sessions[p].controlQueue)
            && var q := o.z.sessions[p].controlQueue;
               && HasTurn(o.z, p, q, z.sessions[p].tokenDuration, now) && OthersPlayOn(z, o.z, p)
               && o.msgs == [PuzzleToken(p, q[0], z.sessions[p].tokenDuration, q)]
  {
    FiredBut(z, h);
    NextBegins(z.(timers := z.timers.(armed := z.timers.armed - {h})), z.timers.armed[h].puzzleId, now, members);
  }

  lemma FiredBut(z: PuzzleState, h: nat)
    requires TimersOk(z) && h in z.timers.armed
    ensures z.timers.armed[h].puzzleId in z.sessions
    ensures TimersOkBut(z.(timers := z.timers.(armed := z.timers.armed - {h})), z.timers.armed[h].puzzleId)
  {
    assert forall o :: o in z.sessions ==> ArmedFor(z, o);
  }

  lemma StartBegins(z: PuzzleState, p: PuzzleId, ids: seq<PlayerId>, duration: nat, now: int)
    requires TimersOk(z) && |ids| > 0
    ensures var o := Start(z, p, ids, duration, now);
            && HasTurn(o.z, p, ids, duration, now) && OthersPlayOn(z, o.z, p)
            && o.msgs == [PuzzleStart(p), PuzzleToken(p, ids[0], duration, ids)]
  {
    assert forall o :: o in z.sessions ==> ArmedFor(z, o);
  }

  /** What puzzles do goes to the room that has them. */
  lemma PutPlays(s: State, code: Code, o: Out)
    requires code in s.rooms
    ensures RoomPlays(s, Put(s, code, OnPuzzles'(s.rooms[code], o)), code, o.z, o.msgs)
  {}

  /** Between the two packets of a start, nobody may act. */
  ghost predicate NobodyYet(t: State, code: Code, p: PuzzleId)
    requires code in t.rooms
  {
    forall c :: c in t.rooms[code].conns && c in t.net.open && c in t.net.logs ==>
      var log := t.net.logs[c];
      && |log| > 0 && log[|log| - 1].PuzzleToken?
      && Replay(log[..|log| - 1]).puzzle == PuzzleMirror(true, p, NOBODY, [], 0)
      && !LocalInputAllowed(Replay(log[..|log| - 1]))
  }

  lemma StartShows(s: State, t: State, code: Code, p: PuzzleId, y: PuzzleState, token: Msg)
    requires code in s.rooms && RoomPlays(s, t, code, y, [PuzzleStart(p)] + [token]) && token.PuzzleToken?
    ensures NobodyYet(t, code, p)
  {
    forall c | c in t.rooms[code].conns && c in t.net.open && c in t.net.logs
      ensures var log := t.net.logs[c];
              && |log| > 0 && log[|log| - 1] == token
              && Replay(log[..|log| - 1]).puzzle == PuzzleMirror(true, p, NOBODY, [], 0)
    {
      var log, was := t.net.logs[c], s.net.logs[c];
      assert log[..|log| - 1] == was + [PuzzleStart(p)];
      ReplayMore(was, [PuzzleStart(p)]);
      ApplyOne(Replay(was), PuzzleStart(p));
    }
  }

  lemma PutBegins(s: State, code: Code, o: Out, p: PuzzleId, duration: nat, before: seq<Msg>)
    requires code in s.rooms && p in o.z.sessions
    requires var q := o.z.sessions[p].controlQueue;
             && HasTurn(o.z, p, q, duration, s.now) && OthersPlayOn(s.rooms[code].puzzles, o.z, p)
             && o.msgs == before + [PuzzleToken(p, q[0], duration, q)]
    ensures TurnBegins(s, Put(s, code, OnPuzzles'(s.rooms[code], o)), code, p, duration, before)
  {
    PutPlays(s, code, o);
    var t, q := Put(s, code, OnPuzzles'(s.rooms[code], o)), o.z.sessions[p].controlQueue;
    forall c | c in t.rooms[code].conns && c in t.net.open && c in t.net.logs
      ensures Replay(t.net.logs[c]).puzzle == PuzzleMirror(true, p, q[0], q, duration)
    {
      TokenIsLast(s.net.logs[c] + before, p, q[0], duration, q);
      assert s.net.logs[c] + before + [PuzzleToken(p, q[0], duration, q)] == s.net.logs[c] + o.msgs;
    }
  }

  // ---- the server ----------------------------------------------------------------------------------------------

  ghost predicate Plays(s: State, code: Code, p: PuzzleId) {
    code in s.rooms && p in s.rooms[code].puzzles.sessions
  }

  /** The head has moved to the end, and the next one has the token. */
  ghost predicate MovesOn(s: State, t: State, code: Code, p: PuzzleId)
    requires Plays(s, code, p)
  {
    var was := s.rooms[code].puzzles.sessions[p];
    && Plays(t, code, p)
    && Rotated(was.controlQueue, t.rooms[code].puzzles.sessions[p].controlQueue)
    && TurnBegins(s, t, code, p, was.tokenDuration, [])
  }

  /** What the laws need of a room. */
  ghost predicate InPlay(s: State, code: Code) {
    && code in s.rooms && code != NO_CODE && |s.rooms[code].conns| > 0 && NO_PUZZLE !in s.rooms[code].puzzles.sessions
    && QueuesOk(s.rooms[code].puzzles, Elements(s.rooms[code].conns)) && TimersOk(s.rooms[code].puzzles)
  }

  lemma RoomPuzzles(s: State, code: Code, slack: nat)
    requires Inv(s, slack) && code in s.rooms
    ensures InPlay(s, code)
  {
    assert RoomOk(s.rooms[code]);
  }

  lemma MemberInPlay(s: State, x: PlayerId, slack: nat)
    requires Inv(s, slack) && x in s.playerRoom
    ensures InPlay(s, s.playerRoom[x])
  {
    RoomPuzzles(s, s.playerRoom[x], slack);
  }

  lemma PassMoves(s: State, x: PlayerId, code: Code, p: PuzzleId)
    requires InPlay(s, code) && x in s.playerRoom && s.playerRoom[x] == code && Plays(s, code, p)
    requires s.rooms[code].puzzles.sessions[p].currentController == x
    ensures MovesOn(s, OnPuzzlePass(s, x, p), code, p)
  {
    var z := s.rooms[code].puzzles;
    TimersOkAllBut(z, p);
    NextBegins(z, p, s.now, Elements(s.rooms[code].conns));
    PutBegins(s, code, Next(z, p, s.now), p, z.sessions[p].tokenDuration, []);
  }

  lemma PassIgnored(s: State, x: PlayerId, p: PuzzleId)
    requires x in s.playerRoom && Plays(s, s.playerRoom[x], p) ==>
               s.rooms[s.playerRoom[x]].puzzles.sessions[p].currentController != x
    ensures OnPuzzlePass(s, x, p) == s
  {
    if HasRoom(s, x) && p != NO_PUZZLE {
      SendNothing(s.net, Elements(s.rooms[s.playerRoom[x]].conns));
    }
  }

  lemma FireMoves(s: State, code: Code, h: nat)
    requires InPlay(s, code) && h in s.rooms[code].puzzles.timers.armed
    ensures var p := s.rooms[code].puzzles.timers.armed[h].puzzleId;
            Plays(s, code, p) && MovesOn(s, Step(s, TimerFires(code, h)), code, p)
  {
    var z := s.rooms[code].puzzles;
    var p := z.timers.armed[h].puzzleId;
    FireBegins(z, h, s.now, Elements(s.rooms[code].conns));
    PutBegins(s, code, Fire(z, h, s.now), p, z.sessions[p].tokenDuration, []);
  }

  lemma StartPlays(s: State, x: PlayerId, p: PuzzleId)
    requires x in s.playerRoom && InPlay(s, s.playerRoom[x]) && p != NO_PUZZLE
    ensures var code, t := s.playerRoom[x], OnPuzzleStart(s, x, p);
            && Plays(t, code, p) && t.rooms[code].puzzles.sessions[p].controlQueue == s.rooms[code].conns
            && TurnBegins(s, t, code, p, 30000, [PuzzleStart(p)]) && NobodyYet(t, code, p)
  {
    var code := s.playerRoom[x];
    var r := s.rooms[code];
    StartBegins(r.puzzles, p, r.conns, TOKEN_DURATION, s.now);
    var o := Start(r.puzzles, p, r.conns, TOKEN_DURATION, s.now);
    PutBegins(s, code, o, p, TOKEN_DURATION, [PuzzleStart(p)]);
    assert o.msgs == [PuzzleStart(p)] + [o.msgs[1]];
    StartShows(s, OnPuzzleStart(s, x, p), code, p, o.z, o.msgs[1]);
  }

  // ---- over runs -----------------------------------------------------------------------------------------------

  /** The controller's pass moves the token to the next in the queue; anyone else's changes nothing and tells nobody. */
  ghost predicate Passed(s: State, t: State, x: PlayerId, p: PuzzleId) {
    if x in s.playerRoom && Plays(s, s.playerRoom[x], p)
       && s.rooms[s.playerRoom[x]].puzzles.sessions[p].currentController == x
    then MovesOn(s, t, s.playerRoom[x], p)
    else t == s
  }

  lemma PassPasses(s: State, x: PlayerId, p: PuzzleId, slack: nat)
    requires Inv(s, slack)
    ensures Passed(s, OnPuzzlePass(s, x, p), x, p)
  {
    if x in s.playerRoom && Plays(s, s.playerRoom[x], p)
       && s.rooms[s.playerRoom[x]].puzzles.sessions[p].currentController == x {
      MemberInPlay(s, x, slack);
      PassMoves(s, x, s.playerRoom[x], p);
    } else {
      PassIgnored(s, x, p);
    }
  }

  lemma PuzzleSteps(s: State, x: PlayerId, p: PuzzleId)
    ensures Step(s, PassesPuzzle(x, p)) == OnPuzzlePass(s, x, p)
    ensures Step(s, StartsPuzzle(x, p)) == OnPuzzleStart(s, x, p)
  {}

  /** A pass, in any run: the next in the queue has a whole turn from now on. */
  lemma PassTakesEffect(run: Run, slack: nat, i: nat, x: PlayerId, p: PuzzleId)
    requires IsRun(run, slack) && i < |run.events| && run.events[i] == PassesPuzzle(x, p)
    ensures Passed(run.states[i], run.states[i + 1], x, p)
  {
    ReachableOk(run, slack, i);
    assert StepAt(run, i, slack);
    PassPasses(run.states[i], x, p, slack);
    PuzzleSteps(run.states[i], x, p);
  }

  /** A timer goes off when the turn of its puzzle is over, at most `slack` later, and the next in the queue has one. */
  lemma TimerTakesEffect(run: Run, slack: nat, i: nat, code: Code, h: nat)
    requires IsRun(run, slack) && i < |run.events| && run.events[i] == TimerFires(code, h)
    ensures var s, t := run.states[i], run.states[i + 1];
            && code in s.rooms && h in s.rooms[code].puzzles.timers.armed
            && var p := s.rooms[code].puzzles.timers.armed[h].puzzleId;
               && Plays(s, code, p) && MovesOn(s, t, code, p) && h !in t.rooms[code].puzzles.timers.armed
               && var was := s.rooms[code].puzzles.sessions[p];
                  was.tokenGrantedAt + was.tokenDuration <= s.now <= was.tokenGrantedAt + was.tokenDuration + slack
  {
    ReachableOk(run, slack, i);
    assert StepAt(run, i, slack);
    var s := run.states[i];
    RoomPuzzles(s, code, slack);
    FireMoves(s, code, h);
    FiresOnTime(s, code, h, slack);
  }

  lemma FiresOnTime(s: State, code: Code, h: nat, slack: nat)
    requires Inv(s, slack) && Enabled(s, TimerFires(code, h), slack)
    ensures var p := s.rooms[code].puzzles.timers.armed[h].puzzleId;
            && p in s.rooms[code].puzzles.sessions
            && var was := s.rooms[code].puzzles.sessions[p];
               was.tokenGrantedAt + was.tokenDuration <= s.now <= was.tokenGrantedAt + was.tokenDuration + slack
    ensures h !in Step(s, TimerFires(code, h)).rooms[code].puzzles.timers.armed
  {
    RoomPuzzles(s, code, slack);
    FireTimers(s.rooms[code].puzzles, h, s.now);
    assert Clocked(s.rooms[code].puzzles, s.now, slack);
  }

  /** Everyone there plays, and the one that joined first has the token; whoever has no room starts nothing. */
  ghost predicate Started(s: State, t: State, x: PlayerId, p: PuzzleId) {
    if x in s.playerRoom && p != NO_PUZZLE then
      var code := s.playerRoom[x];
      && code in s.rooms && Plays(t, code, p)
      && t.rooms[code].puzzles.sessions[p].controlQueue == s.rooms[code].conns
      && TurnBegins(s, t, code, p, 30000, [PuzzleStart(p)]) && NobodyYet(t, code, p)
    else t == s
  }

  lemma StartStarts(s: State, x: PlayerId, p: PuzzleId, slack: nat)
    requires Inv(s, slack)
    ensures Started(s, OnPuzzleStart(s, x, p), x, p)
  {
    if x in s.playerRoom && p != NO_PUZZLE {
      MemberInPlay(s, x, slack);
      StartPlays(s, x, p);
    }
  }

  /** A start, in any run: the token is granted for half a minute, and before that packet arrives nobody may act. */
  lemma StartTakesEffect(run: Run, slack: nat, i: nat, x: PlayerId, p: PuzzleId)
    requires IsRun(run, slack) && i < |run.events| && run.events[i] == StartsPuzzle(x, p)
    ensures Started(run.states[i], run.states[i + 1], x, p)
  {
    ReachableOk(run, slack, i);
    assert StepAt(run, i, slack);
    StartStarts(run.states[i], x, p, slack);
    PuzzleSteps(run.states[i], x, p);
  }
}
