/** Every run of the server, however it interleaves: what holds in every state it reaches. */
module Runs {
  import opened Keys
  import opened Protocol
  import opened Puzzles
  import opened Mirror
  import opened Rooms
  import opened ClientView
  import opened Server
  import opened ServerInvariant

  datatype Run = Run(states: seq<State>, events: seq<Event>)

  /** A run starts with a configured, empty server; the configuration clamps `maxPlayers` to 1..8. */
  ghost predicate IsRun(run: Run, slack: nat) {
    && |run.states| == |run.events| + 1
    && (exists maxPlayers: nat :: 1 <= maxPlayers <= MAX_PLAYERS_HARD && run.states[0] == Boot(maxPlayers))
    && forall i :: 0 <= i < |run.events| ==> StepAt(run, i, slack)
  }

  ghost predicate StepAt(run: Run, i: nat, slack: nat)
    requires i < |run.events| < |run.states|
  {
    Enabled(run.states[i], run.events[i], slack) && run.states[i + 1] == Step(run.states[i], run.events[i])
  }

  lemma {:induction false} ReachableOk(run: Run, slack: nat, i: nat)
    requires IsRun(run, slack) && i < |run.states|
    ensures Inv(run.states[i], slack)
  {
    if i == 0 {
      var maxPlayers: nat :| 1 <= maxPlayers <= MAX_PLAYERS_HARD && run.states[0] == Boot(maxPlayers);
      BootOk(maxPlayers, slack);
    } else {
      ReachableOk(run, slack, i - 1);
      assert StepAt(run, i - 1, slack);
      StepOk(run.states[i - 1], run.events[i - 1], slack);
    }
  }

  lemma MemberView(s: State, slack: nat, code: Code, c: PlayerId)
    requires Inv(s, slack) && code in s.rooms && c in s.rooms[code].conns
    ensures c in s.net.logs && ClientOk(s.rooms[code], s.inRoom, c, s.net.logs[c], c in s.net.open)
  {}

  /** What a client holds is what the server's room says of its members. */
  ghost predicate Projects(r: Room, c: PlayerId, m: Mirror) {
    && m.localId == c
    && m.remotes.Keys == Elements(r.conns) - {c}
    && (forall id :: id in m.remotes ==> id in r.players && m.remotes[id].inCutscene == r.players[id].inCutscene)
    && (m.isHost <==> r.hostId == c)
  }

  lemma MirrorProjects(r: Room, c: PlayerId, m: Mirror)
    requires KeysOk(r) && MirrorOk(r, c, m)
    ensures Projects(r, c, m)
  {}

  lemma MemberProjects(s: State, slack: nat, code: Code, c: PlayerId)
    requires Inv(s, slack) && code in s.rooms && c in s.rooms[code].conns && c in s.net.open
    ensures c in s.net.logs && Projects(s.rooms[code], c, Replay(s.net.logs[c]))
  {
    MemberView(s, slack, code, c);
    MirrorProjects(s.rooms[code], c, Replay(s.net.logs[c]));
  }

  /** Replaying everything sent to a member, delivered or not, gives the server's projection of its room. */
  lemma ReplayIsProjection(run: Run, slack: nat, i: nat, code: Code, c: PlayerId)
    requires IsRun(run, slack) && i < |run.states|
    requires var s := run.states[i]; code in s.rooms && c in s.rooms[code].conns && c in s.net.open
    ensures var s := run.states[i]; c in s.net.logs && Projects(s.rooms[code], c, Replay(s.net.logs[c]))
  {
    ReachableOk(run, slack, i);
    MemberProjects(run.states[i], slack, code, c);
  }

  /** A member whose client believes it is the host, after whatever part of its packets has arrived, is the host. */
  lemma BelieverIsHost(s: State, slack: nat, code: Code, c: PlayerId, arrived: nat)
    requires Inv(s, slack) && code in s.rooms && c in s.rooms[code].conns && c in s.net.logs
             && arrived <= |s.net.logs[c]|
    ensures Replay(s.net.logs[c][..arrived]).isHost ==> s.rooms[code].hostId == c
  {
    MemberView(s, slack, code, c);
    var log := s.net.logs[c];
    if s.rooms[code].hostId != c {
      forall msg | msg in log ensures !Crowns(msg, c) {
        var k :| 0 <= k < |log| && log[k] == msg;
      }
      BelievesOnlyIfCrowned(log, c, arrived);
    }
  }

  /** No split brain, however long packets are delayed: two members that believe they are host are one, and it is. */
  lemma NoSplitBrain(run: Run, slack: nat, i: nat, code: Code, a: PlayerId, b: PlayerId, arrivedA: nat, arrivedB: nat)
    requires IsRun(run, slack) && i < |run.states|
    requires var s := run.states[i];
             && code in s.rooms && a in s.rooms[code].conns && b in s.rooms[code].conns
             && a in s.net.logs && b in s.net.logs && arrivedA <= |s.net.logs[a]| && arrivedB <= |s.net.logs[b]|
    requires Replay(run.states[i].net.logs[a][..arrivedA]).isHost
             && Replay(run.states[i].net.logs[b][..arrivedB]).isHost
    ensures a == b == run.states[i].rooms[code].hostId
  {
    ReachableOk(run, slack, i);
    BelieverIsHost(run.states[i], slack, code, a, arrivedA);
    BelieverIsHost(run.states[i], slack, code, b, arrivedB);
  }

  /** Index agreement and the limits on rooms, between events. */
  lemma IndexesAgree(run: Run, slack: nat, i: nat, p: PlayerId, code: Code)
    requires IsRun(run, slack) && i < |run.states|
    ensures var s := run.states[i];
            && (p in s.playerRoom && s.playerRoom[p] == code <==> code in s.rooms && p in s.rooms[code].conns)
            && (code in s.rooms ==>
                  && s.rooms[code].players.Keys == Elements(s.rooms[code].conns)
                  && 0 < |s.rooms[code].conns| <= s.rooms[code].maxPlayers <= 8)
  {
    ReachableOk(run, slack, i);
    var s := run.states[i];
    if p in s.playerRoom {
      assert p in s.rooms[s.playerRoom[p]].conns;
    }
  }

  /** The host is the member that joined first of those present, and the only one the states flag as host. */
  lemma HostIsEldest(run: Run, slack: nat, i: nat, code: Code, id: PlayerId)
    requires IsRun(run, slack) && i < |run.states| && code in run.states[i].rooms
             && id in run.states[i].rooms[code].conns
    ensures var r := run.states[i].rooms[code];
            && id in r.players
            && (r.players[id].isHost <==> id == r.hostId)
            && (id == r.hostId <==> IndexOf(r.conns, id) == 0)
  {
    ReachableOk(run, slack, i);
  }

  /** The puzzle queues of every live puzzle. */
  lemma QueuesHold(run: Run, slack: nat, i: nat, code: Code, p: PuzzleId)
    requires IsRun(run, slack) && i < |run.states|
    requires code in run.states[i].rooms && p in run.states[i].rooms[code].puzzles.sessions
    ensures QueueOk(run.states[i].rooms[code].puzzles.sessions[p], Elements(run.states[i].rooms[code].conns))
  {
    ReachableOk(run, slack, i);
  }

  /**
   Timers: one for each live puzzle of a live room, none for a room that was destroyed, whose tick has stopped
   too.
   */
  lemma TimersAccountedFor(run: Run, slack: nat, i: nat)
    requires IsRun(run, slack) && i < |run.states|
    ensures var s := run.states[i];
            && (forall code :: code in s.rooms ==> TimersOk(s.rooms[code].puzzles) && s.rooms[code].ticking)
            && (forall k :: 0 <= k < |s.retired| ==>
                  s.retired[k].puzzles.timers.armed == map[] && !s.retired[k].ticking)
  {
    ReachableOk(run, slack, i);
  }
}
