/**
 The client's objects, which change in place: `PuzzleSync`, `PlayerSync` and the `Session` that feeds them the
 packets. What they hold is the mirror of `Mirror`, whose replay the server's invariants speak of.
 */
module ClientSession {
  import opened Protocol
  import opened Mirror
  import Replaying = Mirror
  import opened Interpolation
  import opened Screens

  class PuzzleSync {
    var puzzleId: PuzzleId
    var controllerId: PlayerId
    var queue: seq<PlayerId>
    var puzzleActive: bool
    var tokenTimeRemaining: int
    var lastTickMs: real

    function View(): PuzzleMirror
      reads this
    {
      PuzzleMirror(puzzleActive, puzzleId, controllerId, queue, tokenTimeRemaining)
    }

    constructor ()
      ensures View() == NO_PUZZLE_MIRROR && lastTickMs == 0.0
    {
      puzzleId, controllerId, queue := NO_PUZZLE, NOBODY, [];
      puzzleActive, tokenTimeRemaining, lastTickMs := false, 0, 0.0;
    }

    method OnPuzzleStart(id: PuzzleId)
      modifies this
      ensures View() == OnPuzzle(old(View()), PuzzleStart(id)) && lastTickMs == old(lastTickMs)
    {
      puzzleId, controllerId, queue := id, NOBODY, [];
      puzzleActive := true;
      tokenTimeRemaining := 0;
    }

    method OnPuzzleToken(id: PuzzleId, controller: PlayerId, remainingMs: int, newQueue: seq<PlayerId>)
      modifies this
      ensures View() == OnPuzzle(old(View()), PuzzleToken(id, controller, remainingMs, newQueue))
              && lastTickMs == old(lastTickMs)
    {
      puzzleId, controllerId, queue := id, controller, newQueue;
      puzzleActive := true;
      tokenTimeRemaining := if remainingMs < 0 then 0 else remainingMs;
    }

    method OnPuzzleEnd(id: PuzzleId)
      modifies this
      ensures View() == OnPuzzle(old(View()), PuzzleEnd(id)) && lastTickMs == old(lastTickMs)
    {
      if puzzleId != NO_PUZZLE && puzzleId != id {
        return;
      }
      puzzleId, controllerId, queue := NO_PUZZLE, NOBODY, [];
      puzzleActive := false;
      tokenTimeRemaining := 0;
    }

    /** The countdown between tokens runs down and stops at zero; nothing else changes. */
    method Tick(nowMs: real)
      modifies this
      ensures View() == old(View()).(remainingMs := tokenTimeRemaining) && lastTickMs == nowMs
      ensures old(tokenTimeRemaining) >= 0 ==> 0 <= tokenTimeRemaining <= old(tokenTimeRemaining)
      ensures old(puzzleActive) && old(lastTickMs) != 0.0 && nowMs > old(lastTickMs) ==>
                var left := old(tokenTimeRemaining) - (nowMs - old(lastTickMs)).Floor;
                tokenTimeRemaining == if left < 0 then 0 else left
      ensures !old(puzzleActive) || nowMs <= old(lastTickMs) || old(lastTickMs) == 0.0
              ==> tokenTimeRemaining == old(tokenTimeRemaining)
    {
      if lastTickMs == 0.0 {
        lastTickMs := nowMs;
      }
      var dt := nowMs - lastTickMs;
      lastTickMs := nowMs;
      if puzzleActive && dt > 0.0 {
        var rem := tokenTimeRemaining - dt.Floor;
        tokenTimeRemaining := if rem < 0 then 0 else rem;
      }
    }
  }

  /** The other players; C++'s `std::map` of values. */
  class PlayerSync {
    var localId: PlayerId
    var remotes: Players

    constructor ()
      ensures localId == NOBODY && remotes == map[]
    {
      localId, remotes := NOBODY, map[];
    }

    method ApplyStateUpdate(players: seq<PlayerState>, nowMs: real)
      modifies this`remotes
      ensures remotes == UpdateEach(localId, old(remotes), players, nowMs)
    {
      var i := 0;
      while i < |players|
        invariant 0 <= i <= |players|
        invariant UpdateEach(localId, remotes, players[i..], nowMs) == UpdateEach(localId, old(remotes), players, nowMs)
      {
        var p := players[i];
        assert players[i..][1..] == players[i + 1..];
        if p.id != localId {
          var rp := if p.id in remotes then remotes[p.id] else NEW_REMOTE;
          remotes := remotes[p.id := Updated(rp, p, nowMs)];
        }
        i := i + 1;
      }
    }

    method AddRemotePlayer(id: PlayerId)
      modifies this`remotes
      ensures id in remotes && (id in old(remotes) ==> remotes == old(remotes))
      ensures id !in old(remotes) ==> remotes == old(remotes)[id := NEW_REMOTE]
    {
      if id !in remotes {
        remotes := remotes[id := NEW_REMOTE];
      }
    }

    method RemoveRemotePlayer(id: PlayerId)
      modifies this`remotes
      ensures remotes == old(remotes) - {id}
    {
      remotes := remotes - {id};
    }

    method SetCutscene(id: PlayerId, active: bool)
      modifies this`remotes
      ensures remotes == WithCutscene(old(remotes), id, active)
    {
      if id in remotes {
        remotes := remotes[id := remotes[id].(inCutscene := active)];
      }
    }

    /** A frame moves every remote player by its own rule. */
    method ApplyRemoteState(nowMs: real, statusKnown: bool)
      modifies this`remotes
      ensures remotes == FrameAll(old(remotes), nowMs, statusKnown)
    {
      var todo := remotes.Keys;
      while todo != {}
        invariant remotes.Keys == old(remotes).Keys && todo <= remotes.Keys
        invariant forall id :: id in remotes ==>
                    remotes[id] == if id in todo then old(remotes)[id] else Frame(old(remotes)[id], nowMs, statusKnown)
        decreases |todo|
      {
        var id :| id in todo;
        remotes := remotes[id := Frame(remotes[id], nowMs, statusKnown)];
        todo := todo - {id};
      }
    }
  }

  class Session {
    var localId: PlayerId
    var isHost: bool
    const players: PlayerSync
    const puzzles: PuzzleSync

    predicate Valid()
      reads this, players
    {
      players.localId == localId
    }

    function OnScreen(): Screen
      reads this, players
    {
      Screen(localId, players.remotes)
    }

    /** The objects agree with this state of the replay; the countdown shown may have run down since. */
    ghost predicate Agrees(m: Mirror)
      reads this, players, puzzles
    {
      && localId == m.localId && isHost == m.isHost && ShowsAll(players.remotes, m.remotes)
      && puzzles.View() == m.puzzle.(remainingMs := puzzles.tokenTimeRemaining)
      && 0 <= puzzles.tokenTimeRemaining <= m.puzzle.remainingMs
    }

    constructor ()
      ensures Valid() && Agrees(INITIAL) && OnScreen() == BLANK && fresh(players) && fresh(puzzles)
    {
      localId, isHost := NOBODY, false;
      players := new PlayerSync();
      puzzles := new PuzzleSync();
    }

    /** One packet: the objects end up agreeing with what the replay function makes of it. */
    method OnPacket(msg: Msg, nowMs: real, ghost m: Mirror)
      requires Valid() && Agrees(m)
      modifies this, players, puzzles
      ensures Valid() && Agrees(Replaying.OnPacket(m, msg))
      ensures OnScreen() == Screens.OnInput(old(OnScreen()), Arrival(msg, nowMs))
    {
      PacketShows(m, players.remotes, msg, nowMs);
      match msg {
        case HandshakeAck(id) =>
          players.localId := id;
          localId := id;
        case JoinAck(host, existing) =>
          isHost := host;
          players.ApplyStateUpdate(existing, nowMs);
        case PlayerJoin(p) =>
          players.AddRemotePlayer(p.id);
          players.ApplyStateUpdate([p], nowMs);
        case PlayerLeave(id) =>
          players.RemoveRemotePlayer(id);
        case HostReassign(id) =>
          isHost := id == localId;
        case StateUpdate(entries) =>
          players.ApplyStateUpdate(entries, nowMs);
        case CutsceneStart(id) =>
          players.SetCutscene(id, true);
        case CutsceneEnd(id) =>
          players.SetCutscene(id, false);
        case PuzzleStart(id) =>
          puzzles.OnPuzzleStart(id);
        case PuzzleToken(id, controller, remainingMs, queue) =>
          puzzles.OnPuzzleToken(id, controller, remainingMs, queue);
        case PuzzleEnd(id) =>
          puzzles.OnPuzzleEnd(id);
        case Other =>
      }
    }

    /** A frame: the countdown runs, and everyone is drawn nearer to where the replay has them. */
    method Tick(nowMs: real, statusKnown: bool, ghost m: Mirror)
      requires Valid() && Agrees(m)
      modifies players`remotes, puzzles
      ensures Valid() && Agrees(m) && OnScreen() == Screens.OnInput(old(OnScreen()), Draw(nowMs, statusKnown))
    {
      FrameShows(players.remotes, m.remotes, nowMs, statusKnown);
      puzzles.Tick(nowMs);
      players.ApplyRemoteState(nowMs, statusKnown);
    }

    method OnInput(input: Input, ghost m: Mirror)
      requires Valid() && Agrees(m)
      modifies this, players, puzzles
      ensures Valid() && Agrees(Seen(m, input)) && OnScreen() == Screens.OnInput(old(OnScreen()), input)
    {
      match input {
        case Arrival(msg, nowMs) => OnPacket(msg, nowMs, m);
        case Draw(nowMs, statusKnown) => Tick(nowMs, statusKnown, m);
      }
    }

    /** The gate, as the hook on the game's puzzle input asks it. */
    method InputAllowed(ghost m: Mirror) returns (allowed: bool)
      requires Valid() && Agrees(m)
      ensures allowed <==> LocalInputAllowed(m)
    {
      if !puzzles.puzzleActive {
        return true;
      }
      return puzzles.controllerId != NOBODY && puzzles.controllerId == localId;
    }
  }

  /**
   A whole connection: a new session fed these packets and frames shows the screen they give, which agrees with
   the replay of the packets.
   */
  method Receive(inputs: seq<Input>) returns (session: Session)
    ensures fresh(session) && fresh(session.players) && fresh(session.puzzles)
    ensures session.Valid() && session.Agrees(Replay(MessagesOf(inputs)))
    ensures session.OnScreen() == OnInputs(BLANK, inputs)
  {
    session := new Session();
    var i := 0;
    ghost var m := INITIAL;
    while i < |inputs|
      invariant 0 <= i <= |inputs|
      invariant fresh(session) && fresh(session.players) && fresh(session.puzzles) && session.Valid()
      invariant session.Agrees(m) && ApplyAll(m, MessagesOf(inputs[i..])) == Replay(MessagesOf(inputs))
      invariant OnInputs(session.OnScreen(), inputs[i..]) == OnInputs(BLANK, inputs)
    {
      assert inputs[i..][1..] == inputs[i + 1..];
      MessagesTail(m, inputs[i..]);
      session.OnInput(inputs[i], m);
      m := Seen(m, inputs[i]);
      i := i + 1;
    }
  }
}
