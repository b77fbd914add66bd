/**
 What a client shows of the other players: the map of `PlayerSync` fed any packets and any frames. It holds what
 the replay of the packets holds, and draws everyone on the way to where the replay has them.
 */
module Screens {
  import opened Protocol
  import opened GameplaySync
  import opened Mirror
  import opened Interpolation

  type Players = map<PlayerId, RemotePlayer>

  /** An entry overwrites what is held of its player, a new one included, unless it is the local player's. */
  function UpdateOne(localId: PlayerId, players: Players, p: PlayerState, nowMs: real): Players {
    if p.id == localId then players
    else players[p.id := Updated(if p.id in players then players[p.id] else NEW_REMOTE, p, nowMs)]
  }

  /** `ApplyStateUpdate`. */
  function UpdateEach(localId: PlayerId, players: Players, entries: seq<PlayerState>, nowMs: real): Players
    decreases |entries|
  {
    if |entries| == 0 then players
    else UpdateEach(localId, UpdateOne(localId, players, entries[0], nowMs), entries[1..], nowMs)
  }

  function Added(players: Players, id: PlayerId): Players {
    if id in players then players else players[id := NEW_REMOTE]
  }

  function WithCutscene(players: Players, id: PlayerId, active: bool): Players {
    if id in players then players[id := players[id].(inCutscene := active)] else players
  }

  /** What a packet does to the players. */
  function OnPlayers(localId: PlayerId, players: Players, msg: Msg, nowMs: real): Players {
    match msg
    case JoinAck(_, entries) => UpdateEach(localId, players, entries, nowMs)
    case PlayerJoin(p) => UpdateEach(localId, Added(players, p.id), [p], nowMs)
    case PlayerLeave(id) => players - {id}
    case StateUpdate(entries) => UpdateEach(localId, players, entries, nowMs)
    case CutsceneStart(id) => WithCutscene(players, id, true)
    case CutsceneEnd(id) => WithCutscene(players, id, false)
    case _ => players
  }

  function FrameAll(players: Players, nowMs: real, statusKnown: bool): Players {
    map id | id in players :: Frame(players[id], nowMs, statusKnown)
  }

  datatype Input = Arrival(msg: Msg, nowMs: real) | Draw(nowMs: real, statusKnown: bool)

  datatype Screen = Screen(localId: PlayerId, players: Players)

  const BLANK := Screen(NOBODY, map[])

  function OnInput(s: Screen, input: Input): Screen {
    match input
    case Arrival(msg, nowMs) =>
      Screen(if msg.HandshakeAck? then msg.playerId else s.localId, OnPlayers(s.localId, s.players, msg, nowMs))
    case Draw(nowMs, statusKnown) => s.(players := FrameAll(s.players, nowMs, statusKnown))
  }

  /** Packets and frames at any times, in any order. */
  function OnInputs(s: Screen, inputs: seq<Input>): Screen
    decreases |inputs|
  {
    if |inputs| == 0 then s else OnInputs(OnInput(s, inputs[0]), inputs[1..])
  }

  function MessagesOf(inputs: seq<Input>): seq<Msg> {
    if |inputs| == 0 then []
    else (if inputs[0].Arrival? then [inputs[0].msg] else []) + MessagesOf(inputs[1..])
  }

  // ---- a screen shows the replay -----------------------------------------------------------------------------

  /** The packet was read from these fields; blocks they lack keep old values, and do not count. */
  ghost predicate ReadFrom(p: Packet, g: Gameplay) {
    exists held: Packet :: p == Parse(g, held)
  }

  /** What is held of a player agrees with the replay, and it has no slot in the game. */
  ghost predicate Shows(rp: RemotePlayer, m: Remote) {
    && rp.target == m.target && rp.velocity == m.velocity && rp.health == m.health && rp.maxHealth == m.maxHealth
    && rp.inCutscene == m.inCutscene && ReadFrom(rp.gameplay, m.gameplay) && !rp.resolved
  }

  ghost predicate ShowsAll(players: Players, remotes: map<PlayerId, Remote>) {
    players.Keys == remotes.Keys && forall id :: id in players ==> Shows(players[id], remotes[id])
  }

  lemma AddedShows(players: Players, remotes: map<PlayerId, Remote>, id: PlayerId)
    requires ShowsAll(players, remotes)
    ensures ShowsAll(Added(players, id), AddRemote(remotes, id))
  {
    assert NO_PACKET == Parse(NO_GAMEPLAY, NO_PACKET);
    assert Shows(NEW_REMOTE, DEFAULT_REMOTE);
  }

  lemma CutsceneShows(players: Players, remotes: map<PlayerId, Remote>, id: PlayerId, active: bool)
    requires ShowsAll(players, remotes)
    ensures ShowsAll(WithCutscene(players, id, active), SetRemoteCutscene(remotes, id, active))
  {}

  lemma UpdatedShows(rp: RemotePlayer, p: PlayerState, nowMs: real)
    requires !rp.resolved
    ensures Shows(Updated(rp, p, nowMs), RemoteOf(p))
  {
    assert ReadFrom(Parse(p.gameplay, rp.gameplay), p.gameplay);
  }

  lemma {:induction false} UpdatesShow(
      localId: PlayerId, players: Players, remotes: map<PlayerId, Remote>, entries: seq<PlayerState>, nowMs: real)
    requires ShowsAll(players, remotes)
    ensures ShowsAll(UpdateEach(localId, players, entries, nowMs), ApplyEntries(localId, remotes, entries))
    decreases |entries|
  {
    if |entries| > 0 {
      var p := entries[0];
      if p.id != localId {
        UpdatedShows(if p.id in players then players[p.id] else NEW_REMOTE, p, nowMs);
      }
      var next := if p.id == localId then remotes else remotes[p.id := RemoteOf(p)];
      UpdatesShow(localId, UpdateOne(localId, players, p, nowMs), next, entries[1..], nowMs);
    }
  }

  lemma PacketShows(m: Mirror, players: Players, msg: Msg, nowMs: real)
    requires ShowsAll(players, m.remotes)
    ensures ShowsAll(OnPlayers(m.localId, players, msg, nowMs), OnPacket(m, msg).remotes)
  {
    match msg
    case JoinAck(_, entries) => UpdatesShow(m.localId, players, m.remotes, entries, nowMs);
    case PlayerJoin(p) =>
      AddedShows(players, m.remotes, p.id);
      UpdatesShow(m.localId, Added(players, p.id), AddRemote(m.remotes, p.id), [p], nowMs);
    case StateUpdate(entries) => UpdatesShow(m.localId, players, m.remotes, entries, nowMs);
    case CutsceneStart(id) => CutsceneShows(players, m.remotes, id, true);
    case CutsceneEnd(id) => CutsceneShows(players, m.remotes, id, false);
    case _ =>
  }

  lemma FrameShows(players: Players, remotes: map<PlayerId, Remote>, nowMs: real, statusKnown: bool)
    requires ShowsAll(players, remotes)
    ensures ShowsAll(FrameAll(players, nowMs, statusKnown), remotes)
  {}

  /** A frame is nothing to the replay. */
  function Seen(m: Mirror, input: Input): Mirror {
    if input.Arrival? then OnPacket(m, input.msg) else m
  }

  ghost predicate ShowsMirror(s: Screen, m: Mirror) {
    s.localId == m.localId && ShowsAll(s.players, m.remotes)
  }

  lemma InputShows(s: Screen, m: Mirror, input: Input)
    requires ShowsMirror(s, m)
    ensures ShowsMirror(OnInput(s, input), Seen(m, input))
  {
    match input
    case Arrival(msg, nowMs) => PacketShows(m, s.players, msg, nowMs);
    case Draw(nowMs, statusKnown) => FrameShows(s.players, m.remotes, nowMs, statusKnown);
  }

  lemma MessagesTail(m: Mirror, inputs: seq<Input>)
    requires |inputs| > 0
    ensures ApplyAll(m, MessagesOf(inputs)) ==
            ApplyAll(Seen(m, inputs[0]), MessagesOf(inputs[1..]))
  {
    if inputs[0].Arrival? {
      assert MessagesOf(inputs)[0] == inputs[0].msg && MessagesOf(inputs)[1..] == MessagesOf(inputs[1..]);
    } else {
      assert MessagesOf(inputs) == MessagesOf(inputs[1..]);
    }
  }

  lemma {:induction false} InputsShow(s: Screen, m: Mirror, inputs: seq<Input>)
    requires ShowsMirror(s, m)
    ensures ShowsMirror(OnInputs(s, inputs), ApplyAll(m, MessagesOf(inputs)))
    decreases |inputs|
  {
    if |inputs| > 0 {
      InputShows(s, m, inputs[0]);
      MessagesTail(m, inputs);
      InputsShow(OnInput(s, inputs[0]), Seen(m, inputs[0]), inputs[1..]);
    }
  }

  /** Whatever packets and frames a client gets, it holds what the replay of the packets holds. */
  lemma ScreenShowsReplay(inputs: seq<Input>)
    ensures ShowsAll(OnInputs(BLANK, inputs).players, Replay(MessagesOf(inputs)).remotes)
  {
    InputsShow(BLANK, INITIAL, inputs);
  }

  /** ... and no player ever gets a slot in the game, so that only the branch without one is taken. */
  lemma NothingResolved(inputs: seq<Input>, id: PlayerId, nowMs: real, statusKnown: bool)
    requires id in OnInputs(BLANK, inputs).players
    ensures var rp := OnInputs(BLANK, inputs).players[id];
            !rp.resolved && Frame(rp, nowMs, statusKnown)
                == rp.(current := LerpVec(rp.current, rp.target, BaseT(rp, nowMs)))
  {
    ScreenShowsReplay(inputs);
  }

  // ---- between two updates -----------------------------------------------------------------------------------

  ghost predicate Touches(msg: Msg, id: PlayerId) {
    match msg
    case JoinAck(_, entries) => Mentions(entries, id)
    case StateUpdate(entries) => Mentions(entries, id)
    case PlayerJoin(p) => p.id == id
    case PlayerLeave(leaver) => leaver == id
    case _ => false
  }

  /** No packet among these updates the player or removes it. */
  ghost predicate LeavesAlone(inputs: seq<Input>, id: PlayerId) {
    forall i :: 0 <= i < |inputs| && inputs[i].Arrival? ==> !Touches(inputs[i].msg, id)
  }

  ghost predicate DrawnLate(inputs: seq<Input>, sinceMs: real) {
    exists i :: 0 <= i < |inputs| && inputs[i].Draw? && inputs[i].nowMs - sinceMs >= INTERP_BUFFER_MS
  }

  lemma {:induction false} OthersUpdated(
      localId: PlayerId, players: Players, entries: seq<PlayerState>, nowMs: real, id: PlayerId)
    requires !Mentions(entries, id)
    ensures var after := UpdateEach(localId, players, entries, nowMs);
            (id in after <==> id in players) && (id in players ==> after[id] == players[id])
    decreases |entries|
  {
    if |entries| > 0 {
      assert entries[0] in entries;
      OthersUpdated(localId, UpdateOne(localId, players, entries[0], nowMs), entries[1..], nowMs, id);
    }
  }

  /** A packet about others changes at most the cutscene flag. */
  lemma OthersArrive(localId: PlayerId, players: Players, msg: Msg, nowMs: real, id: PlayerId)
    requires !Touches(msg, id)
    ensures var after := OnPlayers(localId, players, msg, nowMs);
            && (id in after <==> id in players)
            && (id in players ==> after[id] == players[id].(inCutscene := after[id].inCutscene))
  {
    match msg
    case JoinAck(_, entries) => OthersUpdated(localId, players, entries, nowMs, id);
    case StateUpdate(entries) => OthersUpdated(localId, players, entries, nowMs, id);
    case PlayerJoin(p) => OthersUpdated(localId, Added(players, p.id), [p], nowMs, id);
    case _ =>
  }

  lemma InputApproaches(s: Screen, input: Input, id: PlayerId)
    requires id in s.players && !s.players[id].resolved && (input.Arrival? ==> !Touches(input.msg, id))
    ensures id in OnInput(s, input).players
    ensures var rp, f := s.players[id], OnInput(s, input).players[id];
            && f == rp.(current := f.current, inCutscene := f.inCutscene)
            && OnSegment(rp.current, f.current, rp.target)
            && (rp.current == rp.target || DrawnLate([input], rp.updatedMs) ==> f.current == rp.target)
  {
    match input
    case Arrival(msg, nowMs) => OthersArrive(s.localId, s.players, msg, nowMs, id);
    case Draw(nowMs, statusKnown) => FrameApproaches(s.players[id], nowMs, statusKnown);
  }

  /**
   Between two updates of a player, whatever frames are drawn and whatever arrives about others: the player stays
   on the segment to its target on every axis, is never further from it than before, and is at it once a frame was
   drawn 100 ms after the update. No mode makes an exception, since no player has a slot in the game.
   */
  lemma {:induction false} ConvergesOnScreen(s: Screen, inputs: seq<Input>, id: PlayerId)
    requires id in s.players && !s.players[id].resolved && LeavesAlone(inputs, id)
    ensures id in OnInputs(s, inputs).players
    ensures var rp, f := s.players[id], OnInputs(s, inputs).players[id];
            && f == rp.(current := f.current, inCutscene := f.inCutscene)
            && OnSegment(rp.current, f.current, rp.target)
            && NoFurther(rp.current.x, f.current.x, rp.target.x)
            && NoFurther(rp.current.y, f.current.y, rp.target.y)
            && NoFurther(rp.current.z, f.current.z, rp.target.z)
            && (rp.current == rp.target || DrawnLate(inputs, rp.updatedMs) ==> f.current == rp.target)
    decreases |inputs|
  {
    if |inputs| > 0 {
      InputApproaches(s, inputs[0], id);
      assert LeavesAlone(inputs[1..], id);
      ConvergesOnScreen(OnInput(s, inputs[0]), inputs[1..], id);
      var since := s.players[id].updatedMs;
      if i :| 0 <= i < |inputs| && inputs[i].Draw? && inputs[i].nowMs - since >= INTERP_BUFFER_MS {
        if i == 0 {
          assert [inputs[0]][0] == inputs[0] && DrawnLate([inputs[0]], since);
        } else {
          assert inputs[1..][i - 1] == inputs[i] && DrawnLate(inputs[1..], since);
        }
      }
    }
  }

  /** One frame more: how far it takes a player that a client holds. */
  lemma DrawnPartWay(inputs: seq<Input>, id: PlayerId, nowMs: real, statusKnown: bool)
    requires id in OnInputs(BLANK, inputs).players
    ensures id in OnInputs(BLANK, inputs + [Draw(nowMs, statusKnown)]).players
    ensures GoesPartWay(OnInputs(BLANK, inputs).players[id],
                        OnInputs(BLANK, inputs + [Draw(nowMs, statusKnown)]).players[id], nowMs)
  {
    InputsConcat(BLANK, inputs, [Draw(nowMs, statusKnown)]);
    OneInput(OnInputs(BLANK, inputs), Draw(nowMs, statusKnown));
    ScreenShowsReplay(inputs);
    FrameGoesPartWay(OnInputs(BLANK, inputs).players[id], nowMs, statusKnown);
  }

  lemma OneInput(s: Screen, input: Input)
    ensures OnInputs(s, [input]) == OnInput(s, input)
  {
    assert [input][1..] == [];
  }

  /** The time a frame counts from is that of the last packet with an entry of the player, however much came since. */
  lemma CountsFromUpdate(before: seq<Input>, entries: seq<PlayerState>, nowMs: real, after: seq<Input>, id: PlayerId)
    requires Mentions(entries, id) && LeavesAlone(after, id) && id != OnInputs(BLANK, before).localId
    ensures var s := OnInputs(BLANK, before + [Arrival(StateUpdate(entries), nowMs)] + after);
            id in s.players && s.players[id].updatedMs == nowMs
  {
    var arrival := Arrival(StateUpdate(entries), nowMs);
    var s := OnInputs(BLANK, before);
    InputsConcat(BLANK, before, [arrival]);
    InputsConcat(BLANK, before + [arrival], after);
    OneInput(s, arrival);
    UpdatedAt(s.localId, s.players, entries, nowMs, id);
    ScreenShowsReplay(before + [arrival]);
    ConvergesOnScreen(OnInput(s, arrival), after, id);
  }

  lemma {:induction false} UpdatedAt(
      localId: PlayerId, players: Players, entries: seq<PlayerState>, nowMs: real, id: PlayerId)
    requires Mentions(entries, id) || (id in players && players[id].updatedMs == nowMs)
    requires id != localId
    ensures var after := UpdateEach(localId, players, entries, nowMs); id in after && after[id].updatedMs == nowMs
    decreases |entries|
  {
    if |entries| > 0 {
      var next := UpdateOne(localId, players, entries[0], nowMs);
      if !(id in next && next[id].updatedMs == nowMs) {
        var e :| e in entries && e.id == id;
        assert e in entries[1..];
      }
      UpdatedAt(localId, next, entries[1..], nowMs, id);
    }
  }

  lemma {:induction false} InputsConcat(s: Screen, a: seq<Input>, b: seq<Input>)
    ensures OnInputs(s, a + b) == OnInputs(OnInputs(s, a), b)
    decreases |a|
  {
    if |a| == 0 {
      assert a + b == b;
    } else {
      assert (a + b)[1..] == a[1..] + b;
      InputsConcat(OnInput(s, a[0]), a[1..], b);
    }
  }

  /**
   Any client, from its connection on: after the last update so far of a player, it converges to what the
   replay has.
   */
  lemma ConvergesToReplay(before: seq<Input>, after: seq<Input>, id: PlayerId)
    requires id in OnInputs(BLANK, before).players && LeavesAlone(after, id)
    ensures var rp, t := OnInputs(BLANK, before).players[id], OnInputs(BLANK, before + after);
            var remotes := Replay(MessagesOf(before + after)).remotes;
            && id in t.players && id in remotes
            && OnSegment(rp.current, t.players[id].current, remotes[id].target)
            && (DrawnLate(after, rp.updatedMs) ==> t.players[id].current == remotes[id].target)
  {
    ScreenShowsReplay(before);
    InputsConcat(BLANK, before, after);
    ConvergesOnScreen(OnInputs(BLANK, before), after, id);
    ScreenShowsReplay(before + after);
  }
}
