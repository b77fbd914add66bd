/**
 A member's connection against its room: what the packets sent on it so far add up to. Every operation of
 the room is shown to keep this for every member that stays.
 */
module ClientView {
  import opened Keys
  import opened Protocol
  import opened Delta
  import opened Puzzles
  import opened Mirror
  import opened PuzzleTracking
  import opened Rooms

  // ---- the mirror --------------------------------------------------------------------------------------

  /** The client shows exactly the other members, and knows whether it is the host. */
  ghost predicate MembersShown(conns: seq<PlayerId>, hostId: PlayerId, c: PlayerId, m: Mirror) {
    && m.localId == c
    && (m.isHost <==> hostId == c)
    && (forall id :: id in m.remotes <==> id in conns && id != c)
  }

  /** Who is in a cutscene, according to the client, is. */
  ghost predicate ScenesShown(players: map<PlayerId, PlayerState>, remotes: map<PlayerId, Remote>) {
    forall id :: id in remotes && id in players ==> remotes[id].inCutscene == players[id].inCutscene
  }

  /** The mirror is the server's projection of the room. */
  ghost predicate MirrorOk(r: Room, c: PlayerId, m: Mirror) {
    MembersShown(r.conns, r.hostId, c, m) && ScenesShown(r.players, m.remotes) && Tracks(r.puzzles, m.puzzle)
  }

  // ---- the data of ticks ---------------------------------------------------------------------------------

  /** Some tick has sent this player's state on the connection. */
  ghost predicate Told(log: seq<Msg>, id: PlayerId) {
    exists i :: 0 <= i < |log| && log[i].StateUpdate? && Mentions(log[i].players, id)
  }

  ghost predicate SameData(a: Remote, p: PlayerState) {
    && a.target == p.position && a.velocity == p.velocity && a.health == p.health && a.maxHealth == p.maxHealth
    && a.gameplay == p.gameplay
  }

  /** What ticks have told about another player is the last snapshot of it. */
  ghost predicate ToldIsLast(last: map<PlayerId, PlayerState>, log: seq<Msg>, remotes: map<PlayerId, Remote>) {
    forall id :: id in remotes && Told(log, id) ==> id in last && SameData(remotes[id], last[id])
  }

  /** A snapshot of a player who came later has been told. */
  ghost predicate JuniorsTold(conns: seq<PlayerId>, last: map<PlayerId, PlayerState>, c: PlayerId, log: seq<Msg>) {
    forall id :: c in conns && id in conns && IndexOf(conns, c) < IndexOf(conns, id) && id in last ==> Told(log, id)
  }

  /** The believers: only a host's connection has ever carried a packet that makes its client host. */
  ghost predicate CrownOk(hostId: PlayerId, c: PlayerId, log: seq<Msg>) {
    forall i :: 0 <= i < |log| && Crowns(log[i], c) ==> hostId == c
  }

  ghost predicate OnlySeen(log: seq<Msg>, seen: set<PlayerId>) {
    forall id :: Told(log, id) ==> id in seen
  }

  /** The parts that depend on what was sent alone. `seen`: everyone who has ever been in the room. */
  ghost predicate LogOk(hostId: PlayerId, seen: set<PlayerId>, c: PlayerId, log: seq<Msg>) {
    OneId(log, c) && CrownOk(hostId, c, log) && OnlySeen(log, seen)
  }

  /** What the packets of an open connection add up to, against the room. */
  ghost predicate ViewOk(r: Room, c: PlayerId, log: seq<Msg>) {
    && MirrorOk(r, c, Replay(log))
    && ToldIsLast(r.last, log, Replay(log).remotes)
    && JuniorsTold(r.conns, r.last, c, log)
  }

  ghost predicate ClientOk(r: Room, seen: set<PlayerId>, c: PlayerId, log: seq<Msg>, open: bool) {
    LogOk(r.hostId, seen, c, log) && (open ==> ViewOk(r, c, log))
  }

  /** What reaches a member of what an operation sends. */
  function Reaches(e: Effect, c: PlayerId, open: bool): seq<Msg> {
    if open && c in e.to then e.msgs else []
  }

  // ---- helpers ---------------------------------------------------------------------------------------

  lemma ToldMore(log: seq<Msg>, msgs: seq<Msg>, id: PlayerId)
    ensures Told(log + msgs, id) <==> Told(log, id) || Told(msgs, id)
  {
    if Told(log, id) {
      var i :| 0 <= i < |log| && log[i].StateUpdate? && Mentions(log[i].players, id);
      assert (log + msgs)[i] == log[i];
    }
    if Told(msgs, id) {
      var i :| 0 <= i < |msgs| && msgs[i].StateUpdate? && Mentions(msgs[i].players, id);
      assert (log + msgs)[|log| + i] == msgs[i];
    }
  }

  /** What more packets do to the parts that depend on the log alone. */
  lemma LogGrows(log: seq<Msg>, msgs: seq<Msg>, c: PlayerId, host: PlayerId, host': PlayerId, seen: set<PlayerId>)
    requires LogOk(host, seen, c, log)
    requires host == c ==> host' == c
    requires forall i :: 0 <= i < |msgs| ==> !msgs[i].HandshakeAck? && (Crowns(msgs[i], c) ==> host' == c)
    requires OnlySeen(msgs, seen)
    ensures LogOk(host', seen, c, log + msgs)
  {}

  lemma SeenMore(log: seq<Msg>, seen: set<PlayerId>, more: set<PlayerId>, c: PlayerId, host: PlayerId)
    requires LogOk(host, seen, c, log)
    ensures LogOk(host, seen + more, c, log)
  {}

  /** Packets that carry no state of a tick leave what is known from ticks. */
  lemma NothingTold(log: seq<Msg>, msgs: seq<Msg>)
    requires forall i :: 0 <= i < |msgs| ==> !msgs[i].StateUpdate?
    ensures forall id :: Told(log + msgs, id) <==> Told(log, id)
    ensures forall id :: !Told(msgs, id)
  {
    forall id ensures Told(log + msgs, id) <==> Told(log, id) {
      ToldMore(log, msgs, id);
    }
  }

  lemma ReplayMore(log: seq<Msg>, msgs: seq<Msg>)
    ensures Replay(log + msgs) == ApplyAll(Replay(log), msgs)
  {
    ApplyAllConcat(INITIAL, log, msgs);
  }

  lemma ApplyOne(m: Mirror, msg: Msg)
    ensures ApplyAll(m, [msg]) == OnPacket(m, msg)
  {}

  // ---- someone joins -----------------------------------------------------------------------------------

  lemma JoinRemotes(c: PlayerId, remotes: map<PlayerId, Remote>, ps: PlayerState)
    requires ps.id != c
    ensures ApplyEntries(c, AddRemote(remotes, ps.id), [ps]) == remotes[ps.id := RemoteOf(ps)]
  {}

  lemma JuniorsAfterJoin(
      conns: seq<PlayerId>, last: map<PlayerId, PlayerState>, c: PlayerId, log: seq<Msg>, id: PlayerId)
    requires Distinct(conns) && c in conns && id !in conns && id !in last && JuniorsTold(conns, last, c, log)
    ensures JuniorsTold(conns + [id], last, c, log)
  {}

  /** A member's client after the packet of a join. */
  function Joined(m: Mirror, ps: PlayerState): Mirror {
    m.(remotes := m.remotes[ps.id := RemoteOf(ps)])
  }

  lemma JoinReplay(log: seq<Msg>, ps: PlayerState)
    requires ps.id != Replay(log).localId
    ensures Replay(log + [PlayerJoin(ps)]) == Joined(Replay(log), ps)
  {
    ReplayMore(log, [PlayerJoin(ps)]);
    ApplyOne(Replay(log), PlayerJoin(ps));
    JoinRemotes(Replay(log).localId, Replay(log).remotes, ps);
  }

  lemma JoinMirror(r: Room, id: PlayerId, c: PlayerId, m: Mirror)
    requires KeysOk(r) && id !in r.conns && c in r.conns && MirrorOk(r, c, m)
    ensures var t := AddPlayer(r, id).room; id in t.players && MirrorOk(t, c, Joined(m, t.players[id]))
  {}

  lemma JoinTold(last: map<PlayerId, PlayerState>, log: seq<Msg>, m: Mirror, ps: PlayerState)
    requires ToldIsLast(last, log, m.remotes) && !Told(log, ps.id)
    ensures ToldIsLast(last, log + [PlayerJoin(ps)], Joined(m, ps).remotes)
  {
    NothingTold(log, [PlayerJoin(ps)]);
  }

  lemma JoinView(r: Room, id: PlayerId, c: PlayerId, log: seq<Msg>)
    requires KeysOk(r) && id !in r.conns && c in r.conns && ViewOk(r, c, log) && !Told(log, id)
    ensures var e := AddPlayer(r, id); ViewOk(e.room, c, log + e.msgs)
  {
    var ps := AddPlayer(r, id).msgs[0].player;
    JoinReplay(log, ps);
    JoinMirror(r, id, c, Replay(log));
    JoinTold(r.last, log, Replay(log), ps);
    JuniorsAfterJoin(r.conns, r.last, c, log, id);
    NothingTold(log, [PlayerJoin(ps)]);
    JuniorsToldStill(r.conns + [id], r.last, c, log, log + [PlayerJoin(ps)]);
  }

  lemma OthersSeeJoin(r: Room, id: PlayerId, seen: set<PlayerId>, c: PlayerId, log: seq<Msg>, open: bool)
    requires KeysOk(r) && id !in r.conns && id !in seen && c in r.conns && ClientOk(r, seen, c, log, open)
    ensures var e := AddPlayer(r, id); ClientOk(e.room, seen + {id}, c, log + Reaches(e, c, open), open)
  {
    var e := AddPlayer(r, id);
    var msgs := Reaches(e, c, open);
    JoinLog(r, id, seen, c, log, msgs);
    if open {
      JoinView(r, id, c, log);
    }
  }

  lemma JoinLog(r: Room, id: PlayerId, seen: set<PlayerId>, c: PlayerId, log: seq<Msg>, msgs: seq<Msg>)
    requires LogOk(r.hostId, seen, c, log) && (msgs == [] || msgs == AddPlayer(r, id).msgs)
    ensures LogOk(r.hostId, seen + {id}, c, log + msgs)
  {}

  lemma {:induction false} ListedAre(order: seq<PlayerId>, players: map<PlayerId, PlayerState>)
    requires WellKeyed(players)
    ensures var l := Listed(order, players);
            && (forall p :: p in l ==> p.id in players && p.id in order && p == players[p.id])
            && (forall id :: id in order && id in players ==> players[id] in l)
  {
    if |order| > 0 {
      ListedAre(order[1..], players);
    }
  }

  /** The packets of a connection before it joins: its id, and packets that change nothing. */
  ghost predicate LobbyLog(log: seq<Msg>, c: PlayerId) {
    |log| > 0 && log[0] == HandshakeAck(c) && forall i :: 0 < i < |log| ==> log[i] == Other
  }

  lemma {:induction false} OthersChangeNothing(m: Mirror, msgs: seq<Msg>)
    requires forall i :: 0 <= i < |msgs| ==> msgs[i] == Other
    ensures ApplyAll(m, msgs) == m
    decreases |msgs|
  {
    if |msgs| > 0 {
      OthersChangeNothing(OnPacket(m, msgs[0]), msgs[1..]);
    }
  }

  lemma LobbyReplay(log: seq<Msg>, c: PlayerId)
    requires LobbyLog(log, c)
    ensures Replay(log) == INITIAL.(localId := c) && OneId(log, c)
    ensures forall id :: !Told(log, id)
    ensures forall i :: 0 <= i < |log| ==> !Crowns(log[i], c)
  {
    OthersChangeNothing(OnPacket(INITIAL, log[0]), log[1..]);
  }

  /** What the acknowledgement makes of a fresh client: the members that were there, and its role. */
  lemma AckMirror(r: Room, id: PlayerId, m: Mirror)
    requires KeysOk(r) && id !in r.conns && m == INITIAL.(localId := id)
    ensures var w := ApplyAll(m, Welcome(r, id));
            && w == m.(isHost := r.hostId == id, remotes := w.remotes)
            && (forall x :: x in w.remotes <==> x in r.conns)
            && (forall x :: x in w.remotes ==> x in r.players && w.remotes[x] == RemoteOf(r.players[x]))
  {
    var ack := Welcome(r, id)[0];
    assert Welcome(r, id) == [ack] + [Other];
    ApplyAllConcat(m, [ack], [Other]);
    ApplyOne(m, ack);
    ApplyOne(OnPacket(m, ack), Other);
    ListedAre(r.conns, r.players);
    assert Agree(ack.players);
    EntriesEffect(id, map[], ack.players);
    forall x | x in r.conns ensures Mentions(ack.players, x) && x != id {
      assert r.players[x] in ack.players;
    }
  }

  lemma JoinerView(r: Room, id: PlayerId, log: seq<Msg>)
    requires KeysOk(r) && id !in r.conns && LobbyLog(log, id)
    ensures ViewOk(AddPlayer(r, id).room, id, log + Welcome(r, id))
  {
    var s, welcome := AddPlayer(r, id).room, Welcome(r, id);
    var log' := log + welcome;
    LobbyReplay(log, id);
    ReplayMore(log, welcome);
    NothingTold(log, welcome);
    AckMirror(r, id, Replay(log));
    var w := Replay(log');
    assert MembersShown(s.conns, s.hostId, id, w);
    assert ScenesShown(s.players, w.remotes);
    assert Tracks(s.puzzles, w.puzzle);
    IndexUnique(s.conns, id, |r.conns|);
  }

  /** The joiner's own view is right from the start. */
  lemma JoinerSees(r: Room, id: PlayerId, seen: set<PlayerId>, log: seq<Msg>)
    requires KeysOk(r) && id !in r.conns && LobbyLog(log, id)
    ensures ClientOk(AddPlayer(r, id).room, seen + {id}, id, log + Welcome(r, id), true)
  {
    LobbyReplay(log, id);
    NothingTold(log, Welcome(r, id));
    LogGrows(log, Welcome(r, id), id, r.hostId, r.hostId, {});
    SeenMore(log + Welcome(r, id), {}, seen + {id}, id, r.hostId);
    assert {} + (seen + {id}) == seen + {id};
    JoinerView(r, id, log);
  }

  // ---- someone leaves ----------------------------------------------------------------------------------

  /** The packets of a departure. */
  lemma LeavePackets(r: Room, id: PlayerId, d: Out, c: PlayerId)
    requires |Without(r.conns, id)| > 0
    requires forall i :: 0 <= i < |d.msgs| ==> IsPuzzleMsg(d.msgs[i])
    ensures var e := Leave(r, id, d);
            forall i :: 0 <= i < |e.msgs| ==>
              !e.msgs[i].HandshakeAck? && !e.msgs[i].StateUpdate? && (Crowns(e.msgs[i], c) ==> e.room.hostId == c)
  {}

  /** What the packets of a departure make of a mirror. */
  lemma LeaveMirror(r: Room, id: PlayerId, d: Out, c: PlayerId, m: Mirror)
    requires m.localId == c && |Without(r.conns, id)| > 0
    requires forall i :: 0 <= i < |d.msgs| ==> IsPuzzleMsg(d.msgs[i])
    ensures var e := Leave(r, id, d);
            ApplyAll(m, e.msgs) == m.(remotes := m.remotes - {id}, puzzle := OnPuzzles(m.puzzle, d.msgs),
                                      isHost := if id == r.hostId then e.room.hostId == c else m.isHost)
  {
    var e := Leave(r, id, d);
    PuzzlePart(m, d.msgs);
    var m1 := ApplyAll(m, d.msgs);
    ApplyAllConcat(m, d.msgs, [PlayerLeave(id)]);
    ApplyOne(m1, PlayerLeave(id));
    var m2 := OnPacket(m1, PlayerLeave(id));
    if id == r.hostId {
      ApplyAllConcat(m, d.msgs + [PlayerLeave(id)], [HostReassign(e.room.hostId)]);
      ApplyOne(m2, HostReassign(e.room.hostId));
    }
  }

  lemma JuniorBefore(conns: seq<PlayerId>, c: PlayerId, id: PlayerId, x: PlayerId)
    requires Distinct(conns) && c in conns && id in conns && c != id && x in Without(conns, id)
    requires c in Without(conns, id) && IndexOf(Without(conns, id), c) < IndexOf(Without(conns, id), x)
    ensures x in conns && IndexOf(conns, c) < IndexOf(conns, x)
  {
    WithoutKeys(conns, id);
    WithoutIndex(conns, id, c);
    WithoutIndex(conns, id, x);
    assert conns[IndexOf(conns, c)] != conns[IndexOf(conns, x)];
  }

  lemma JuniorsAfterLeave(
      conns: seq<PlayerId>, last: map<PlayerId, PlayerState>, c: PlayerId, log: seq<Msg>, id: PlayerId)
    requires Distinct(conns) && c in conns && id in conns && c != id && JuniorsTold(conns, last, c, log)
    ensures JuniorsTold(Without(conns, id), last - {id}, c, log)
  {
    forall x | c in Without(conns, id) && x in Without(conns, id)
        && IndexOf(Without(conns, id), c) < IndexOf(Without(conns, id), x)
      ensures x in conns && IndexOf(conns, c) < IndexOf(conns, x)
    {
      JuniorBefore(conns, c, id, x);
    }
  }

  /** The puzzles' reaction to a departure, as far as clients see it. */
  ghost predicate DropsFor(r: Room, d: Out, v: PuzzleMirror) {
    && (forall i :: 0 <= i < |d.msgs| ==> IsPuzzleMsg(d.msgs[i]))
    && (Tracks(r.puzzles, v) ==> Tracks(d.z, OnPuzzles(v, d.msgs)))
  }

  lemma LeaveShown(r: Room, id: PlayerId, d: Out, c: PlayerId, m: Mirror)
    requires KeysOk(r) && HostOk(r) && id in r.conns && c in r.conns && c != id && MirrorOk(r, c, m)
             && DropsFor(r, d, m.puzzle)
    ensures var e := Leave(r, id, d); MirrorOk(e.room, c, ApplyAll(m, e.msgs))
  {
    WithoutKeys(r.conns, id);
    assert c in Without(r.conns, id);
    LeaveMirror(r, id, d, c, m);
    var e := Leave(r, id, d);
    var m' := ApplyAll(m, e.msgs);
    assert MembersShown(e.room.conns, e.room.hostId, c, m');
    assert ScenesShown(e.room.players, m'.remotes);
  }

  lemma LeaveTold(r: Room, id: PlayerId, d: Out, c: PlayerId, log: seq<Msg>)
    requires KeysOk(r) && id in r.conns && c in r.conns && c != id && ViewOk(r, c, log)
    requires forall i :: 0 <= i < |d.msgs| ==> IsPuzzleMsg(d.msgs[i])
    ensures var e := Leave(r, id, d);
            && ToldIsLast(r.last - {id}, log + e.msgs, Replay(log + e.msgs).remotes)
            && JuniorsTold(Without(r.conns, id), r.last - {id}, c, log + e.msgs)
  {
    var e, m := Leave(r, id, d), Replay(log);
    WithoutKeys(r.conns, id);
    assert c in Without(r.conns, id);
    LeavePackets(r, id, d, c);
    LeaveMirror(r, id, d, c, m);
    NothingTold(log, e.msgs);
    ReplayMore(log, e.msgs);
    JuniorsAfterLeave(r.conns, r.last, c, log, id);
  }

  lemma LeaveView(r: Room, id: PlayerId, d: Out, c: PlayerId, log: seq<Msg>)
    requires KeysOk(r) && HostOk(r) && id in r.conns && c in r.conns && c != id && ViewOk(r, c, log)
    requires DropsFor(r, d, Replay(log).puzzle)
    ensures var e := Leave(r, id, d); ViewOk(e.room, c, log + e.msgs)
  {
    var e := Leave(r, id, d);
    WithoutKeys(r.conns, id);
    assert c in Without(r.conns, id);
    LeaveShown(r, id, d, c, Replay(log));
    LeaveTold(r, id, d, c, log);
    ReplayMore(log, e.msgs);
  }

  lemma OthersSeeLeave(r: Room, id: PlayerId, d: Out, seen: set<PlayerId>, c: PlayerId, log: seq<Msg>, open: bool)
    requires KeysOk(r) && HostOk(r) && id in r.conns && c in r.conns && c != id && ClientOk(r, seen, c, log, open)
    requires DropsFor(r, d, Replay(log).puzzle)
    ensures var e := Leave(r, id, d); ClientOk(e.room, seen, c, log + Reaches(e, c, open), open)
  {
    var e := Leave(r, id, d);
    var msgs := Reaches(e, c, open);
    WithoutKeys(r.conns, id);
    assert c in Without(r.conns, id) && c in e.to;
    LeavePackets(r, id, d, c);
    NothingTold(log, msgs);
    LogGrows(log, msgs, c, r.hostId, e.room.hostId, seen);
    if open {
      LeaveView(r, id, d, c, log);
    }
  }

  lemma DisconnectDrops(r: Room, id: PlayerId, now: int, v: PuzzleMirror)
    requires Named(r.puzzles)
    ensures DropsFor(r, Disconnect(r.puzzles, id, now), v)
  {
    var d := Disconnect(r.puzzles, id, now);
    DropAllKeepsMirror(r.puzzles, r.puzzles.order, id, now, v);
    assert forall i :: 0 <= i < |d.msgs| ==> d.msgs[i] in d.msgs;
  }

  // ---- a cutscene --------------------------------------------------------------------------------------

  lemma CutsceneShown(r: Room, id: PlayerId, active: bool, c: PlayerId, m: Mirror)
    requires KeysOk(r) && id in r.conns && c != id && MirrorOk(r, c, m)
    ensures MirrorOk(SetCutscene(r, id, active).room, c, m.(remotes := SetRemoteCutscene(m.remotes, id, active)))
  {}

  lemma CutsceneReplay(id: PlayerId, active: bool, log: seq<Msg>)
    ensures var msgs := [if active then CutsceneStart(id) else CutsceneEnd(id)];
            && Replay(log + msgs) == Replay(log).(remotes := SetRemoteCutscene(Replay(log).remotes, id, active))
            && forall x :: Told(log + msgs, x) <==> Told(log, x)
  {
    var msg := if active then CutsceneStart(id) else CutsceneEnd(id);
    NothingTold(log, [msg]);
    ReplayMore(log, [msg]);
    ApplyOne(Replay(log), msg);
  }

  lemma CutsceneView(r: Room, id: PlayerId, active: bool, c: PlayerId, log: seq<Msg>)
    requires KeysOk(r) && id in r.conns && c != id && ViewOk(r, c, log)
    ensures var e := SetCutscene(r, id, active); ViewOk(e.room, c, log + e.msgs)
  {
    var m := Replay(log);
    var m' := m.(remotes := SetRemoteCutscene(m.remotes, id, active));
    var msgs := [if active then CutsceneStart(id) else CutsceneEnd(id)];
    var log', e := log + msgs, SetCutscene(r, id, active);
    assert e.msgs == msgs && e.room.last == r.last && e.room.conns == r.conns;
    CutsceneReplay(id, active, log);
    CutsceneShown(r, id, active, c, m);
    SceneOnly(m.remotes, id, active);
    SameDataTold(r.last, log, log', m.remotes, m'.remotes);
    JuniorsToldStill(r.conns, r.last, c, log, log');
  }

  lemma SceneOnly(remotes: map<PlayerId, Remote>, id: PlayerId, active: bool)
    ensures var b := SetRemoteCutscene(remotes, id, active);
            forall x :: x in b ==> x in remotes && remotes[x].(inCutscene := b[x].inCutscene) == b[x]
  {}

  lemma SameDataTold(
      last: map<PlayerId, PlayerState>, log: seq<Msg>, log': seq<Msg>, a: map<PlayerId, Remote>,
      b: map<PlayerId, Remote>)
    requires ToldIsLast(last, log, a)
    requires forall id :: Told(log', id) <==> Told(log, id)
    requires forall id :: id in b ==> id in a && a[id].(inCutscene := b[id].inCutscene) == b[id]
    ensures ToldIsLast(last, log', b)
  {}

  lemma JuniorsToldStill(
      conns: seq<PlayerId>, last: map<PlayerId, PlayerState>, c: PlayerId, log: seq<Msg>, log': seq<Msg>)
    requires JuniorsTold(conns, last, c, log)
    requires forall id :: Told(log, id) ==> Told(log', id)
    ensures JuniorsTold(conns, last, c, log')
  {}

  /** One's own cutscene is not news. */
  lemma OwnCutscene(r: Room, c: PlayerId, active: bool, log: seq<Msg>)
    requires KeysOk(r) && c in r.conns && ViewOk(r, c, log)
    ensures ViewOk(SetCutscene(r, c, active).room, c, log)
  {}

  lemma OthersSeeCutscene(
      r: Room, id: PlayerId, active: bool, seen: set<PlayerId>, c: PlayerId, log: seq<Msg>, open: bool)
    requires KeysOk(r) && c in r.conns && ClientOk(r, seen, c, log, open)
    ensures var e := SetCutscene(r, id, active); ClientOk(e.room, seen, c, log + Reaches(e, c, open), open)
  {
    var e := SetCutscene(r, id, active);
    var msgs := Reaches(e, c, open);
    CutsceneLog(r, id, active, seen, c, log, msgs);
    if msgs == [] {
      assert log + msgs == log;
    }
    if open && id in r.conns {
      if c == id {
        OwnCutscene(r, c, active, log);
      } else {
        CutsceneView(r, id, active, c, log);
      }
    }
  }

  lemma CutsceneLog(
      r: Room, id: PlayerId, active: bool, seen: set<PlayerId>, c: PlayerId, log: seq<Msg>, msgs: seq<Msg>)
    requires LogOk(r.hostId, seen, c, log)
    requires msgs == [] || msgs == SetCutscene(r, id, active).msgs
    ensures LogOk(SetCutscene(r, id, active).room.hostId, seen, c, log + msgs)
  {}

  // ---- a tick ------------------------------------------------------------------------------------------

  /** What a tick finds changed and takes as snapshots, as far as clients see it: exactly the players in `due`. */
  ghost predicate Refreshes(r: Room, due: set<PlayerId>, changed: seq<PlayerState>, last: map<PlayerId, PlayerState>) {
    && Agree(changed)
    && (forall id :: Mentions(changed, id) <==> id in due)
    && (forall p :: p in changed ==> p.id in r.players && p == r.players[p.id])
    && (forall id :: id in due ==> id in r.conns && id in r.players && id in last && last[id] == r.players[id])
    && (forall id :: id !in due ==> (id in last <==> id in r.last))
    && (forall id :: id !in due && id in last ==> last[id] == r.last[id])
  }

  lemma BroadcastTells(r: Room, due: set<PlayerId>, changed: seq<PlayerState>, last: map<PlayerId, PlayerState>)
    requires Refreshes(r, due, changed, last)
    ensures forall id :: Told(Broadcast(r, changed, last).msgs, id) <==> id in due
  {
    var msgs := Broadcast(r, changed, last).msgs;
    forall id | id in due ensures Told(msgs, id) {
      assert Mentions(changed, id);
      assert msgs[0] == StateUpdate(changed);
    }
  }

  lemma RefreshRemotes(
      players: map<PlayerId, PlayerState>, due: set<PlayerId>, changed: seq<PlayerState>, c: PlayerId,
      remotes: map<PlayerId, Remote>)
    requires Agree(changed) && c !in remotes
    requires forall id :: Mentions(changed, id) <==> id in due
    requires forall p :: p in changed ==> p.id in players && p == players[p.id]
    requires forall id :: id in due && id != c ==> id in remotes && id in players
    ensures var w := ApplyEntries(c, remotes, changed);
            && w.Keys == remotes.Keys
            && (forall id :: id in remotes && id in due ==> w[id] == RemoteOf(players[id]))
            && (forall id :: id in remotes && id !in due ==> w[id] == remotes[id])
  {
    EntriesEffect(c, remotes, changed);
    var w := ApplyEntries(c, remotes, changed);
    forall id | id in remotes && id in due ensures w[id] == RemoteOf(players[id]) {
      assert Mentions(changed, id);
      var p :| p in changed && p.id == id;
      assert w[p.id] == RemoteOf(p);
    }
  }

  lemma BroadcastRemotes(
      r: Room, due: set<PlayerId>, changed: seq<PlayerState>, last: map<PlayerId, PlayerState>, c: PlayerId, m: Mirror)
    requires Refreshes(r, due, changed, last) && m.localId == c && c !in m.remotes
    requires forall id :: id in due && id != c ==> id in m.remotes
    ensures var w := ApplyAll(m, Broadcast(r, changed, last).msgs);
            && w == m.(remotes := w.remotes)
            && w.remotes.Keys == m.remotes.Keys
            && (forall id :: id in m.remotes && id in due ==> w.remotes[id] == RemoteOf(r.players[id]))
            && (forall id :: id in m.remotes && id !in due ==> w.remotes[id] == m.remotes[id])
  {
    RefreshRemotes(r.players, due, changed, c, m.remotes);
    if |changed| > 0 {
      ApplyOne(m, StateUpdate(changed));
    }
  }

  lemma BroadcastData(r: Room, due: set<PlayerId>, changed: seq<PlayerState>, last: map<PlayerId, PlayerState>,
                      c: PlayerId, log: seq<Msg>, log': seq<Msg>, a: map<PlayerId, Remote>, b: map<PlayerId, Remote>)
    requires Refreshes(r, due, changed, last) && ToldIsLast(r.last, log, a) && b.Keys == a.Keys
    requires forall id :: id in a && id in due ==> b[id] == RemoteOf(r.players[id])
    requires forall id :: id in a && id !in due ==> b[id] == a[id]
    requires forall id :: Told(log', id) <==> Told(log, id) || id in due
    ensures ToldIsLast(last, log', b)
  {}

  lemma BroadcastJuniors(r: Room, due: set<PlayerId>, changed: seq<PlayerState>, last: map<PlayerId, PlayerState>,
                         c: PlayerId, log: seq<Msg>, log': seq<Msg>)
    requires Refreshes(r, due, changed, last) && JuniorsTold(r.conns, r.last, c, log)
    requires forall id :: Told(log', id) <==> Told(log, id) || id in due
    ensures JuniorsTold(r.conns, last, c, log')
  {}

  lemma BroadcastShown(
      r: Room, due: set<PlayerId>, changed: seq<PlayerState>, last: map<PlayerId, PlayerState>, c: PlayerId, m: Mirror)
    requires Refreshes(r, due, changed, last) && MirrorOk(r, c, m)
    ensures MirrorOk(Broadcast(r, changed, last).room, c, ApplyAll(m, Broadcast(r, changed, last).msgs))
  {
    BroadcastRemotes(r, due, changed, last, c, m);
    var w := ApplyAll(m, Broadcast(r, changed, last).msgs);
    assert MembersShown(r.conns, r.hostId, c, w);
  }

  lemma BroadcastView(
      r: Room, due: set<PlayerId>, changed: seq<PlayerState>, last: map<PlayerId, PlayerState>, c: PlayerId,
      log: seq<Msg>)
    requires Refreshes(r, due, changed, last) && c in r.conns && ViewOk(r, c, log)
    ensures var e := Broadcast(r, changed, last); ViewOk(e.room, c, log + e.msgs)
  {
    var e, m := Broadcast(r, changed, last), Replay(log);
    var log' := log + e.msgs;
    ReplayMore(log, e.msgs);
    BroadcastRemotes(r, due, changed, last, c, m);
    BroadcastShown(r, due, changed, last, c, m);
    BroadcastTells(r, due, changed, last);
    forall id ensures Told(log', id) <==> Told(log, id) || id in due {
      ToldMore(log, e.msgs, id);
    }
    BroadcastData(r, due, changed, last, c, log, log', m.remotes, Replay(log').remotes);
    BroadcastJuniors(r, due, changed, last, c, log, log');
  }

  lemma AllSeeBroadcast(r: Room, due: set<PlayerId>, changed: seq<PlayerState>, last: map<PlayerId, PlayerState>,
                        seen: set<PlayerId>, c: PlayerId, log: seq<Msg>, open: bool)
    requires Refreshes(r, due, changed, last) && c in r.conns && ClientOk(r, seen, c, log, open)
    requires forall id :: id in r.conns ==> id in seen
    ensures var e := Broadcast(r, changed, last); ClientOk(e.room, seen, c, log + Reaches(e, c, open), open)
  {
    var msgs := Reaches(Broadcast(r, changed, last), c, open);
    BroadcastTells(r, due, changed, last);
    LogGrows(log, msgs, c, r.hostId, r.hostId, seen);
    if open {
      BroadcastView(r, due, changed, last, c, log);
    }
  }

  function DueSet(r: Room): set<PlayerId> {
    set id | id in r.conns && Delta.Due(r.players, r.last, id)
  }

  /** A tick refreshes exactly the players whose state has changed. */
  lemma TickRefreshes(r: Room)
    requires KeysOk(r)
    ensures Refreshes(r, DueSet(r), Changed(r.conns, r.players, r.last), Snapshots(r.players, r.last))
  {
    var changed := Changed(r.conns, r.players, r.last);
    ChangedLists(r.conns, r.players, r.last);
    forall id | id in DueSet(r) ensures Mentions(changed, id) {
      assert r.players[id] in changed;
    }
  }

  lemma AllSeeTick(r: Room, seen: set<PlayerId>, c: PlayerId, log: seq<Msg>, open: bool)
    requires KeysOk(r) && c in r.conns && ClientOk(r, seen, c, log, open)
    requires forall id :: id in r.conns ==> id in seen
    ensures var e := Tick(r); ClientOk(e.room, seen, c, log + Reaches(e, c, open), open)
  {
    TickRefreshes(r);
    AllSeeBroadcast(
      r, DueSet(r), Changed(r.conns, r.players, r.last), Snapshots(r.players, r.last), seen, c, log, open);
  }

  // ---- puzzles, and updates that send nothing ------------------------------------------------------------

  lemma PuzzleView(r: Room, o: Out, c: PlayerId, log: seq<Msg>)
    requires ViewOk(r, c, log)
    requires forall i :: 0 <= i < |o.msgs| ==> IsPuzzleMsg(o.msgs[i])
    requires Tracks(o.z, OnPuzzles(Replay(log).puzzle, o.msgs))
    ensures ViewOk(OnPuzzles'(r, o).room, c, log + o.msgs)
  {
    NothingTold(log, o.msgs);
    ReplayMore(log, o.msgs);
    PuzzlePart(Replay(log), o.msgs);
  }

  lemma AllSeePuzzle(r: Room, o: Out, seen: set<PlayerId>, c: PlayerId, log: seq<Msg>, open: bool)
    requires c in r.conns && ClientOk(r, seen, c, log, open)
    requires forall msg :: msg in o.msgs ==> IsPuzzleMsg(msg)
    requires open ==> Tracks(o.z, OnPuzzles(Replay(log).puzzle, o.msgs))
    ensures var e := OnPuzzles'(r, o); ClientOk(e.room, seen, c, log + Reaches(e, c, open), open)
  {
    var msgs := Reaches(OnPuzzles'(r, o), c, open);
    assert forall i :: 0 <= i < |o.msgs| ==> o.msgs[i] in o.msgs;
    NothingTold(log, msgs);
    LogGrows(log, msgs, c, r.hostId, r.hostId, seen);
    if open {
      PuzzleView(r, o, c, log);
    }
  }

}
