/**
 What a client makes of the packets it gets: `Session::OnPacket` with the parts of `PlayerSync` and
 `PuzzleSync` it calls, as one replay function.
 */
module Mirror {
  import opened Protocol

  /**
   What a client holds of another player, of the fields the server mirrors. `gameplay` are the optional fields of
   the last entry; `GameplaySync` says what a client reads out of them.
   */
  datatype Remote = Remote(
    target: Vec3, velocity: Vec3, health: real, maxHealth: real, inCutscene: bool, gameplay: Gameplay)

  const DEFAULT_REMOTE := Remote(ORIGIN, ORIGIN, 100.0, 100.0, false, NO_GAMEPLAY)

  datatype PuzzleMirror = PuzzleMirror(
      active: bool, puzzleId: PuzzleId, controllerId: PlayerId, queue: seq<PlayerId>, remainingMs: int)

  const NO_PUZZLE_MIRROR := PuzzleMirror(false, NO_PUZZLE, NOBODY, [], 0)

  datatype Mirror = Mirror(localId: PlayerId, isHost: bool, remotes: map<PlayerId, Remote>, puzzle: PuzzleMirror)

  /** A client process with its one connection just opened. */
  const INITIAL := Mirror(NOBODY, false, map[], NO_PUZZLE_MIRROR)

  function RemoteOf(p: PlayerState): Remote {
    Remote(p.position, p.velocity, p.health, p.maxHealth, p.inCutscene, p.gameplay)
  }

  /** `ApplyStateUpdate` on entries that carry every field, as the server sends them. */
  function ApplyEntries(
      localId: PlayerId, remotes: map<PlayerId, Remote>, entries: seq<PlayerState>): map<PlayerId, Remote>
    decreases |entries|
  {
    if |entries| == 0 then remotes
    else
      var p := entries[0];
      ApplyEntries(localId, if p.id == localId then remotes else remotes[p.id := RemoteOf(p)], entries[1..])
  }

  function AddRemote(remotes: map<PlayerId, Remote>, id: PlayerId): map<PlayerId, Remote> {
    if id in remotes then remotes else remotes[id := DEFAULT_REMOTE]
  }

  function SetRemoteCutscene(remotes: map<PlayerId, Remote>, id: PlayerId, active: bool): map<PlayerId, Remote> {
    if id in remotes then remotes[id := remotes[id].(inCutscene := active)] else remotes
  }

  function OnPuzzle(v: PuzzleMirror, msg: Msg): PuzzleMirror {
    match msg
    case PuzzleStart(id) => PuzzleMirror(true, id, NOBODY, [], 0)
    case PuzzleToken(id, controller, remaining, queue) =>
      PuzzleMirror(true, id, controller, queue, if remaining < 0 then 0 else remaining)
    case PuzzleEnd(id) => if v.puzzleId != NO_PUZZLE && v.puzzleId != id then v else NO_PUZZLE_MIRROR
    case _ => v
  }

  function OnPacket(m: Mirror, msg: Msg): Mirror {
    match msg
    case HandshakeAck(id) => m.(localId := id)
    case JoinAck(isHost, players) => m.(isHost := isHost, remotes := ApplyEntries(m.localId, m.remotes, players))
    case PlayerJoin(p) => m.(remotes := ApplyEntries(m.localId, AddRemote(m.remotes, p.id), [p]))
    case PlayerLeave(id) => m.(remotes := m.remotes - {id})
    case HostReassign(id) => m.(isHost := id == m.localId)
    case StateUpdate(players) => m.(remotes := ApplyEntries(m.localId, m.remotes, players))
    case CutsceneStart(id) => m.(remotes := SetRemoteCutscene(m.remotes, id, true))
    case CutsceneEnd(id) => m.(remotes := SetRemoteCutscene(m.remotes, id, false))
    case PuzzleStart(_) => m.(puzzle := OnPuzzle(m.puzzle, msg))
    case PuzzleToken(_, _, _, _) => m.(puzzle := OnPuzzle(m.puzzle, msg))
    case PuzzleEnd(_) => m.(puzzle := OnPuzzle(m.puzzle, msg))
    case Other => m
  }

  function ApplyAll(m: Mirror, msgs: seq<Msg>): Mirror
    decreases |msgs|
  {
    if |msgs| == 0 then m else ApplyAll(OnPacket(m, msgs[0]), msgs[1..])
  }

  /** The client after the packets of a connection. */
  function Replay(log: seq<Msg>): Mirror {
    ApplyAll(INITIAL, log)
  }

  predicate IsLocalController(m: Mirror) {
    m.puzzle.active && m.puzzle.controllerId != NOBODY && m.puzzle.controllerId == m.localId
  }

  /** The gate on the local puzzle input. */
  predicate LocalInputAllowed(m: Mirror) {
    !m.puzzle.active || IsLocalController(m)
  }

  // ---- replay and its parts ------------------------------------------------------------------------

  lemma {:induction false} ApplyAllConcat(m: Mirror, a: seq<Msg>, b: seq<Msg>)
    ensures ApplyAll(m, a + b) == ApplyAll(ApplyAll(m, a), b)
    decreases |a|
  {
    if |a| == 0 {
      assert a + b == b;
    } else {
      assert (a + b)[1..] == a[1..] + b;
      ApplyAllConcat(OnPacket(m, a[0]), a[1..], b);
    }
  }

  predicate IsPuzzleMsg(msg: Msg) {
    msg.PuzzleStart? || msg.PuzzleToken? || msg.PuzzleEnd?
  }

  function OnPuzzles(v: PuzzleMirror, msgs: seq<Msg>): PuzzleMirror
    decreases |msgs|
  {
    if |msgs| == 0 then v else OnPuzzles(OnPuzzle(v, msgs[0]), msgs[1..])
  }

  lemma {:induction false} OnPuzzlesConcat(v: PuzzleMirror, a: seq<Msg>, b: seq<Msg>)
    ensures OnPuzzles(v, a + b) == OnPuzzles(OnPuzzles(v, a), b)
    decreases |a|
  {
    if |a| == 0 {
      assert a + b == b;
    } else {
      assert (a + b)[1..] == a[1..] + b;
      OnPuzzlesConcat(OnPuzzle(v, a[0]), a[1..], b);
    }
  }

  /** The puzzle mirror depends on the puzzle packets alone, and they touch nothing else. */
  lemma {:induction false} PuzzlePart(m: Mirror, msgs: seq<Msg>)
    ensures ApplyAll(m, msgs).puzzle == OnPuzzles(m.puzzle, msgs)
    ensures (forall msg :: msg in msgs ==> IsPuzzleMsg(msg))
            ==> ApplyAll(m, msgs) == m.(puzzle := OnPuzzles(m.puzzle, msgs))
    decreases |msgs|
  {
    if |msgs| > 0 {
      PuzzlePart(OnPacket(m, msgs[0]), msgs[1..]);
      if forall msg :: msg in msgs ==> IsPuzzleMsg(msg) {
        assert IsPuzzleMsg(msgs[0]);
      }
    }
  }

  /** Two entries for one player that agree, as in a list made from a Map. */
  ghost predicate Agree(entries: seq<PlayerState>) {
    forall e, f :: e in entries && f in entries && e.id == f.id ==> e == f
  }

  ghost predicate Mentions(entries: seq<PlayerState>, id: PlayerId) {
    exists e :: e in entries && e.id == id
  }

  /** What a list of entries does to the remote players. */
  lemma {:induction false} EntriesEffect(localId: PlayerId, remotes: map<PlayerId, Remote>, entries: seq<PlayerState>)
    requires Agree(entries)
    ensures var r := ApplyEntries(localId, remotes, entries);
            && (forall id :: id in r <==> id in remotes || (id != localId && Mentions(entries, id)))
            && (forall e :: e in entries && e.id != localId ==> e.id in r && r[e.id] == RemoteOf(e))
            && (forall id :: id in remotes && (id == localId || !Mentions(entries, id)) ==> r[id] == remotes[id])
    decreases |entries|
  {
    if |entries| > 0 {
      var p := entries[0];
      var next := if p.id == localId then remotes else remotes[p.id := RemoteOf(p)];
      assert Agree(entries[1..]);
      EntriesEffect(localId, next, entries[1..]);
      var r := ApplyEntries(localId, remotes, entries);
      assert p in entries;
      forall id | Mentions(entries, id) && id != p.id ensures Mentions(entries[1..], id) {
        var e :| e in entries && e.id == id;
        assert e in entries[1..];
      }
      if p.id != localId && Mentions(entries[1..], p.id) {
        var e :| e in entries[1..] && e.id == p.id;
        assert e == p;
      }
    }
  }

  /** A packet that makes its receiver believe it is the host. */
  predicate Crowns(msg: Msg, id: PlayerId) {
    (msg.JoinAck? && msg.isHost) || (msg.HostReassign? && msg.newHostId == id)
  }

  /** A client learns its id once. */
  ghost predicate OneId(log: seq<Msg>, id: PlayerId) {
    && |log| > 0 && log[0] == HandshakeAck(id)
    && forall i :: 0 < i < |log| ==> !log[i].HandshakeAck?
  }

  lemma {:induction false} LocalIdKept(m: Mirror, msgs: seq<Msg>)
    requires forall msg :: msg in msgs ==> !msg.HandshakeAck?
    ensures ApplyAll(m, msgs).localId == m.localId
    decreases |msgs|
  {
    if |msgs| > 0 {
      LocalIdKept(OnPacket(m, msgs[0]), msgs[1..]);
    }
  }

  lemma {:induction false} NotCrowned(m: Mirror, msgs: seq<Msg>)
    requires forall msg :: msg in msgs ==> !msg.HandshakeAck? && !Crowns(msg, m.localId)
    requires !m.isHost
    ensures !ApplyAll(m, msgs).isHost
    decreases |msgs|
  {
    if |msgs| > 0 {
      NotCrowned(OnPacket(m, msgs[0]), msgs[1..]);
    }
  }

  /** Only a crowning packet makes a client believe it is the host, at whatever point of the stream it is. */
  lemma BelievesOnlyIfCrowned(log: seq<Msg>, id: PlayerId, k: nat)
    requires OneId(log, id) && k <= |log|
    requires forall msg :: msg in log ==> !Crowns(msg, id)
    ensures !Replay(log[..k]).isHost
  {
    if k > 0 {
      var m := OnPacket(INITIAL, log[0]);
      assert log[..k][1..] == log[1..k];
      assert forall msg :: msg in log[1..k] ==> !msg.HandshakeAck? && !Crowns(msg, id);
      NotCrowned(m, log[1..k]);
    }
  }
}
