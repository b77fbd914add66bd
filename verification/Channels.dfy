/** A room and the channels to its members: every operation keeps every member's connection in step with the room. */
module Channels {
  import opened Keys
  import opened Protocol
  import opened Puzzles
  import opened Mirror
  import opened PuzzleTracking
  import opened Rooms
  import opened ClientView

  /** All packets sent on each connection so far; `open`: the sockets a send still goes through on. */
  datatype Net = Net(logs: map<PlayerId, seq<Msg>>, open: set<PlayerId>)

  /** Packets to everyone in `to` whose socket is open. */
  function Send(net: Net, to: set<PlayerId>, msgs: seq<Msg>): Net {
    net.(logs := map c | c in net.logs :: net.logs[c] + if c in net.open && c in to then msgs else [])
  }

  lemma SendNothing(net: Net, to: set<PlayerId>)
    ensures Send(net, to, []) == net
  {
    forall c | c in net.logs ensures Send(net, to, []).logs[c] == net.logs[c] {
      assert net.logs[c] + [] == net.logs[c];
    }
    assert Send(net, to, []).logs == net.logs;
  }

  /** Two rounds of packets to the same members are one round of both. */
  lemma SendMore(net: Net, to: set<PlayerId>, a: seq<Msg>, b: seq<Msg>)
    ensures Send(Send(net, to, a), to, b) == Send(net, to, a + b)
  {
    var both := Send(Send(net, to, a), to, b);
    forall c | c in net.logs ensures both.logs[c] == Send(net, to, a + b).logs[c] {
      assert net.logs[c] + a + b == net.logs[c] + (a + b);
      assert net.logs[c] + [] + [] == net.logs[c] + [];
    }
    assert both.logs == Send(net, to, a + b).logs;
  }

  /** Sending what an operation sends. */
  function Post(net: Net, e: Effect): Net {
    Send(net, e.to, e.msgs)
  }

  ghost predicate MemberOk(r: Room, net: Net, seen: set<PlayerId>, c: PlayerId) {
    c in net.logs && c in seen && ClientOk(r, seen, c, net.logs[c], c in net.open)
  }

  ghost predicate NetOk(r: Room, net: Net, seen: set<PlayerId>) {
    forall c :: c in r.conns ==> MemberOk(r, net, seen, c)
  }

  lemma CutsceneNet(r: Room, id: PlayerId, active: bool, net: Net, seen: set<PlayerId>)
    requires KeysOk(r) && NetOk(r, net, seen)
    ensures var e := SetCutscene(r, id, active); NetOk(e.room, Post(net, e), seen)
  {
    var e := SetCutscene(r, id, active);
    forall c | c in e.room.conns ensures MemberOk(e.room, Post(net, e), seen, c) {
      assert MemberOk(r, net, seen, c);
      OthersSeeCutscene(r, id, active, seen, c, net.logs[c], c in net.open);
    }
  }

  lemma UpdateNet(r: Room, id: PlayerId, patch: Patch, net: Net, seen: set<PlayerId>)
    requires NetOk(r, net, seen)
    ensures NetOk(UpdatePlayer(r, id, patch), net, seen)
  {}

  lemma TickNet(r: Room, net: Net, seen: set<PlayerId>)
    requires KeysOk(r) && NetOk(r, net, seen)
    ensures var e := Tick(r); NetOk(e.room, Post(net, e), seen)
  {
    var e := Tick(r);
    assert forall c :: c in r.conns ==> MemberOk(r, net, seen, c);
    forall c | c in e.room.conns ensures MemberOk(e.room, Post(net, e), seen, c) {
      AllSeeTick(r, seen, c, net.logs[c], c in net.open);
    }
  }

  /** The puzzles do something that every client follows. */
  lemma PuzzleNet(r: Room, o: Out, net: Net, seen: set<PlayerId>)
    requires NetOk(r, net, seen)
    requires forall msg :: msg in o.msgs ==> IsPuzzleMsg(msg)
    requires forall c ::
               c in r.conns && c in net.logs && c in net.open && Tracks(r.puzzles, Replay(net.logs[c]).puzzle) ==>
                 Tracks(o.z, OnPuzzles(Replay(net.logs[c]).puzzle, o.msgs))
    ensures var e := OnPuzzles'(r, o); NetOk(e.room, Post(net, e), seen)
  {
    var e := OnPuzzles'(r, o);
    forall c | c in e.room.conns ensures MemberOk(e.room, Post(net, e), seen, c) {
      assert MemberOk(r, net, seen, c);
      AllSeePuzzle(r, o, seen, c, net.logs[c], c in net.open);
    }
  }

  lemma StartPuzzleNet(r: Room, puzzleId: PuzzleId, now: int, net: Net, seen: set<PlayerId>)
    requires puzzleId != NO_PUZZLE && |r.conns| > 0 && NetOk(r, net, seen)
    ensures var e := StartPuzzle(r, puzzleId, now); NetOk(e.room, Post(net, e), seen)
  {
    var o := Start(r.puzzles, puzzleId, r.conns, TOKEN_DURATION, now);
    StartKeeps(r.puzzles, puzzleId, r.conns, TOKEN_DURATION, now, NO_PUZZLE_MIRROR);
    forall c | c in r.conns && c in net.logs ensures Tracks(o.z, OnPuzzles(Replay(net.logs[c]).puzzle, o.msgs)) {
      StartKeeps(r.puzzles, puzzleId, r.conns, TOKEN_DURATION, now, Replay(net.logs[c]).puzzle);
    }
    PuzzleNet(r, o, net, seen);
  }

  lemma PassPuzzleNet(r: Room, puzzleId: PuzzleId, id: PlayerId, now: int, net: Net, seen: set<PlayerId>)
    requires Named(r.puzzles) && NetOk(r, net, seen)
    ensures var e := PassPuzzle(r, puzzleId, id, now); NetOk(e.room, Post(net, e), seen)
  {
    var o := Pass(r.puzzles, puzzleId, id, now);
    PassKeeps(r.puzzles, puzzleId, id, now, NO_PUZZLE_MIRROR);
    forall c | c in r.conns && c in net.logs && Tracks(r.puzzles, Replay(net.logs[c]).puzzle)
      ensures Tracks(o.z, OnPuzzles(Replay(net.logs[c]).puzzle, o.msgs))
    {
      PassKeeps(r.puzzles, puzzleId, id, now, Replay(net.logs[c]).puzzle);
    }
    PuzzleNet(r, o, net, seen);
  }

  lemma FireTimerNet(r: Room, handle: nat, now: int, net: Net, seen: set<PlayerId>)
    requires Named(r.puzzles) && handle in r.puzzles.timers.armed && NetOk(r, net, seen)
    ensures var e := FireTimer(r, handle, now); NetOk(e.room, Post(net, e), seen)
  {
    var o := Fire(r.puzzles, handle, now);
    FireKeeps(r.puzzles, handle, now, NO_PUZZLE_MIRROR);
    forall c | c in r.conns && c in net.logs && Tracks(r.puzzles, Replay(net.logs[c]).puzzle)
      ensures Tracks(o.z, OnPuzzles(Replay(net.logs[c]).puzzle, o.msgs))
    {
      FireKeeps(r.puzzles, handle, now, Replay(net.logs[c]).puzzle);
    }
    PuzzleNet(r, o, net, seen);
  }

  /** A departure, after which someone is left. */
  lemma LeaveNet(r: Room, id: PlayerId, now: int, net: Net, seen: set<PlayerId>)
    requires KeysOk(r) && HostOk(r) && PuzzlesOk(r) && id in r.conns && NetOk(r, net, seen)
    ensures var e := RemovePlayer(r, id, now); NetOk(e.room, Post(net, e), seen)
  {
    var e := RemovePlayer(r, id, now);
    WithoutKeys(r.conns, id);
    forall c | c in e.room.conns ensures MemberOk(e.room, Post(net, e), seen, c) {
      assert MemberOk(r, net, seen, c);
      DisconnectDrops(r, id, now, Replay(net.logs[c]).puzzle);
      OthersSeeLeave(r, id, Disconnect(r.puzzles, id, now), seen, c, net.logs[c], c in net.open);
    }
  }

  /** Sending the joiner its acknowledgement, after the others have been told. */
  function Greet(net: Net, r: Room, id: PlayerId): Net {
    if id in net.logs && id in net.open then net.(logs := net.logs[id := net.logs[id] + Welcome(r, id)]) else net
  }

  lemma JoinNet(r: Room, id: PlayerId, net: Net, seen: set<PlayerId>)
    requires KeysOk(r) && NetOk(r, net, seen)
    requires id !in r.conns && id !in seen && id in net.logs && LobbyLog(net.logs[id], id)
    ensures var e := AddPlayer(r, id); NetOk(e.room, Greet(Post(net, e), r, id), seen + {id})
  {
    var e := AddPlayer(r, id);
    var net' := Greet(Post(net, e), r, id);
    forall c | c in e.room.conns ensures MemberOk(e.room, net', seen + {id}, c) {
      if c == id {
        JoinerOk(r, id, net.logs[id], seen, id in net.open);
        assert net.logs[id] + [] == net.logs[id];
      } else {
        assert c in r.conns;
        assert MemberOk(r, net, seen, c);
        OthersSeeJoin(r, id, seen, c, net.logs[c], c in net.open);
      }
    }
  }

  lemma JoinerOk(r: Room, id: PlayerId, log: seq<Msg>, seen: set<PlayerId>, open: bool)
    requires KeysOk(r) && id !in r.conns && LobbyLog(log, id)
    ensures ClientOk(AddPlayer(r, id).room, seen + {id}, id, if open then log + Welcome(r, id) else log, open)
  {
    if open {
      JoinerSees(r, id, seen, log);
    } else {
      LobbyReplay(log, id);
    }
  }

  /** Packets that members of this room do not get. */
  lemma NotOurs(r: Room, net: Net, to: set<PlayerId>, msgs: seq<Msg>, seen: set<PlayerId>)
    requires NetOk(r, net, seen)
    requires forall c :: c in r.conns ==> c !in to
    ensures NetOk(r, Send(net, to, msgs), seen)
  {
    forall c | c in r.conns ensures MemberOk(r, Send(net, to, msgs), seen, c) {
      assert MemberOk(r, net, seen, c);
      assert net.logs[c] + [] == net.logs[c];
    }
  }

  lemma MoreSeen(r: Room, net: Net, seen: set<PlayerId>, more: set<PlayerId>)
    requires NetOk(r, net, seen)
    ensures NetOk(r, net, seen + more)
  {}

  /** Packets the mirrors ignore: chat, relayed calls, pongs, denials. */
  lemma NoiseNet(r: Room, to: set<PlayerId>, net: Net, seen: set<PlayerId>)
    requires NetOk(r, net, seen)
    ensures NetOk(r, Send(net, to, [Other]), seen)
  {
    forall c | c in r.conns ensures MemberOk(r, Send(net, to, [Other]), seen, c) {
      assert MemberOk(r, net, seen, c);
      NoiseOk(r, seen, c, net.logs[c], if c in net.open && c in to then [Other] else [], c in net.open);
    }
  }

  lemma NoiseOk(r: Room, seen: set<PlayerId>, c: PlayerId, log: seq<Msg>, msgs: seq<Msg>, open: bool)
    requires ClientOk(r, seen, c, log, open) && (msgs == [] || msgs == [Other])
    ensures ClientOk(r, seen, c, log + msgs, open)
  {
    NothingTold(log, msgs);
    LogGrows(log, msgs, c, r.hostId, r.hostId, seen);
    ReplayMore(log, msgs);
    OthersChangeNothing(Replay(log), msgs);
    if open {
      JuniorsToldStill(r.conns, r.last, c, log, log + msgs);
      SameDataTold(r.last, log, log + msgs, Replay(log).remotes, Replay(log).remotes);
    }
  }
}
