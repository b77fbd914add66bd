/** What ticks send over whole runs: every player fresh after every tick, and no news without news. */
module QuietTicks {
  import opened Protocol
  import opened Mirror
  import opened Rooms
  import opened ClientView
  import opened Channels
  import opened Server
  import opened Runs
  import Delta

  // ---- no drift --------------------------------------------------------------------------------------------

  lemma RoomTicks(s: State, slack: nat, code: Code)
    requires Inv(s, slack) && code in s.rooms
    ensures code in Step(s, Ticks(code)).rooms
    ensures var r := Step(s, Ticks(code)).rooms[code];
            && r.conns == s.rooms[code].conns
            && forall id :: id in r.conns ==> id in r.players && id in r.last && Delta.Fresh(r.last[id], r.players[id])
  {
    Delta.TickIsFresh(s.rooms[code].players, s.rooms[code].last);
  }

  /** After every tick each member has a snapshot within every epsilon of its live state, whatever came before. */
  lemma TickLeavesFresh(run: Run, slack: nat, i: nat, code: Code, id: PlayerId)
    requires IsRun(run, slack) && i < |run.events| && run.events[i] == Ticks(code)
    requires code in run.states[i].rooms && id in run.states[i].rooms[code].conns
    ensures code in run.states[i + 1].rooms
    ensures var r := run.states[i + 1].rooms[code];
            id in r.conns && id in r.players && id in r.last && Delta.Fresh(r.last[id], r.players[id])
  {
    ReachableOk(run, slack, i);
    assert StepAt(run, i, slack);
    RoomTicks(run.states[i], slack, code);
  }

  /** What ticks have told a member of another is the last snapshot of that player, at any time. */
  lemma ToldIsSnapshot(run: Run, slack: nat, i: nat, code: Code, c: PlayerId, id: PlayerId)
    requires IsRun(run, slack) && i < |run.states|
    requires var s := run.states[i];
             && code in s.rooms && c in s.rooms[code].conns && id in s.rooms[code].conns && id != c
             && c in s.net.open && c in s.net.logs && Told(s.net.logs[c], id)
    ensures var s := run.states[i];
            && id in s.rooms[code].last && id in Replay(s.net.logs[c]).remotes
            && SameData(Replay(s.net.logs[c]).remotes[id], s.rooms[code].last[id])
  {
    ReachableOk(run, slack, i);
    MemberView(run.states[i], slack, code, c);
  }

  // ---- no news ---------------------------------------------------------------------------------------------

  /** A tick would find nothing. */
  ghost predicate Quiet(r: Room) {
    forall id :: id in r.players ==> !Delta.Due(r.players, r.last, id)
  }

  lemma {:induction false} QuietSaysNothing(
      order: seq<PlayerId>, players: map<PlayerId, PlayerState>, last: map<PlayerId, PlayerState>)
    requires forall id :: id in players ==> !Delta.Due(players, last, id)
    ensures Delta.Changed(order, players, last) == []
  {
    if |order| > 0 {
      QuietSaysNothing(order[1..], players, last);
    }
  }

  lemma TickIsQuiet(r: Room)
    ensures Quiet(Tick(r).room)
  {}

  lemma CutsceneIsQuiet(r: Room, id: PlayerId, active: bool)
    requires Quiet(r)
    ensures Quiet(SetCutscene(r, id, active).room)
  {}

  lemma LeaveIsQuiet(r: Room, id: PlayerId, now: int)
    requires Quiet(r)
    ensures Quiet(RemovePlayer(r, id, now).room)
  {
    var s := RemovePlayer(r, id, now).room;
    forall x | x in s.players ensures !Delta.Due(s.players, s.last, x) {
      assert !Delta.Due(r.players, r.last, x);
    }
  }

  /** It carries only fields whose changes alone are never broadcast: a ping, a dodge, a respawn, a few positions. */
  ghost predicate Unheard(patch: Patch) {
    && patch.position.None? && patch.velocity.None? && patch.rotation.None? && patch.health.None?
    && patch.maxHealth.None? && patch.anim.None?
    && patch.gameplay.traversal.None? && Delta.Compared(patch.gameplay) == NO_GAMEPLAY
  }

  lemma UnheardIsQuiet(r: Room, id: PlayerId, patch: Patch)
    requires Quiet(r) && Unheard(patch)
    ensures Quiet(UpdatePlayer(r, id, patch))
  {
    if id in r.players {
      assert !Delta.Due(r.players, r.last, id);
      UnheardUnchanged(r.last[id], r.players[id], patch);
    }
  }

  /** Whatever it is compared with, the state is as changed as it was. */
  lemma UnheardUnchanged(snapshot: PlayerState, cur: PlayerState, patch: Patch)
    requires Unheard(patch)
    ensures Delta.PlayerChanged(snapshot, Delta.Merge(cur, patch)) <==> Delta.PlayerChanged(snapshot, cur)
  {}

  ghost predicate AllUnheard(id: PlayerId, entries: seq<Entry>) {
    forall i :: 0 <= i < |entries| && entries[i].id == id ==> Unheard(entries[i].patch)
  }

  lemma {:induction false} UpdateIsQuiet(r: Room, id: PlayerId, entries: seq<Entry>)
    requires Quiet(r) && AllUnheard(id, entries)
    ensures Quiet(UpdateAll(r, id, entries))
    decreases |entries|
  {
    if |entries| > 0 {
      if entries[0].id == id {
        UnheardIsQuiet(r, id, entries[0].patch);
      }
      UpdateIsQuiet(UpdateOwn(r, id, entries[0]), id, entries[1..]);
    }
  }

  /** Someone in the room reports a state with more in it than that, or someone gets into it. */
  ghost predicate News(s: State, ev: Event, code: Code) {
    || (ev.Update? && HasRoom(s, ev.id) && s.playerRoom[ev.id] == code && !AllUnheard(ev.id, ev.entries))
    || (ev.JoinRequest? && ev.id !in s.inRoom && ev.id in Step(s, ev).inRoom
        && code == if ev.request.Create? then ev.request.newCode else ev.request.inviteCode)
  }

  lemma RemoveIsQuiet(s: State, id: PlayerId, code: Code)
    requires code in s.rooms && Quiet(s.rooms[code]) && code in RemoveMember(s, id).rooms
    ensures Quiet(RemoveMember(s, id).rooms[code])
  {
    LeaveIsQuiet(s.rooms[code], id, s.now);
  }

  lemma StepIsQuiet(s: State, ev: Event, code: Code)
    requires code in s.rooms && Quiet(s.rooms[code]) && !News(s, ev, code)
    requires code in Step(s, ev).rooms
    ensures Quiet(Step(s, ev).rooms[code])
  {
    match ev
    case Close(id) => RemoveIsQuiet(Hangup(s, id), id, code);
    case Kick(id) => if HasRoom(s, id) { RemoveIsQuiet(Hangup(Announce(s, id), id), id, code); }
    case Cutscene(id, active) => CutsceneIsQuiet(s.rooms[code], id, active);
    case Update(id, entries) => if AllUnheard(id, entries) { UpdateIsQuiet(s.rooms[code], id, entries); }
    case Ticks(_) => TickIsQuiet(s.rooms[code]);
    case _ =>
  }

  ghost predicate NoNews(run: Run, i: nat, j: nat, code: Code)
    requires i <= j < |run.states| == |run.events| + 1
  {
    forall k :: i <= k < j ==> !News(run.states[k], run.events[k], code)
  }

  lemma OnlyMadeByJoining(s: State, ev: Event, code: Code)
    requires code in Step(s, ev).rooms && !News(s, ev, code)
    ensures code in s.rooms
  {}

  lemma {:induction false} QuietSince(run: Run, slack: nat, i: nat, j: nat, code: Code)
    requires IsRun(run, slack) && i <= j < |run.states| && NoNews(run, i, j, code)
    requires code in run.states[i].rooms && Quiet(run.states[i].rooms[code])
    requires code in run.states[j].rooms
    ensures Quiet(run.states[j].rooms[code])
    decreases j - i
  {
    if i < j {
      assert StepAt(run, j - 1, slack);
      OnlyMadeByJoining(run.states[j - 1], run.events[j - 1], code);
      QuietSince(run, slack, i, j - 1, code);
      StepIsQuiet(run.states[j - 1], run.events[j - 1], code);
    }
  }

  /**
   A tick that follows a tick sends nothing to anyone, if between them nobody got into the room and its members
   sent at most pings and other updates of fields that are never broadcast alone. Members may have left, join
   requests been refused, the host changed and cutscenes started or ended.
   */
  lemma QuietTicksAreSilent(run: Run, slack: nat, i: nat, j: nat, code: Code)
    requires IsRun(run, slack) && i < j < |run.events| && run.events[i] == Ticks(code) && run.events[j] == Ticks(code)
    requires code in run.states[i].rooms && NoNews(run, i + 1, j, code)
    ensures run.states[j + 1].net == run.states[j].net
  {
    assert StepAt(run, i, slack) && StepAt(run, j, slack);
    TickIsQuiet(run.states[i].rooms[code]);
    QuietSince(run, slack, i + 1, j, code);
    var s := run.states[j];
    var r := s.rooms[code];
    QuietSaysNothing(r.conns, r.players, r.last);
    SendNothing(s.net, Tick(r).to);
  }
}
