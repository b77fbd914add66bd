/**
 What members report and what becomes of it, over every run: state updates, cutscenes and the ticks that pass them
 on. The laws speak of the states and the connections before and after.
 */
module Reports {
  import opened Wrappers
  import opened Keys
  import opened Protocol
  import opened Delta
  import opened Rooms
  import opened Server
  import opened ServerInvariant
  import opened Runs

  /** One room has changed, and its open members in `to` have been sent these packets. */
  ghost predicate RoomReports(s: State, t: State, code: Code, r: Room, to: set<PlayerId>, msgs: seq<Msg>)
    requires code in s.rooms
  {
    && t == s.(rooms := s.rooms[code := r], net := t.net)
    && t.net.open == s.net.open && t.net.logs.Keys == s.net.logs.Keys
    && forall y :: y in s.net.logs ==>
         t.net.logs[y] == s.net.logs[y] + if y in s.net.open && y in s.rooms[code].conns && y in to then msgs else []
  }

  // ---- cutscenes -----------------------------------------------------------------------------------------------

  lemma MemberReports(s: State, x: PlayerId, slack: nat)
    requires Inv(s, slack) && x in s.playerRoom
    ensures HasRoom(s, x)
    ensures var r := s.rooms[s.playerRoom[x]]; x in r.conns && x in r.players && KeysOk(r)
  {
    assert x in s.rooms[s.playerRoom[x]].conns && RoomOk(s.rooms[s.playerRoom[x]]);
  }

  lemma SetCutsceneReports(s: State, x: PlayerId, active: bool)
    requires HasRoom(s, x) && x in s.rooms[s.playerRoom[x]].conns && x in s.rooms[s.playerRoom[x]].players
    ensures var code, t := s.playerRoom[x], OnCutscene(s, x, active);
            var r := s.rooms[code];
            RoomReports(s, t, code, r.(players := r.players[x := r.players[x].(inCutscene := active)]),
                        Elements(r.conns) - {x}, [if active then CutsceneStart(x) else CutsceneEnd(x)])
  {}

  /** A member's cutscene is flagged and everyone else there is told; nobody else has one. */
  lemma CutsceneTakesEffect(run: Run, slack: nat, i: nat, x: PlayerId, active: bool)
    requires IsRun(run, slack) && i < |run.events| && run.events[i] == Cutscene(x, active)
    ensures var s, t := run.states[i], run.states[i + 1];
            if x in s.playerRoom then
              var code := s.playerRoom[x];
              && code in s.rooms && x in s.rooms[code].players
              && var r := s.rooms[code];
                 RoomReports(s, t, code, r.(players := r.players[x := r.players[x].(inCutscene := active)]),
                             Elements(r.conns) - {x}, [if active then CutsceneStart(x) else CutsceneEnd(x)])
            else t == s
  {
    ReachableOk(run, slack, i);
    assert StepAt(run, i, slack);
    if x in run.states[i].playerRoom {
      MemberReports(run.states[i], x, slack);
      SetCutsceneReports(run.states[i], x, active);
    }
  }

  // ---- updates -------------------------------------------------------------------------------------------------

  /** The field is the one carried, if one is. */
  predicate Overwritten<T(==)>(was: T, carried: Option<T>, now: T) {
    now == if carried.Some? then carried.value else was
  }

  predicate Replaced<T(==)>(was: Option<T>, carried: Option<T>, now: Option<T>) {
    now == if carried.Some? then carried else was
  }

  /** Field by field: what the patch carries, and what it does not. */
  predicate Patched(was: PlayerState, p: Patch, now: PlayerState) {
    && now.id == was.id && now.isHost == was.isHost && now.inCutscene == was.inCutscene
    && Overwritten(was.position, p.position, now.position)
    && Overwritten(was.rotation, p.rotation, now.rotation)
    && Overwritten(was.velocity, p.velocity, now.velocity)
    && Overwritten(was.health, p.health, now.health)
    && Overwritten(was.maxHealth, p.maxHealth, now.maxHealth)
    && Overwritten(was.anim, p.anim, now.anim)
    && Overwritten(was.ping, p.ping, now.ping)
    && PatchedGameplay(was.gameplay, p.gameplay, now.gameplay)
  }

  predicate PatchedGameplay(was: Gameplay, p: Gameplay, now: Gameplay) {
    && Replaced(was.traversal, p.traversal, now.traversal)
    && Replaced(was.skillId, p.skillId, now.skillId)
    && Replaced(was.skillPhase, p.skillPhase, now.skillPhase)
    && Replaced(was.skillAnimId, p.skillAnimId, now.skillAnimId)
    && Replaced(was.skillTargetPos, p.skillTargetPos, now.skillTargetPos)
    && Replaced(was.skillTargetEntity, p.skillTargetEntity, now.skillTargetEntity)
    && Replaced(was.activeVfx, p.activeVfx, now.activeVfx)
    && Replaced(was.statusFlags, p.statusFlags, now.statusFlags)
    && Replaced(was.buffIds, p.buffIds, now.buffIds)
    && Replaced(was.weaponId, p.weaponId, now.weaponId)
    && Replaced(was.weaponStance, p.weaponStance, now.weaponStance)
    && Replaced(was.offHandId, p.offHandId, now.offHandId)
    && Replaced(was.isMounted, p.isMounted, now.isMounted)
    && Replaced(was.mountEntityId, p.mountEntityId, now.mountEntityId)
    && Replaced(was.mountAnimId, p.mountAnimId, now.mountAnimId)
    && Replaced(was.mountAnimTime, p.mountAnimTime, now.mountAnimTime)
    && Replaced(was.mountPosition, p.mountPosition, now.mountPosition)
    && Replaced(was.dodgeDirection, p.dodgeDirection, now.dodgeDirection)
    && Replaced(was.isDead, p.isDead, now.isDead)
    && Replaced(was.respawnPosition, p.respawnPosition, now.respawnPosition)
    && Replaced(was.interactionType, p.interactionType, now.interactionType)
    && Replaced(was.interactionEntityId, p.interactionEntityId, now.interactionEntityId)
  }

  /** A chain of states of x, one for each entry: patched by an entry of its own, unmoved by anyone else's. */
  ghost predicate Chain(states: seq<PlayerState>, x: PlayerId, entries: seq<Entry>) {
    && |states| == |entries| + 1
    && forall k :: 0 <= k < |entries| ==>
         if entries[k].id == x then Patched(states[k], entries[k].patch, states[k + 1]) else states[k + 1] == states[k]
  }

  /** The patches of x among the entries lead from one state to the other. */
  ghost predicate LedTo(was: PlayerState, x: PlayerId, entries: seq<Entry>, now: PlayerState) {
    exists states :: Chain(states, x, entries) && states[0] == was && states[|entries|] == now
  }

  lemma MergePatches(cur: PlayerState, p: Patch)
    ensures Patched(cur, p, Merge(cur, p))
  {}

  lemma {:induction false} UpdatesLead(r: Room, x: PlayerId, entries: seq<Entry>)
    requires x in r.players
    ensures x in UpdateAll(r, x, entries).players
    ensures LedTo(r.players[x], x, entries, UpdateAll(r, x, entries).players[x])
    decreases |entries|
  {
    if |entries| == 0 {
      assert Chain([r.players[x]], x, entries);
    } else {
      var next := UpdateOwn(r, x, entries[0]);
      UpdatesLead(next, x, entries[1..]);
      MergePatches(r.players[x], entries[0].patch);
      var last := UpdateAll(r, x, entries).players[x];
      var rest :| Chain(rest, x, entries[1..]) && rest[0] == next.players[x] && rest[|entries| - 1] == last;
      ChainMore(r.players[x], rest, x, entries);
    }
  }

  lemma ChainMore(was: PlayerState, rest: seq<PlayerState>, x: PlayerId, entries: seq<Entry>)
    requires |entries| > 0 && Chain(rest, x, entries[1..])
    requires if entries[0].id == x then Patched(was, entries[0].patch, rest[0]) else rest[0] == was
    ensures LedTo(was, x, entries, rest[|entries| - 1])
  {
    var states := [was] + rest;
    forall k | 0 <= k < |entries|
      ensures if entries[k].id == x then Patched(states[k], entries[k].patch, states[k + 1])
              else states[k + 1] == states[k]
    {
      if k > 0 {
        assert entries[1..][k - 1] == entries[k] && states[k] == rest[k - 1] && states[k + 1] == rest[k];
      }
    }
    assert Chain(states, x, entries);
  }

  /** An update patches the sender's own state, entry by entry, and nothing else; whoever has no room has no state. */
  lemma UpdateTakesEffect(run: Run, slack: nat, i: nat, x: PlayerId, entries: seq<Entry>)
    requires IsRun(run, slack) && i < |run.events| && run.events[i] == Update(x, entries)
    ensures var s, t := run.states[i], run.states[i + 1];
            if x in s.playerRoom then
              var code := s.playerRoom[x];
              && code in s.rooms && code in t.rooms && x in s.rooms[code].players && x in t.rooms[code].players
              && var r, now := s.rooms[code], t.rooms[code].players[x];
                 && t == s.(rooms := s.rooms[code := r.(players := r.players[x := now])])
                 && LedTo(r.players[x], x, entries, now)
            else t == s
  {
    ReachableOk(run, slack, i);
    assert StepAt(run, i, slack);
    var s := run.states[i];
    if x in s.playerRoom {
      MemberReports(s, x, slack);
      UpdateOnlyOwn(s, x, entries);
    }
  }

  lemma UpdateOnlyOwn(s: State, x: PlayerId, entries: seq<Entry>)
    requires HasRoom(s, x) && x in s.rooms[s.playerRoom[x]].players
    ensures var code, t := s.playerRoom[x], OnStateUpdate(s, x, entries);
            && code in t.rooms && x in t.rooms[code].players
            && var r, now := s.rooms[code], t.rooms[code].players[x];
               && t == s.(rooms := s.rooms[code := r.(players := r.players[x := now])])
               && LedTo(r.players[x], x, entries, now)
  {
    var r := s.rooms[s.playerRoom[x]];
    UpdatesLead(r, x, entries);
    OnlyOwnState(r, x, entries);
    var q := UpdateAll(r, x, entries);
    assert q.players == r.players[x := q.players[x]] by {
      forall y | y in q.players && y != x ensures q.players[y] == r.players[y] {
        assert (q.players - {x})[y] == (r.players - {x})[y];
      }
    }
  }

  // ---- ticks ---------------------------------------------------------------------------------------------------

  /** There is no snapshot, or it is no longer fresh. */
  ghost predicate Stale(r: Room, y: PlayerId) {
    y in r.players && (y !in r.last || !Fresh(r.last[y], r.players[y]))
  }

  /** The states of all whose snapshots are stale, each once, in the order the players joined. */
  ghost predicate ListsStale(r: Room, list: seq<PlayerState>) {
    && (forall k :: 0 <= k < |list| ==>
          list[k].id in r.conns && Stale(r, list[k].id) && list[k] == r.players[list[k].id])
    && (forall y :: Stale(r, y) ==> r.players[y] in list)
    && InOrder(r.conns, list)
  }

  ghost predicate InOrder(order: seq<PlayerId>, list: seq<PlayerState>) {
    && (forall a :: 0 <= a < |list| ==> list[a].id in order)
    && forall a, b :: 0 <= a < b < |list| ==> IndexOf(order, list[a].id) < IndexOf(order, list[b].id)
  }

  /** Stale snapshots have been renewed, and the others kept. */
  ghost predicate Renewed(r: Room, last: map<PlayerId, PlayerState>) {
    && last.Keys == r.players.Keys
    && forall y :: y in last
        ==> (Stale(r, y) && last[y] == r.players[y]) || (!Stale(r, y) && y in r.last && last[y] == r.last[y])
  }

  lemma DueIsStale(r: Room, y: PlayerId)
    ensures Due(r.players, r.last, y) <==> Stale(r, y)
  {
    if y in r.players && y in r.last {
      UnchangedIsFresh(r.last[y], r.players[y]);
    }
  }

  lemma InOrderBehind(order: seq<PlayerId>, list: seq<PlayerState>, p: PlayerState)
    requires Distinct(order) && |order| > 0 && InOrder(order[1..], list)
    ensures InOrder(order, list)
    ensures p.id == order[0] ==> InOrder(order, [p] + list)
  {
    forall a | 0 <= a < |list| ensures list[a].id in order
        && IndexOf(order, list[a].id) == 1 + IndexOf(order[1..], list[a].id) {
      IndexUnique(order, list[a].id, 1 + IndexOf(order[1..], list[a].id));
    }
  }

  lemma {:induction false} ChangedInOrder(
      order: seq<PlayerId>, players: map<PlayerId, PlayerState>, last: map<PlayerId, PlayerState>)
    requires WellKeyed(players) && Distinct(order)
    ensures InOrder(order, Changed(order, players, last))
    decreases |order|
  {
    if |order| > 0 {
      ChangedInOrder(order[1..], players, last);
      var rest := Changed(order[1..], players, last);
      InOrderBehind(order, rest, if Due(players, last, order[0]) then players[order[0]] else CreatePlayerState(NOBODY));
    }
  }

  lemma TickLists(r: Room)
    requires KeysOk(r)
    ensures ListsStale(r, Changed(r.conns, r.players, r.last)) && Renewed(r, Snapshots(r.players, r.last))
  {
    var list := Changed(r.conns, r.players, r.last);
    forall y ensures Due(r.players, r.last, y) <==> Stale(r, y) {
      DueIsStale(r, y);
    }
    ChangedLists(r.conns, r.players, r.last);
    forall k | 0 <= k < |list| ensures list[k].id in r.conns && Stale(r, list[k].id)
        && list[k] == r.players[list[k].id] {
      assert list[k] in list;
    }
    ChangedInOrder(r.conns, r.players, r.last);
  }

  /** The stale snapshots are renewed, and their states sent to every open member if there are any. */
  ghost predicate Ticked(s: State, t: State, code: Code) {
    && code in s.rooms && code in t.rooms
    && Renewed(s.rooms[code], t.rooms[code].last)
    && exists list ::
         && ListsStale(s.rooms[code], list)
         && RoomReports(s, t, code, s.rooms[code].(last := t.rooms[code].last), Elements(s.rooms[code].conns),
                        if list == [] then [] else [StateUpdate(list)])
  }

  lemma RoomTicks(s: State, code: Code)
    requires code in s.rooms && KeysOk(s.rooms[code])
    ensures Ticked(s, Put(s, code, Tick(s.rooms[code])), code)
  {
    var r := s.rooms[code];
    TickLists(r);
    var list := Changed(r.conns, r.players, r.last);
    assert RoomReports(s, Put(s, code, Tick(r)), code, r.(last := Snapshots(r.players, r.last)), Elements(r.conns),
                       if list == [] then [] else [StateUpdate(list)]);
  }

  lemma ListedKeys(s: State, code: Code, slack: nat)
    requires Inv(s, slack) && code in s.rooms
    ensures KeysOk(s.rooms[code])
  {
    assert RoomOk(s.rooms[code]);
  }

  /** A tick, in any run. */
  lemma TickTakesEffect(run: Run, slack: nat, i: nat, code: Code)
    requires IsRun(run, slack) && i < |run.events| && run.events[i] == Ticks(code)
    ensures Ticked(run.states[i], run.states[i + 1], code)
  {
    ReachableOk(run, slack, i);
    assert StepAt(run, i, slack);
    ListedKeys(run.states[i], code, slack);
    RoomTicks(run.states[i], code);
  }

  // ---- the rest ------------------------------------------------------------------------------------------------

  /** Time only passes; other traffic only adds packets that no mirror minds. */
  lemma TimeAndChatter(run: Run, slack: nat, i: nat)
    requires IsRun(run, slack) && i < |run.events|
    ensures var s, t := run.states[i], run.states[i + 1];
            match run.events[i]
            case Advance(ms) => t == s.(now := s.now + ms)
            case SocketDown(x) => t == s.(net := s.net.(open := s.net.open - {x}))
            case Chatter(to) =>
              && t == s.(net := t.net) && t.net.open == s.net.open && t.net.logs.Keys == s.net.logs.Keys
              && forall y :: y in s.net.logs ==>
                   t.net.logs[y] == s.net.logs[y] + if y in to && y in s.net.open then [Other] else []
            case _ => true
  {
    assert StepAt(run, i, slack);
  }
}
