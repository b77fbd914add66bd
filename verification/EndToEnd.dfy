/**
 From the player's real values to another player's screen: the sender's threshold, the wire, the server's
 epsilon and the broadcast, composed. A link is the whole server with the client of one player and its uplink.
 */
module EndToEnd {
  import opened Wrappers
  import opened Protocol
  import opened Delta
  import opened GameplaySync
  import opened Mirror
  import opened Rooms
  import opened ClientView
  import opened Server
  import opened ServerInvariant
  import opened Runs
  import opened Succession
  import opened Sender

  /**
   The last three fields only record what happened: the gameplay of every state sent, how many of those have
   arrived, and the values read by the last open check.
   */
  datatype Link = Link(
    server: State, sent: Sent, suspended: bool, uplink: seq<Patch>,
    packets: seq<Packet>, arrived: nat, actual: Option<Reading>)

  datatype LinkEvent =
    | Checks(connected: bool, nowMs: real, reading: Option<Reading>)
    | Suspends(active: bool)
    | Arrives
    | Elsewhere(ev: Event)

  /** Of what the client sends, the state patches carry a position and the animation patches do not. */
  predicate CarriesState(patch: Patch) {
    patch.position.Some?
  }

  function LinkStep(l: Link, p: PlayerId, le: LinkEvent): Link {
    match le
    case Checks(connected, nowMs, reading) =>
      var o := Check(l.sent, connected, l.suspended, nowMs, reading);
      l.(sent := o.sent, uplink := l.uplink + o.patches,
         packets := if o.patches == [] then l.packets else l.packets + [reading.value.gameplay],
         actual := if Open(l.sent, connected, l.suspended, nowMs) && reading.Some? then reading else l.actual)
    case Suspends(active) => l.(suspended := active)
    case Arrives =>
      if l.uplink == [] then l
      else
        l.(server := Step(l.server, Update(p, [Entry(p, l.uplink[0])])), uplink := l.uplink[1..],
           arrived := if CarriesState(l.uplink[0]) then l.arrived + 1 else l.arrived)
    case Elsewhere(ev) => l.(server := Step(l.server, ev))
  }

  /** An update that leaves position, health and gameplay alone, as a ping does. */
  ghost predicate Harmless(p: PlayerId, entries: seq<Entry>) {
    forall i :: 0 <= i < |entries| && entries[i].id == p ==> Leaves(entries[i].patch)
  }

  ghost predicate Leaves(patch: Patch) {
    patch.position.None? && patch.health.None? && patch.gameplay == NO_GAMEPLAY
  }

  /** The client sends in session only; its states reach the server by its uplink alone. */
  ghost predicate LinkEnabled(l: Link, p: PlayerId, le: LinkEvent, slack: nat) {
    match le
    case Checks(_, _, _) => p in l.server.inRoom
    case Elsewhere(ev) => Enabled(l.server, ev, slack) && (ev.Update? && ev.id == p ==> Harmless(p, ev.entries))
    case _ => true
  }

  // ---- the player's entry ------------------------------------------------------------------------------------

  ghost predicate Here(s: State, p: PlayerId) {
    p in s.playerRoom && s.playerRoom[p] in s.rooms && p in s.rooms[s.playerRoom[p]].players
  }

  ghost function EntryOf(s: State, p: PlayerId): PlayerState
    requires Here(s, p)
  {
    s.rooms[s.playerRoom[p]].players[p]
  }

  ghost function LastOf(s: State, p: PlayerId): Option<PlayerState>
    requires Here(s, p)
  {
    var last := s.rooms[s.playerRoom[p]].last;
    if p in last then Some(last[p]) else None
  }

  ghost predicate SameVitals(a: PlayerState, b: PlayerState) {
    a.position == b.position && a.health == b.health && a.gameplay == b.gameplay
  }

  lemma {:induction false} UpdateAllVitals(r: Room, id: PlayerId, entries: seq<Entry>, p: PlayerId)
    requires p in r.players && (id == p ==> Harmless(p, entries))
    ensures p in UpdateAll(r, id, entries).players && SameVitals(UpdateAll(r, id, entries).players[p], r.players[p])
    decreases |entries|
  {
    if |entries| > 0 {
      UpdateAllVitals(UpdateOwn(r, id, entries[0]), id, entries[1..], p);
    }
  }

  lemma LeaveVitals(r: Room, id: PlayerId, now: int, p: PlayerId)
    requires p in RemovePlayer(r, id, now).room.players
    ensures var t := RemovePlayer(r, id, now).room;
            && p in r.players && SameVitals(t.players[p], r.players[p])
            && (p in t.last ==> p in r.last && t.last[p] == r.last[p])
  {}

  lemma RemoveVitals(s: State, id: PlayerId, p: PlayerId)
    requires Here(s, p) && Here(RemoveMember(s, id), p)
    ensures SameVitals(EntryOf(RemoveMember(s, id), p), EntryOf(s, p))
    ensures LastOf(RemoveMember(s, id), p) == LastOf(s, p) || LastOf(RemoveMember(s, id), p).None?
  {
    if HasRoom(s, id) && s.playerRoom[id] == s.playerRoom[p] {
      LeaveVitals(s.rooms[s.playerRoom[p]], id, s.now, p);
    }
  }

  lemma JoinVitals(s: State, id: PlayerId, request: Request, p: PlayerId)
    requires Here(s, p) && p in s.inRoom && (request.Create? ==> request.newCode !in s.rooms)
    ensures Here(OnJoinRequest(s, id, request), p)
            && SameVitals(EntryOf(OnJoinRequest(s, id, request), p), EntryOf(s, p))
  {}

  /** Nothing but the player's own updates touches its position, health and gameplay while it stays. */
  lemma VitalsKept(s: State, ev: Event, p: PlayerId)
    requires Here(s, p) && Here(Step(s, ev), p) && p in s.inRoom
    requires ev.JoinRequest? && ev.request.Create? ==> ev.request.newCode !in s.rooms
    requires ev.Update? && ev.id == p ==> Harmless(p, ev.entries)
    ensures SameVitals(EntryOf(Step(s, ev), p), EntryOf(s, p))
  {
    match ev
    case Update(id, entries) =>
      if HasRoom(s, id) && s.playerRoom[id] == s.playerRoom[p] {
        UpdateAllVitals(s.rooms[s.playerRoom[id]], id, entries, p);
      }
    case JoinRequest(id, request) => JoinVitals(s, id, request, p);
    case Close(id) => RemoveVitals(Hangup(s, id), id, p);
    case Kick(id) => if HasRoom(s, id) { RemoveVitals(Hangup(Announce(s, id), id), id, p); }
    case _ =>
  }

  lemma JoinLast(s: State, id: PlayerId, request: Request, p: PlayerId)
    requires Here(s, p) && p in s.inRoom && (request.Create? ==> request.newCode !in s.rooms)
    ensures Here(OnJoinRequest(s, id, request), p) && LastOf(OnJoinRequest(s, id, request), p) == LastOf(s, p)
  {}

  /** A snapshot is the one there was, or that of the entry. */
  lemma LastKept(s: State, ev: Event, p: PlayerId)
    requires Here(s, p) && Here(Step(s, ev), p) && p in s.inRoom
    requires ev.JoinRequest? && ev.request.Create? ==> ev.request.newCode !in s.rooms
    ensures LastOf(Step(s, ev), p) in {None, LastOf(s, p), Some(EntryOf(s, p))}
  {
    match ev
    case Update(id, entries) =>
      if HasRoom(s, id) {
        OnlyOwnState(s.rooms[s.playerRoom[id]], id, entries);
      }
    case JoinRequest(id, request) => JoinLast(s, id, request, p);
    case Close(id) => RemoveVitals(Hangup(s, id), id, p);
    case Kick(id) => if HasRoom(s, id) { RemoveVitals(Hangup(Announce(s, id), id), id, p); }
    case _ =>
  }

  lemma OnlyJoinBinds(s: State, ev: Event, p: PlayerId)
    requires p !in s.playerRoom && p in Step(s, ev).playerRoom
    ensures p !in s.inRoom
    ensures var t := Step(s, ev);
            && Here(t, p) && EntryOf(t, p) == CreatePlayerState(p).(isHost := EntryOf(t, p).isHost)
            && (LastOf(t, p).Some? ==> t.playerRoom[p] in s.rooms && p in s.rooms[t.playerRoom[p]].last)
  {}

  lemma {:induction false} PatchesOnVitals(a: PlayerState, b: PlayerState, patches: seq<Patch>)
    requires SameVitals(a, b)
    ensures SameVitals(MergePatches(a, patches), MergePatches(b, patches))
    decreases |patches|
  {
    if |patches| > 0 {
      PatchesOnVitals(Merge(a, patches[0]), Merge(b, patches[0]), patches[1..]);
    }
  }

  // ---- the invariant of a link -------------------------------------------------------------------------------

  /** The state patches on the way carry these packets, in this order; the others carry none. */
  ghost predicate OnTheWay(uplink: seq<Patch>, pending: seq<Packet>)
    decreases |uplink|
  {
    if |uplink| == 0 then |pending| == 0
    else if CarriesState(uplink[0]) then
      |pending| > 0 && uplink[0].gameplay == Emit(pending[0]) && OnTheWay(uplink[1..], pending[1..])
    else uplink[0].gameplay == NO_GAMEPLAY && OnTheWay(uplink[1..], pending)
  }

  /**
   What is on the way brings the server's entry to what the sender remembers as sent; the entry has the
   gameplay of what has arrived, and the health of a new player as long as nothing was sent.
   */
  ghost predicate InFlightOk(l: Link, p: PlayerId) {
    Here(l.server, p) ==>
      && (var e := MergePatches(EntryOf(l.server, p), l.uplink);
          e.position == l.sent.position && e.health == if l.packets == [] then 100.0 else l.sent.health)
      && l.arrived <= |l.packets| && OnTheWay(l.uplink, l.packets[l.arrived..])
      && EntryOf(l.server, p).gameplay == MergeAll(NO_GAMEPLAY, l.packets[..l.arrived])
  }

  ghost predicate Unsent(l: Link) {
    l.uplink == [] && l.sent.position == ORIGIN && l.sent.health == -1.0 && l.arrived == 0
  }

  /** Gameplay fields as they were after some of the packets, taken from the first one on. */
  ghost predicate AsOf(g: Gameplay, packets: seq<Packet>) {
    exists k :: 0 <= k <= |packets| && g == MergeAll(NO_GAMEPLAY, packets[..k])
  }

  /** The snapshot of the player is its entry at an earlier time. */
  ghost predicate SnapshotOk(l: Link, p: PlayerId) {
    Here(l.server, p) ==>
      var last := l.server.rooms[l.server.playerRoom[p]].last;
      p in last ==> AsOf(last[p].gameplay, l.packets)
  }

  ghost predicate LinkOk(l: Link, p: PlayerId, slack: nat) {
    && Inv(l.server, slack) && InFlightOk(l, p) && SenderOk(l) && SnapshotOk(l, p)
    && (p !in l.server.inRoom ==> l.packets == [])
  }

  ghost predicate SenderOk(l: Link) {
    && (l.packets == [] ==> Unsent(l))
    && (l.actual.Some? ==> NearVec(l.actual.value.position, l.sent.position, MOVED_EPSILON)
                           && Near(l.actual.value.health, l.sent.health, HEALTH_EPSILON))
  }

  lemma BoundIsHere(s: State, slack: nat, p: PlayerId)
    requires Inv(s, slack)
    ensures Here(s, p) <==> p in s.playerRoom
    ensures Here(s, p) ==> p in s.inRoom
  {
    if p in s.playerRoom {
      MembersSeen(s, s.playerRoom[p], slack);
    }
  }

  lemma {:induction false} OnTheWayMore(uplink: seq<Patch>, pending: seq<Packet>, more: seq<Patch>, p: Packet)
    requires OnTheWay(uplink, pending) && OnTheWay(more, [p])
    ensures OnTheWay(uplink + more, pending + [p])
    decreases |uplink|
  {
    if |uplink| == 0 {
      assert uplink + more == more && pending + [p] == [p];
    } else {
      assert (uplink + more)[1..] == uplink[1..] + more;
      if CarriesState(uplink[0]) {
        assert (pending + [p])[1..] == pending[1..] + [p];
        OnTheWayMore(uplink[1..], pending[1..], more, p);
      } else {
        OnTheWayMore(uplink[1..], pending, more, p);
      }
    }
  }

  lemma SentCarries(s: Sent, connected: bool, suspended: bool, nowMs: real, r: Reading)
    requires Check(s, connected, suspended, nowMs, Some(r)).patches != []
    ensures OnTheWay(Check(s, connected, suspended, nowMs, Some(r)).patches, [r.gameplay])
  {
    var patches := Check(s, connected, suspended, nowMs, Some(r)).patches;
    assert patches[1..] == [] || patches[1..] == [AnimPatch(r)];
    assert [r.gameplay][1..] == [] && [AnimPatch(r)][1..] == [];
  }

  lemma ChecksFlight(l: Link, p: PlayerId, le: LinkEvent)
    requires InFlightOk(l, p) && le.Checks? && Here(l.server, p)
    ensures InFlightOk(LinkStep(l, p, le), p)
  {
    var o := Check(l.sent, le.connected, l.suspended, le.nowMs, le.reading);
    var e := EntryOf(l.server, p);
    MergePatchesConcat(e, l.uplink, o.patches);
    CheckedIsMerged(MergePatches(e, l.uplink), l.sent, le.connected, l.suspended, le.nowMs, le.reading);
    if o.patches == [] {
      assert l.uplink + o.patches == l.uplink;
    } else {
      var gameplay := le.reading.value.gameplay;
      SentCarries(l.sent, le.connected, l.suspended, le.nowMs, le.reading.value);
      OnTheWayMore(l.uplink, l.packets[l.arrived..], o.patches, gameplay);
      var packets := l.packets + [gameplay];
      assert packets[l.arrived..] == l.packets[l.arrived..] + [gameplay]
             && packets[..l.arrived] == l.packets[..l.arrived];
    }
  }

  lemma AsOfMore(g: Gameplay, packets: seq<Packet>, p: Packet)
    requires AsOf(g, packets)
    ensures AsOf(g, packets + [p])
  {
    var k :| 0 <= k <= |packets| && g == MergeAll(NO_GAMEPLAY, packets[..k]);
    assert (packets + [p])[..k] == packets[..k];
  }

  lemma ChecksOk(l: Link, p: PlayerId, le: LinkEvent, slack: nat)
    requires LinkOk(l, p, slack) && le.Checks? && LinkEnabled(l, p, le, slack)
    ensures LinkOk(LinkStep(l, p, le), p, slack)
  {
    var o := Check(l.sent, le.connected, l.suspended, le.nowMs, le.reading);
    if Here(l.server, p) {
      ChecksFlight(l, p, le);
      if LastOf(l.server, p).Some? && o.patches != [] {
        AsOfMore(LastOf(l.server, p).value.gameplay, l.packets, le.reading.value.gameplay);
      }
    }
    ChecksSender(l, p, le);
  }

  lemma ChecksSender(l: Link, p: PlayerId, le: LinkEvent)
    requires SenderOk(l) && le.Checks?
    ensures SenderOk(LinkStep(l, p, le))
  {
    if Open(l.sent, le.connected, l.suspended, le.nowMs) && le.reading.Some? {
      CheckedIsClose(l.sent, le.connected, l.suspended, le.nowMs, le.reading.value);
    }
  }

  lemma ArrivalMerges(s: State, p: PlayerId, patch: Patch)
    requires Here(s, p) && s.playerRoom[p] != NO_CODE
    ensures var t := Step(s, Update(p, [Entry(p, patch)]));
            Here(t, p) && EntryOf(t, p) == Merge(EntryOf(s, p), patch) && LastOf(t, p) == LastOf(s, p)
  {
    assert [Entry(p, patch)][1..] == [];
    var r := s.rooms[s.playerRoom[p]];
    assert UpdateAll(r, p, [Entry(p, patch)]) == UpdateAll(UpdatePlayer(r, p, patch), p, [Entry(p, patch)][1..]);
  }

  /** Merging the front of the uplink: one packet more has arrived, or the gameplay is untouched. */
  lemma FrontArrives(entry: PlayerState, patch: Patch, packets: seq<Packet>, arrived: nat)
    requires arrived <= |packets| && entry.gameplay == MergeAll(NO_GAMEPLAY, packets[..arrived])
    requires if CarriesState(patch) then arrived < |packets| && patch.gameplay == Emit(packets[arrived])
             else patch.gameplay == NO_GAMEPLAY
    ensures Merge(entry, patch).gameplay ==
            MergeAll(NO_GAMEPLAY, packets[..if CarriesState(patch) then arrived + 1 else arrived])
  {
    if CarriesState(patch) {
      assert packets[..arrived + 1] == packets[..arrived] + [packets[arrived]];
      MergeAllMore(NO_GAMEPLAY, packets[..arrived], packets[arrived]);
    } else {
      OtherUpdatesKeepGameplay(entry, patch);
    }
  }

  lemma ArrivesFlight(l: Link, p: PlayerId)
    requires l.uplink != [] && InFlightOk(l, p) && Here(l.server, p) && l.server.playerRoom[p] != NO_CODE
    ensures InFlightOk(LinkStep(l, p, Arrives), p)
    ensures var t := LinkStep(l, p, Arrives).server; Here(t, p) && LastOf(t, p) == LastOf(l.server, p)
  {
    ArrivalMerges(l.server, p, l.uplink[0]);
    FrontArrives(EntryOf(l.server, p), l.uplink[0], l.packets, l.arrived);
    assert l.packets[l.arrived..] != [] ==> l.packets[l.arrived..][1..] == l.packets[l.arrived + 1..];
  }

  lemma ArrivesSender(l: Link, p: PlayerId)
    requires SenderOk(l) && l.uplink != []
    ensures SenderOk(LinkStep(l, p, Arrives)) && LinkStep(l, p, Arrives).server.inRoom == l.server.inRoom
  {}

  lemma ArrivesInv(l: Link, p: PlayerId, slack: nat)
    requires Inv(l.server, slack) && l.uplink != []
    ensures Inv(LinkStep(l, p, Arrives).server, slack)
  {
    UpdateStep(l.server, p, [Entry(p, l.uplink[0])], slack);
  }

  lemma ArrivesAsSent(l: Link, p: PlayerId, slack: nat)
    requires Inv(l.server, slack) && l.uplink != [] && InFlightOk(l, p) && SnapshotOk(l, p)
    ensures InFlightOk(LinkStep(l, p, Arrives), p) && SnapshotOk(LinkStep(l, p, Arrives), p)
  {
    BoundIsHere(l.server, slack, p);
    if Here(l.server, p) {
      ArrivesHere(l, p);
    }
  }

  lemma ArrivesHere(l: Link, p: PlayerId)
    requires l.uplink != [] && InFlightOk(l, p) && SnapshotOk(l, p) && Here(l.server, p)
             && l.server.playerRoom[p] != NO_CODE
    ensures InFlightOk(LinkStep(l, p, Arrives), p) && SnapshotOk(LinkStep(l, p, Arrives), p)
  {
    ArrivesFlight(l, p);
    assert LastOf(LinkStep(l, p, Arrives).server, p) == LastOf(l.server, p);
  }

  lemma ArrivesOk(l: Link, p: PlayerId, slack: nat)
    requires LinkOk(l, p, slack)
    ensures LinkOk(LinkStep(l, p, Arrives), p, slack)
  {
    if l.uplink != [] {
      ArrivesInv(l, p, slack);
      ArrivesAsSent(l, p, slack);
      ArrivesSender(l, p);
    }
  }

  lemma StayingFlight(l: Link, p: PlayerId, ev: Event)
    requires InFlightOk(l, p) && SnapshotOk(l, p)
    requires Here(l.server, p) && Here(Step(l.server, ev), p) && p in l.server.inRoom
    requires ev.JoinRequest? && ev.request.Create? ==> ev.request.newCode !in l.server.rooms
    requires ev.Update? && ev.id == p ==> Harmless(p, ev.entries)
    ensures InFlightOk(LinkStep(l, p, Elsewhere(ev)), p) && SnapshotOk(LinkStep(l, p, Elsewhere(ev)), p)
  {
    var s, t := l.server, Step(l.server, ev);
    VitalsKept(s, ev, p);
    LastKept(s, ev, p);
    PatchesOnVitals(EntryOf(t, p), EntryOf(s, p), l.uplink);
    assert AsOf(EntryOf(s, p).gameplay, l.packets);
  }

  lemma ElsewhereFlight(l: Link, p: PlayerId, ev: Event, slack: nat)
    requires LinkOk(l, p, slack) && LinkEnabled(l, p, Elsewhere(ev), slack) && Inv(Step(l.server, ev), slack)
    ensures InFlightOk(LinkStep(l, p, Elsewhere(ev)), p) && SnapshotOk(LinkStep(l, p, Elsewhere(ev)), p)
  {
    var s, t := l.server, Step(l.server, ev);
    BoundIsHere(s, slack, p);
    BoundIsHere(t, slack, p);
    if Here(t, p) {
      if Here(s, p) {
        StayingFlight(l, p, ev);
      } else {
        Arriving(l, p, ev, slack);
        ArrivingFlight(l, p, t);
      }
    }
  }

  lemma NoSnapshotYet(s: State, slack: nat, p: PlayerId, code: Code)
    requires Inv(s, slack) && p !in s.playerRoom && code in s.rooms
    ensures p !in s.rooms[code].last
  {
    assert p !in s.rooms[code].conns;
  }

  lemma ArrivingFlight(l: Link, p: PlayerId, t: State)
    requires Unsent(l) && l.packets == []
    requires Here(t, p) && LastOf(t, p).None? && EntryOf(t, p) == CreatePlayerState(p).(isHost := EntryOf(t, p).isHost)
    ensures InFlightOk(l.(server := t), p) && SnapshotOk(l.(server := t), p)
  {}

  lemma Arriving(l: Link, p: PlayerId, ev: Event, slack: nat)
    requires Inv(l.server, slack) && p !in l.server.playerRoom && Here(Step(l.server, ev), p)
    ensures var t := Step(l.server, ev);
            p !in l.server.inRoom && LastOf(t, p).None?
                && EntryOf(t, p) == CreatePlayerState(p).(isHost := EntryOf(t, p).isHost)
  {
    var t := Step(l.server, ev);
    OnlyJoinBinds(l.server, ev, p);
    if t.playerRoom[p] in l.server.rooms {
      NoSnapshotYet(l.server, slack, p, t.playerRoom[p]);
    }
  }

  lemma ElsewhereOk(l: Link, p: PlayerId, ev: Event, slack: nat)
    requires LinkOk(l, p, slack) && LinkEnabled(l, p, Elsewhere(ev), slack)
    ensures LinkOk(LinkStep(l, p, Elsewhere(ev)), p, slack)
  {
    StepOk(l.server, ev, slack);
    ElsewhereFlight(l, p, ev, slack);
    if p in l.server.inRoom {
      OnlyNewcomersBound(l.server, ev, p);
    }
  }

  lemma LinkStepOk(l: Link, p: PlayerId, le: LinkEvent, slack: nat)
    requires LinkOk(l, p, slack) && LinkEnabled(l, p, le, slack)
    ensures LinkOk(LinkStep(l, p, le), p, slack)
  {
    match le
    case Checks(_, _, _) => ChecksOk(l, p, le, slack);
    case Arrives => ArrivesOk(l, p, slack);
    case Elsewhere(ev) => ElsewhereOk(l, p, ev, slack);
    case Suspends(_) =>
  }

  // ---- runs ------------------------------------------------------------------------------------------------

  datatype LinkRun = LinkRun(states: seq<Link>, events: seq<LinkEvent>)

  ghost predicate LinkStepAt(run: LinkRun, p: PlayerId, slack: nat, i: nat)
    requires i < |run.events| < |run.states|
  {
    LinkEnabled(run.states[i], p, run.events[i], slack)
        && run.states[i + 1] == LinkStep(run.states[i], p, run.events[i])
  }

  /** The client of p starts before p joins a room; the server has been running for any time. */
  ghost predicate IsLinkRun(run: LinkRun, p: PlayerId, slack: nat) {
    && |run.states| == |run.events| + 1
    && run.states[0] == Link(run.states[0].server, NOTHING_SENT, false, [], [], 0, None)
    && Inv(run.states[0].server, slack) && p !in run.states[0].server.inRoom
    && forall i :: 0 <= i < |run.events| ==> LinkStepAt(run, p, slack, i)
  }

  lemma {:induction false} LinkReachable(run: LinkRun, p: PlayerId, slack: nat, i: nat)
    requires IsLinkRun(run, p, slack) && i < |run.states|
    ensures LinkOk(run.states[i], p, slack)
  {
    if i == 0 {
      BoundIsHere(run.states[0].server, slack, p);
    } else {
      LinkReachable(run, p, slack, i - 1);
      assert LinkStepAt(run, p, slack, i - 1);
      LinkStepOk(run.states[i - 1], p, run.events[i - 1], slack);
    }
  }

  lemma TwiceNear(a: Vec3, b: Vec3, c: Vec3)
    requires NearVec(a, b, MOVED_EPSILON) && NearVec(b, c, POS_EPSILON)
    ensures NearVec(a, c, 0.02)
  {}

  /** The snapshot a tick leaves, against the real values, when everything the sender sent has arrived. */
  ghost predicate CloseVitals(l: Link, snapshot: PlayerState)
    requires l.actual.Some?
  {
    && NearVec(l.actual.value.position, snapshot.position, 0.02)
    && (Near(l.actual.value.health, snapshot.health, HEALTH_EPSILON) <==> l.packets != [])
  }

  lemma SnapshotIsClose(l: Link, p: PlayerId, slack: nat)
    requires LinkOk(l, p, slack) && l.uplink == [] && l.actual.Some? && p in l.server.playerRoom
    ensures var code := l.server.playerRoom[p];
            && code in l.server.rooms
            && var last := Tick(l.server.rooms[code]).room.last;
               p in last && CloseVitals(l, last[p])
  {
    BoundIsHere(l.server, slack, p);
    var r := l.server.rooms[l.server.playerRoom[p]];
    TickIsFresh(r.players, r.last);
    TwiceNear(l.actual.value.position, l.sent.position, Snapshots(r.players, r.last)[p].position);
  }

  /**
   A tick of a run at which everything the sender p sent has arrived, and a receiver c, all of whose packets have
   arrived, which some tick has told of p.
   */
  ghost predicate Settled(run: LinkRun, p: PlayerId, i: nat, c: PlayerId)
    requires i < |run.events| < |run.states|
  {
    var s := run.states[i].server;
    && run.states[i].uplink == []
    && p in s.playerRoom && run.events[i] == Elsewhere(Ticks(s.playerRoom[p]))
    && c != p && c in s.playerRoom && s.playerRoom[c] == s.playerRoom[p] && c in s.net.open
    && c in run.states[i + 1].server.net.logs && Told(run.states[i + 1].server.net.logs[c], p)
  }

  /**
   The bound, once settled: the receiver targets a position within 0.02 on every axis of the one read at the last
   open check. It shows a health within 0.5 of that read exactly if the sender has ever sent anything.
   */
  lemma EndToEndBound(run: LinkRun, p: PlayerId, slack: nat, i: nat, c: PlayerId)
    requires IsLinkRun(run, p, slack) && i < |run.events| && Settled(run, p, i, c) && run.states[i].actual.Some?
    ensures var l, remotes := run.states[i], Replay(run.states[i + 1].server.net.logs[c]).remotes;
            && p in remotes
            && NearVec(l.actual.value.position, remotes[p].target, 0.02)
            && (Near(l.actual.value.health, remotes[p].health, 0.5) <==> l.packets != [])
  {
    TickInRun(run, p, slack, i, run.states[i].server.playerRoom[p]);
    LinkReachable(run, p, slack, i);
    SnapshotIsClose(run.states[i], p, slack);
    LinkReachable(run, p, slack, i + 1);
    ReceiverHasSnapshot(run.states[i + 1].server, slack, run.states[i].server.playerRoom[p], c, p);
  }

  // ---- gameplay over runs ------------------------------------------------------------------------------------

  /** The tick finds a change in a compared field of the player, or has no snapshot of it. */
  ghost predicate DueAtTick(s: State, p: PlayerId)
    requires Here(s, p)
  {
    Due(s.rooms[s.playerRoom[p]].players, s.rooms[s.playerRoom[p]].last, p)
  }

  /** Every block that the receiver reads out is that of the first `k` packets sent. */
  ghost predicate BlocksAsOf(g: Gameplay, packets: seq<Packet>, k: nat)
    requires k <= |packets|
  {
    forall kind: Kind, held: Packet :: BlockOf(Parse(g, held), kind) == Latest(packets[..k], kind)
  }

  /** ... or close to that of all of them: equal but for numbers within an epsilon and fields that are not compared. */
  ghost predicate BlocksClose(g: Gameplay, packets: seq<Packet>) {
    forall kind: Kind, held: Packet :: CloseBlock(BlockOf(Parse(g, held), kind), Latest(packets, kind), kind)
  }

  lemma MergedBlocks(packets: seq<Packet>, k: nat)
    requires k <= |packets|
    ensures BlocksAsOf(MergeAll(NO_GAMEPLAY, packets[..k]), packets, k)
  {
    forall kind: Kind, held: Packet
      ensures BlockOf(Parse(MergeAll(NO_GAMEPLAY, packets[..k]), held), kind) == Latest(packets[..k], kind)
    {
      PipelineRoundTrip(packets[..k], held, kind);
    }
  }

  lemma FreshBlocks(snapshot: Gameplay, packets: seq<Packet>)
    requires var live := MergeAll(NO_GAMEPLAY, packets);
             FreshTraversal(snapshot.traversal, live.traversal) && Compared(snapshot) == Compared(live)
    ensures BlocksClose(snapshot, packets)
  {
    forall kind: Kind, held: Packet
      ensures CloseBlock(BlockOf(Parse(snapshot, held), kind), Latest(packets, kind), kind)
    {
      PipelineRoundTrip(packets, held, kind);
      FreshBlock(snapshot, MergeAll(NO_GAMEPLAY, packets), kind, held);
    }
  }

  lemma RoomSnapshot(r: Room, p: PlayerId, packets: seq<Packet>) returns (k: nat)
    requires p in r.players && r.players[p].gameplay == MergeAll(NO_GAMEPLAY, packets)
    requires p in r.last ==> AsOf(r.last[p].gameplay, packets)
    ensures k <= |packets| && (Due(r.players, r.last, p) ==> k == |packets|)
    ensures p in Snapshots(r.players, r.last)
    ensures var snapshot := Snapshots(r.players, r.last)[p].gameplay;
            snapshot == MergeAll(NO_GAMEPLAY, packets[..k]) && BlocksClose(snapshot, packets)
  {
    TickIsFresh(r.players, r.last);
    FreshBlocks(Snapshots(r.players, r.last)[p].gameplay, packets);
    if Due(r.players, r.last, p) {
      k := |packets|;
      assert packets[..k] == packets;
    } else {
      k :| 0 <= k <= |packets| && r.last[p].gameplay == MergeAll(NO_GAMEPLAY, packets[..k]);
    }
  }

  lemma SnapshotGameplay(l: Link, p: PlayerId) returns (k: nat)
    requires Here(l.server, p) && InFlightOk(l, p) && SnapshotOk(l, p) && l.uplink == []
    ensures k <= |l.packets| && (DueAtTick(l.server, p) ==> k == |l.packets|)
    ensures var r := l.server.rooms[l.server.playerRoom[p]];
            var last := Snapshots(r.players, r.last);
            && p in last && last[p].gameplay == MergeAll(NO_GAMEPLAY, l.packets[..k])
            && BlocksClose(last[p].gameplay, l.packets)
            && (!DueAtTick(l.server, p) ==> LastOf(l.server, p) == Some(last[p]))
  {
    assert l.packets[l.arrived..] == [] && l.packets[..l.arrived] == l.packets;
    k := RoomSnapshot(l.server.rooms[l.server.playerRoom[p]], p, l.packets);
  }

  /**
   Gameplay, once settled: all blocks the receiver reads are those of one moment, after some number of the packets
   sent. Effects, status, equipment, death and interaction are the latest sent; traversal, skill and mount are up to
   the epsilons and to the skill's target and the mount's position and time. All of it is the latest sent exactly
   if the tick found a compared field changed, or the snapshot before had the latest already.
   */
  lemma GameplayAtReceiver(run: LinkRun, p: PlayerId, slack: nat, i: nat, c: PlayerId)
    requires IsLinkRun(run, p, slack) && i < |run.events| && Settled(run, p, i, c)
    ensures var l, remotes := run.states[i], Replay(run.states[i + 1].server.net.logs[c]).remotes;
            && p in remotes && Here(l.server, p)
            && BlocksClose(remotes[p].gameplay, l.packets)
            && (exists k :: 0 <= k <= |l.packets| && BlocksAsOf(remotes[p].gameplay, l.packets, k))
            && (BlocksAsOf(remotes[p].gameplay, l.packets, |l.packets|) <==>
                  || DueAtTick(l.server, p)
                  || (LastOf(l.server, p).Some?
                      && BlocksAsOf(LastOf(l.server, p).value.gameplay, l.packets, |l.packets|)))
  {
    var l, t := run.states[i], run.states[i + 1].server;
    TickInRun(run, p, slack, i, l.server.playerRoom[p]);
    LinkReachable(run, p, slack, i);
    BoundIsHere(l.server, slack, p);
    var k := SnapshotGameplay(l, p);
    LinkReachable(run, p, slack, i + 1);
    ReceiverHasSnapshot(t, slack, l.server.playerRoom[p], c, p);
    MergedBlocks(l.packets, k);
  }

  /** A tick of a run: the room's snapshots and the channels change, no index does. */
  lemma TickInRun(run: LinkRun, p: PlayerId, slack: nat, i: nat, code: Code)
    requires IsLinkRun(run, p, slack) && i < |run.events| && run.events[i] == Elsewhere(Ticks(code))
    ensures var s, t := run.states[i].server, run.states[i + 1].server;
            && t.playerRoom == s.playerRoom && t.net.open == s.net.open
            && code in s.rooms && code in t.rooms && t.rooms[code] == Tick(s.rooms[code]).room
  {
    assert LinkStepAt(run, p, slack, i);
  }

  lemma ReceiverHasSnapshot(t: State, slack: nat, code: Code, c: PlayerId, p: PlayerId)
    requires Inv(t, slack) && c != p && c in t.playerRoom && p in t.playerRoom
             && t.playerRoom[c] == t.playerRoom[p] == code
    requires c in t.net.open && c in t.net.logs && Told(t.net.logs[c], p)
    ensures code in t.rooms && p in t.rooms[code].last && p in Replay(t.net.logs[c]).remotes
    ensures SameData(Replay(t.net.logs[c]).remotes[p], t.rooms[code].last[p])
  {
    assert c in t.rooms[code].conns && p in t.rooms[code].conns;
    MemberView(t, slack, code, c);
  }

  /** Whoever was there before the player is told of it by the first tick at the latest. */
  lemma SeniorsAreTold(run: LinkRun, p: PlayerId, slack: nat, i: nat, c: PlayerId)
    requires IsLinkRun(run, p, slack) && i < |run.events|
    requires var s := run.states[i].server;
             && p in s.playerRoom && run.events[i] == Elsewhere(Ticks(s.playerRoom[p]))
             && s.playerRoom[p] in s.rooms && Before(s.rooms[s.playerRoom[p]].conns, c, p) && c in s.net.open
    ensures c in run.states[i + 1].server.net.logs && Told(run.states[i + 1].server.net.logs[c], p)
  {
    var code := run.states[i].server.playerRoom[p];
    TickInRun(run, p, slack, i, code);
    TickedInRun(run, p, slack, i, code);
    LinkReachable(run, p, slack, i + 1);
    SeniorIsTold(run.states[i + 1].server, slack, code, c, p);
  }

  lemma TickedInRun(run: LinkRun, p: PlayerId, slack: nat, i: nat, code: Code)
    requires IsLinkRun(run, p, slack) && i < |run.states| && code in run.states[i].server.rooms
    requires p in run.states[i].server.playerRoom && run.states[i].server.playerRoom[p] == code
    ensures p in Tick(run.states[i].server.rooms[code]).room.last
  {
    LinkReachable(run, p, slack, i);
    TickSnapshots(run.states[i].server, slack, code, p);
  }

  lemma TickSnapshots(s: State, slack: nat, code: Code, p: PlayerId)
    requires Inv(s, slack) && p in s.playerRoom && s.playerRoom[p] == code && code in s.rooms
    ensures p in Tick(s.rooms[code]).room.last
  {
    BoundIsHere(s, slack, p);
    TickIsFresh(s.rooms[code].players, s.rooms[code].last);
  }

  lemma SeniorIsTold(t: State, slack: nat, code: Code, c: PlayerId, p: PlayerId)
    requires Inv(t, slack) && code in t.rooms && Before(t.rooms[code].conns, c, p) && c in t.net.open
             && p in t.rooms[code].last
    ensures c in t.net.logs && Told(t.net.logs[c], p)
  {}

  // ---- when nothing is sent ----------------------------------------------------------------------------------

  /** An open check reads something that a client which has sent nothing yet takes for news. */
  ghost predicate ReadsNews(l: Link, le: LinkEvent) {
    le.Checks? && Open(l.sent, le.connected, l.suspended, le.nowMs) && le.reading.Some?
        && !LooksUnsent(le.reading.value)
  }

  /** Nothing has been sent exactly as long as no open check has read news. */
  lemma {:induction false} NothingSentIff(run: LinkRun, p: PlayerId, slack: nat, i: nat)
    requires IsLinkRun(run, p, slack) && i < |run.states|
    ensures run.states[i].packets == [] <==> forall j :: 0 <= j < i ==> !ReadsNews(run.states[j], run.events[j])
    ensures run.states[i].packets == []
            ==> run.states[i].sent == NOTHING_SENT.(checkedMs := run.states[i].sent.checkedMs)
  {
    if i > 0 {
      NothingSentIff(run, p, slack, i - 1);
      assert LinkStepAt(run, p, slack, i - 1);
      var l, le := run.states[i - 1], run.events[i - 1];
      if l.packets == [] && le.Checks? && le.reading.Some? {
        FirstSend(l.sent, le.connected, l.suspended, le.nowMs, le.reading.value);
      }
    }
  }

  lemma CheckedLater(l: Link, p: PlayerId, le: LinkEvent)
    ensures LinkStep(l, p, le).sent.checkedMs >= l.sent.checkedMs
    ensures LinkStep(l, p, le).packets != l.packets ==>
              le.Checks? && le.nowMs >= l.sent.checkedMs + 50.0 && LinkStep(l, p, le).sent.checkedMs == le.nowMs
  {}

  lemma {:induction false} CheckedSince(run: LinkRun, p: PlayerId, slack: nat, i: nat, j: nat)
    requires IsLinkRun(run, p, slack) && i <= j < |run.states|
    ensures run.states[j].sent.checkedMs >= run.states[i].sent.checkedMs
    decreases j
  {
    if i < j {
      CheckedSince(run, p, slack, i, j - 1);
      assert LinkStepAt(run, p, slack, j - 1);
      CheckedLater(run.states[j - 1], p, run.events[j - 1]);
    }
  }

  /** Two state updates of a run are at least 50 milliseconds apart, whatever the clock did between. */
  lemma SendsAreSpaced(run: LinkRun, p: PlayerId, slack: nat, i: nat, j: nat)
    requires IsLinkRun(run, p, slack) && i < j < |run.events|
    requires run.states[i + 1].packets != run.states[i].packets && run.states[j + 1].packets != run.states[j].packets
    ensures run.events[i].Checks? && run.events[j].Checks? && run.events[j].nowMs >= run.events[i].nowMs + 50.0
  {
    assert LinkStepAt(run, p, slack, i) && LinkStepAt(run, p, slack, j);
    CheckedLater(run.states[i], p, run.events[i]);
    CheckedLater(run.states[j], p, run.events[j]);
    CheckedSince(run, p, slack, i + 1, j);
  }

  lemma SuspendedStep(l: Link, p: PlayerId, le: LinkEvent)
    requires l.suspended
    ensures var m := LinkStep(l, p, le);
            && m.packets == l.packets && m.sent == l.sent && m.actual == l.actual
            && (m.uplink == l.uplink || (|l.uplink| > 0 && m.uplink == l.uplink[1..]))
  {}

  /** Between i and j the client is suspended: it remembers what it had sent, and the uplink only runs empty. */
  lemma {:induction false} SuspendedIsSilent(run: LinkRun, p: PlayerId, slack: nat, i: nat, j: nat)
    requires IsLinkRun(run, p, slack) && i <= j < |run.states|
    requires forall k :: i <= k < j ==> run.states[k].suspended
    ensures var l, m := run.states[i], run.states[j];
            && m.packets == l.packets && m.sent == l.sent && m.actual == l.actual
            && exists n :: 0 <= n <= |l.uplink| && m.uplink == l.uplink[n..]
    decreases j
  {
    if i == j {
      assert run.states[i].uplink == run.states[i].uplink[0..];
    } else {
      SuspendedIsSilent(run, p, slack, i, j - 1);
      assert LinkStepAt(run, p, slack, j - 1);
      SuspendedStep(run.states[j - 1], p, run.events[j - 1]);
      var was, l, m := run.states[i].uplink, run.states[j - 1].uplink, run.states[j].uplink;
      var n :| 0 <= n <= |was| && l == was[n..];
      assert m == l || (n < |was| && m == was[n + 1..]);
    }
  }

  /** A player whose updates have all arrived stands still for everyone for as long as a cutscene suspends it. */
  lemma FrozenWhileSuspended(run: LinkRun, p: PlayerId, slack: nat, i: nat, j: nat)
    requires IsLinkRun(run, p, slack) && i <= j < |run.states|
    requires forall k :: i <= k < j ==> run.states[k].suspended
    requires run.states[i].uplink == [] && Here(run.states[i].server, p) && Here(run.states[j].server, p)
    ensures SameVitals(EntryOf(run.states[i].server, p), EntryOf(run.states[j].server, p))
  {
    SuspendedIsSilent(run, p, slack, i, j);
    InFlightInRun(run, p, slack, i);
    InFlightInRun(run, p, slack, j);
    DrainedVitals(run.states[i], p);
    DrainedVitals(run.states[j], p);
  }

  lemma InFlightInRun(run: LinkRun, p: PlayerId, slack: nat, i: nat)
    requires IsLinkRun(run, p, slack) && i < |run.states|
    ensures InFlightOk(run.states[i], p)
  {
    LinkReachable(run, p, slack, i);
  }

  lemma DrainedVitals(l: Link, p: PlayerId)
    requires Here(l.server, p) && InFlightOk(l, p) && l.uplink == []
    ensures var e := EntryOf(l.server, p);
            && e.position == l.sent.position && e.health == (if l.packets == [] then 100.0 else l.sent.health)
            && e.gameplay == MergeAll(NO_GAMEPLAY, l.packets)
  {
    assert l.packets[l.arrived..] == [] && l.packets[..l.arrived] == l.packets;
  }

  // ---- where the conditions are needed -----------------------------------------------------------------------

  /**
   A late joiner: a player is away when someone joins and back before the next tick. The tick has nothing to
   say, and the joiner keeps the player as far away as it was.
   */
  lemma LateJoinerKeepsOldPosition(r: Room, p: PlayerId, away: Vec3, c: PlayerId, log: seq<Msg>)
    requires KeysOk(r) && p in r.conns && p in r.last && c !in r.conns && LobbyLog(log, c)
    requires r.players[p] == r.last[p]
    ensures var left := UpdatePlayer(r, p, NO_CHANGE.(position := Some(away)));
            var back := UpdatePlayer(AddPlayer(left, c).room, p, NO_CHANGE.(position := Some(r.players[p].position)));
            var log' := log + Welcome(left, c);
            && !Told(log', p) && p in Replay(log').remotes && Replay(log').remotes[p].target == away
            && p in back.players && back.players[p] == r.players[p]
            && (forall i :: 0 <= i < |Tick(back).msgs| ==>
                  Tick(back).msgs[i].StateUpdate? && !Mentions(Tick(back).msgs[i].players, p))
  {
    var left := UpdatePlayer(r, p, NO_CHANGE.(position := Some(away)));
    JoinerTargets(left, p, c, log);
    AwayAndBack(r, p, away, c);
    UnchangedIsFresh(r.last[p], r.players[p]);
    var back := NO_CHANGE.(position := Some(r.players[p].position));
    NotDueNotMentioned(UpdatePlayer(AddPlayer(left, c).room, p, back), p);
  }

  /**
   An update of fields that are not compared is kept back by every tick, until something else makes the player
   due.
   */
  lemma KeptBack(r: Room, p: PlayerId, g: Gameplay)
    requires KeysOk(r) && p in r.players && p in r.last && r.players[p] == r.last[p]
    requires g.traversal.None? && Compared(g) == NO_GAMEPLAY
    ensures var after := UpdatePlayer(r, p, NO_CHANGE.(gameplay := g));
            && p in after.players && after.players[p].gameplay == MergeGameplay(r.players[p].gameplay, g)
            && !Due(after.players, after.last, p)
            && (forall i :: 0 <= i < |Tick(after).msgs| ==>
                  Tick(after).msgs[i].StateUpdate? && !Mentions(Tick(after).msgs[i].players, p))
  {
    var after := UpdatePlayer(r, p, NO_CHANGE.(gameplay := g));
    var was := r.players[p];
    var merged := MergeGameplay(was.gameplay, g);
    NeverBroadcastAlone(was, was.ping, was.isHost, was.inCutscene, was.anim.blendWeight, merged);
    assert after.players[p] == was.(gameplay := merged);
    NotDueNotMentioned(after, p);
  }

  lemma AwayAndBack(r: Room, p: PlayerId, away: Vec3, c: PlayerId)
    requires WellKeyed(r.players) && p in r.players && c != p
    ensures var left := UpdatePlayer(r, p, NO_CHANGE.(position := Some(away)));
            var back := UpdatePlayer(AddPlayer(left, c).room, p, NO_CHANGE.(position := Some(r.players[p].position)));
            && p in left.players && left.players[p].position == away
            && p in back.players && back.players[p] == r.players[p] && back.last == r.last && WellKeyed(back.players)
  {}

  lemma JoinerTargets(left: Room, p: PlayerId, c: PlayerId, log: seq<Msg>)
    requires KeysOk(left) && p in left.conns && c !in left.conns && LobbyLog(log, c)
    ensures var log' := log + Welcome(left, c);
            !Told(log', p) && p in Replay(log').remotes && Replay(log').remotes[p].target == left.players[p].position
  {
    LobbyReplay(log, c);
    NothingTold(log, Welcome(left, c));
    ReplayMore(log, Welcome(left, c));
    AckMirror(left, c, Replay(log));
  }

  lemma NotDueNotMentioned(r: Room, p: PlayerId)
    requires WellKeyed(r.players) && p in r.players && p in r.last && !Due(r.players, r.last, p)
    ensures forall i :: 0 <= i < |Tick(r).msgs| ==>
              Tick(r).msgs[i].StateUpdate? && !Mentions(Tick(r).msgs[i].players, p)
  {
    ChangedLists(r.conns, r.players, r.last);
  }
}
