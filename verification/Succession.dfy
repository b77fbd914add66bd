/**
 Who has left does not come back, and the members of a room keep their order: hosts succeed in the order they
 joined.
 */
module Succession {
  import opened Keys
  import opened Protocol
  import opened Server
  import opened ServerInvariant
  import opened Runs

  /** The player has been in a room and is not a member of this one. */
  ghost predicate Past(s: State, code: Code, x: PlayerId) {
    x in s.inRoom && !(code in s.rooms && x in s.rooms[code].conns)
  }

  /** A step binds nobody that was in a room before. */
  ghost predicate Rebinds(s: State, t: State, x: PlayerId) {
    x in t.playerRoom && (x !in s.playerRoom || s.playerRoom[x] != t.playerRoom[x])
  }

  lemma OnlyNewcomersBound(s: State, ev: Event, x: PlayerId)
    requires x in s.inRoom
    ensures !Rebinds(s, Step(s, ev), x) && x in Step(s, ev).inRoom
  {}

  lemma StaysPast(s: State, ev: Event, slack: nat, code: Code, x: PlayerId)
    requires Inv(s, slack) && Enabled(s, ev, slack) && Past(s, code, x)
    ensures Past(Step(s, ev), code, x)
  {
    StepOk(s, ev, slack);
    OnlyNewcomersBound(s, ev, x);
    MemberIsBound(Step(s, ev), code, x);
    MemberIsBound(s, code, x);
  }

  lemma MemberIsBound(s: State, code: Code, x: PlayerId)
    requires IndexOk(s.rooms, s.playerRoom)
    ensures code in s.rooms && x in s.rooms[code].conns <==> x in s.playerRoom && s.playerRoom[x] == code
  {}

  /** Once gone, gone for good. */
  lemma {:induction false} NeverReturns(run: Run, slack: nat, i: nat, j: nat, code: Code, x: PlayerId)
    requires IsRun(run, slack) && i <= j < |run.states| && Past(run.states[i], code, x)
    ensures Past(run.states[j], code, x)
    decreases j - i
  {
    if i < j {
      ReachableOk(run, slack, i);
      assert StepAt(run, i, slack);
      StaysPast(run.states[i], run.events[i], slack, code, x);
      NeverReturns(run, slack, i + 1, j, code, x);
    }
  }

  lemma MemberWasInRoom(run: Run, slack: nat, i: nat, code: Code, x: PlayerId)
    requires IsRun(run, slack) && i < |run.states|
    requires code in run.states[i].rooms && x in run.states[i].rooms[code].conns
    ensures x in run.states[i].inRoom
  {
    ReachableOk(run, slack, i);
    MembersSeen(run.states[i], code, slack);
  }

  lemma {:induction false} InRoomForGood(run: Run, slack: nat, i: nat, j: nat, x: PlayerId)
    requires IsRun(run, slack) && i <= j < |run.states| && x in run.states[i].inRoom
    ensures x in run.states[j].inRoom
    decreases j - i
  {
    if i < j {
      assert StepAt(run, i, slack);
      OnlyNewcomersBound(run.states[i], run.events[i], x);
      InRoomForGood(run, slack, i + 1, j, x);
    }
  }

  /** A member at two moments was a member at every moment between. */
  lemma MemberThroughout(run: Run, slack: nat, i: nat, k: nat, j: nat, code: Code, x: PlayerId)
    requires IsRun(run, slack) && i <= k <= j < |run.states|
    requires code in run.states[i].rooms && x in run.states[i].rooms[code].conns
    requires code in run.states[j].rooms && x in run.states[j].rooms[code].conns
    ensures code in run.states[k].rooms && x in run.states[k].rooms[code].conns
  {
    MemberWasInRoom(run, slack, i, code, x);
    InRoomForGood(run, slack, i, k, x);
    if Past(run.states[k], code, x) {
      NeverReturns(run, slack, k, j, code, x);
    }
  }

  // ---- order -----------------------------------------------------------------------------------------------

  ghost predicate Before(s: seq<PlayerId>, x: PlayerId, y: PlayerId) {
    x in s && y in s && IndexOf(s, x) < IndexOf(s, y)
  }

  lemma AppendKeepsOrder(s: seq<PlayerId>, id: PlayerId, x: PlayerId, y: PlayerId)
    requires Distinct(s) && Before(s, x, y) && id !in s
    ensures Before(s + [id], x, y)
  {}

  lemma WithoutKeepsOrder(s: seq<PlayerId>, id: PlayerId, x: PlayerId, y: PlayerId)
    requires Distinct(s) && Before(s, x, y) && id != x && id != y
    ensures Before(Without(s, id), x, y)
  {
    if id in s {
      WithoutIndex(s, id, x);
      WithoutIndex(s, id, y);
    }
  }

  /** At most one member goes or comes. */
  ghost predicate AtMostOne(inRoom: set<PlayerId>, a: seq<PlayerId>, b: seq<PlayerId>) {
    || b == a
    || (exists id :: id in a && b == Without(a, id))
    || (exists id :: id !in inRoom && b == a + [id])
  }

  lemma ConnsAfterJoin(s: State, id: PlayerId, request: Request, code: Code)
    requires code in s.rooms && (forall c :: c in s.rooms[code].conns ==> c in s.inRoom)
             && (request.Create? ==> request.newCode != code)
    ensures code in OnJoinRequest(s, id, request).rooms
    ensures AtMostOne(s.inRoom, s.rooms[code].conns, OnJoinRequest(s, id, request).rooms[code].conns)
  {}

  lemma ConnsAfterLeaving(s: State, id: PlayerId, code: Code)
    requires code in s.rooms && code in RemoveMember(s, id).rooms
    ensures AtMostOne(s.inRoom, s.rooms[code].conns, RemoveMember(s, id).rooms[code].conns)
  {}

  lemma ConnsAfter(s: State, ev: Event, code: Code)
    requires code in s.rooms && code in Step(s, ev).rooms
    requires (forall c :: c in s.rooms[code].conns ==> c in s.inRoom)
    requires ev.JoinRequest? && ev.request.Create? ==> ev.request.newCode != code
    ensures AtMostOne(s.inRoom, s.rooms[code].conns, Step(s, ev).rooms[code].conns)
  {
    match ev
    case Update(id, entries) => if HasRoom(s, id) { OnlyOwnState(s.rooms[s.playerRoom[id]], id, entries); }
    case JoinRequest(id, request) => ConnsAfterJoin(s, id, request, code);
    case Close(id) => ConnsAfterLeaving(Hangup(s, id), id, code);
    case Kick(id) => if HasRoom(s, id) { ConnsAfterLeaving(Hangup(Announce(s, id), id), id, code); }
    case _ =>
  }

  lemma EventKeepsOrder(s: State, ev: Event, code: Code, x: PlayerId, y: PlayerId)
    requires code in s.rooms && code in Step(s, ev).rooms && Distinct(s.rooms[code].conns)
    requires (forall c :: c in s.rooms[code].conns ==> c in s.inRoom)
    requires ev.JoinRequest? && ev.request.Create? ==> ev.request.newCode != code
    requires Before(s.rooms[code].conns, x, y)
    requires x in Step(s, ev).rooms[code].conns && y in Step(s, ev).rooms[code].conns
    ensures Before(Step(s, ev).rooms[code].conns, x, y)
  {
    ConnsAfter(s, ev, code);
    KeepsOrder(s.inRoom, s.rooms[code].conns, Step(s, ev).rooms[code].conns, x, y);
  }

  lemma KeepsOrder(inRoom: set<PlayerId>, a: seq<PlayerId>, b: seq<PlayerId>, x: PlayerId, y: PlayerId)
    requires AtMostOne(inRoom, a, b) && Distinct(a) && Before(a, x, y) && x in b && y in b
    requires forall c :: c in a ==> c in inRoom
    ensures Before(b, x, y)
  {
    if b == a {
    } else if id :| id in a && b == Without(a, id) {
      WithoutKeys(a, id);
      WithoutKeepsOrder(a, id, x, y);
    } else {
      var id :| id !in inRoom && b == a + [id];
      AppendKeepsOrder(a, id, x, y);
    }
  }

  lemma StepKeepsOrder(s: State, ev: Event, slack: nat, code: Code, x: PlayerId, y: PlayerId)
    requires Inv(s, slack) && Enabled(s, ev, slack) && code in s.rooms && code in Step(s, ev).rooms
    requires Before(s.rooms[code].conns, x, y)
    requires x in Step(s, ev).rooms[code].conns && y in Step(s, ev).rooms[code].conns
    ensures Before(Step(s, ev).rooms[code].conns, x, y)
  {
    MembersSeen(s, code, slack);
    EventKeepsOrder(s, ev, code, x, y);
  }

  lemma OrderKeptAt(run: Run, slack: nat, i: nat, code: Code, x: PlayerId, y: PlayerId)
    requires IsRun(run, slack) && i < |run.events|
    requires code in run.states[i].rooms && Before(run.states[i].rooms[code].conns, x, y)
    requires code in run.states[i + 1].rooms && x in run.states[i + 1].rooms[code].conns
             && y in run.states[i + 1].rooms[code].conns
    ensures Before(run.states[i + 1].rooms[code].conns, x, y)
  {
    ReachableOk(run, slack, i);
    assert StepAt(run, i, slack);
    StepKeepsOrder(run.states[i], run.events[i], slack, code, x, y);
  }

  /** Members keep their order as long as they stay, whoever else comes and goes. */
  lemma {:induction false} OrderKept(run: Run, slack: nat, i: nat, j: nat, code: Code, x: PlayerId, y: PlayerId)
    requires IsRun(run, slack) && i <= j < |run.states|
    requires code in run.states[i].rooms && Before(run.states[i].rooms[code].conns, x, y)
    requires code in run.states[j].rooms && x in run.states[j].rooms[code].conns && y in run.states[j].rooms[code].conns
    ensures Before(run.states[j].rooms[code].conns, x, y)
    decreases j - i
  {
    if i < j {
      MemberThroughout(run, slack, i, i + 1, j, code, x);
      MemberThroughout(run, slack, i, i + 1, j, code, y);
      OrderKeptAt(run, slack, i, code, x, y);
      OrderKept(run, slack, i + 1, j, code, x, y);
    }
  }

  /** Hosts succeed in the order they joined: whoever is host, everyone that was ahead of it has left for good. */
  lemma SeniorsHaveLeft(run: Run, slack: nat, i: nat, j: nat, code: Code, x: PlayerId, y: PlayerId)
    requires IsRun(run, slack) && i <= j < |run.states|
    requires code in run.states[i].rooms && Before(run.states[i].rooms[code].conns, x, y)
    requires code in run.states[j].rooms && run.states[j].rooms[code].hostId == y
             && y in run.states[j].rooms[code].conns
    ensures x !in run.states[j].rooms[code].conns
    ensures forall k :: j <= k < |run.states| && code in run.states[k].rooms ==> x !in run.states[k].rooms[code].conns
  {
    HostIsEldest(run, slack, j, code, y);
    if x in run.states[j].rooms[code].conns {
      OrderKept(run, slack, i, j, code, x, y);
    }
    MemberWasInRoom(run, slack, i, code, x);
    InRoomForGood(run, slack, i, j, x);
    forall k | j <= k < |run.states| && code in run.states[k].rooms ensures x !in run.states[k].rooms[code].conns {
      NeverReturns(run, slack, j, k, code, x);
    }
  }
}
