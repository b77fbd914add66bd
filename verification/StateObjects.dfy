/**
 The state of a room as objects that change in place: server/src/state.ts. What its methods do to the objects is
 what the functions of `Delta` and `Rooms` do to values; snapshots are never the live objects.
 */
module StateObjects {
  import opened Keys
  import opened Protocol
  import opened Delta
  import Rooms

  class PlayerRecord {
    ghost const owner: ServerState
    const id: PlayerId
    var position: Vec3
    var rotation: Rotation
    var velocity: Vec3
    var health: real
    var maxHealth: real
    var anim: Anim
    var isHost: bool
    var ping: int
    var inCutscene: bool
    var gameplay: Gameplay

    function View(): PlayerState
      reads this
    {
      PlayerState(id, position, rotation, velocity, health, maxHealth, anim, isHost, ping, inCutscene, gameplay)
    }

    constructor (p: PlayerState, ghost owner: ServerState)
      ensures View() == p && this.owner == owner
    {
      this.owner := owner;
      id, position, rotation, velocity, health, maxHealth := p.id, p.position, p.rotation, p.velocity, p.health,
          p.maxHealth;
      anim, isHost, ping, inCutscene, gameplay := p.anim, p.isHost, p.ping, p.inCutscene, p.gameplay;
    }

    /** The fields the patch carries are overwritten, one after the other. */
    method Apply(patch: Patch)
      modifies this
      ensures View() == Merge(old(View()), patch)
    {
      position := OrElse(patch.position, position);
      rotation := OrElse(patch.rotation, rotation);
      velocity := OrElse(patch.velocity, velocity);
      health := OrElse(patch.health, health);
      maxHealth := OrElse(patch.maxHealth, maxHealth);
      anim := OrElse(patch.anim, anim);
      ping := OrElse(patch.ping, ping);
      gameplay := MergeGameplay(gameplay, patch.gameplay);
    }
  }

  /** `clonePlayer`: a new object with the same contents. */
  method Clone(p: PlayerRecord) returns (c: PlayerRecord)
    ensures fresh(c) && c.View() == p.View() && c.owner == p.owner
  {
    c := new PlayerRecord(p.View(), p.owner);
  }

  class ServerState {
    var order: seq<PlayerId>
    var players: map<PlayerId, PlayerRecord>
    var lastBroadcast: map<PlayerId, PlayerRecord>
    var ticking: bool

    /** No live object is a snapshot, and no two players share an object. */
    ghost predicate Valid()
      reads this
    {
      && Distinct(order) && (forall id :: id in order <==> id in players)
      && (forall id :: id in players ==> players[id].id == id && players[id].owner == this)
      && (forall id :: id in lastBroadcast ==> lastBroadcast[id].owner == this)
      && (forall id, other :: id in players && other in lastBroadcast ==> players[id] != lastBroadcast[other])
    }

    function Live(): map<PlayerId, PlayerState>
      reads this, players.Values
    {
      map id | id in players :: players[id].View()
    }

    function Last(): map<PlayerId, PlayerState>
      reads this, lastBroadcast.Values
    {
      map id | id in lastBroadcast :: lastBroadcast[id].View()
    }

    constructor ()
      ensures Valid() && order == [] && players == map[] && lastBroadcast == map[] && !ticking
    {
      order, players, lastBroadcast, ticking := [], map[], map[], false;
    }

    method Start()
      modifies this`ticking
      ensures ticking
    {
      ticking := true;
    }

    method Stop()
      modifies this`ticking
      ensures !ticking
    {
      ticking := false;
    }

    /** `getPlayers`: the entries in the order of the Map. */
    method GetPlayers() returns (entries: seq<PlayerState>)
      requires Valid()
      ensures entries == Rooms.Listed(order, Live())
    {
      entries := [];
      var i := 0;
      while i < |order|
        invariant 0 <= i <= |order|
        invariant entries + Rooms.Listed(order[i..], Live()) == Rooms.Listed(order, Live())
      {
        ListedNext(order, i, Live(), entries);
        entries := entries + [players[order[i]].View()];
        i := i + 1;
      }
    }

    /** `players.set`. */
    method Set(p: PlayerRecord)
      requires Valid() && p.owner == this && p !in lastBroadcast.Values
      modifies this`order, this`players
      ensures Valid() && order == (if p.id in old(order) then old(order) else old(order) + [p.id])
      ensures players == old(players)[p.id := p]
    {
      if p.id !in players {
        order := order + [p.id];
      }
      players := players[p.id := p];
    }

    method AddPlayer(p: PlayerRecord)
      requires Valid() && p.owner == this && p !in lastBroadcast.Values
      modifies this`order, this`players
      ensures Valid() && order == (if p.id in old(order) then old(order) else old(order) + [p.id])
      ensures Live() == old(Live())[p.id := p.View()] && Last() == old(Last())
    {
      Set(p);
      assert Live() == old(Live())[p.id := p.View()];
    }

    /** Both Maps forget the player. */
    method Delete(id: PlayerId)
      requires Valid()
      modifies this`order, this`players, this`lastBroadcast
      ensures Valid() && order == Without(old(order), id)
      ensures players == old(players) - {id} && lastBroadcast == old(lastBroadcast) - {id}
    {
      WithoutKeys(order, id);
      order := Without(order, id);
      players := players - {id};
      lastBroadcast := lastBroadcast - {id};
    }

    method RemovePlayer(id: PlayerId)
      requires Valid()
      modifies this`order, this`players, this`lastBroadcast
      ensures Valid() && order == Without(old(order), id)
      ensures players == old(players) - {id} && lastBroadcast == old(lastBroadcast) - {id}
      ensures Live() == old(Live()) - {id} && Last() == old(Last()) - {id}
    {
      Delete(id);
      assert Live() == old(Live()) - {id};
      assert Last() == old(Last()) - {id};
    }

    /** An update changes one live entry, and no snapshot. */
    method UpdatePlayer(id: PlayerId, patch: Patch)
      requires Valid()
      modifies if id in players then {players[id]} else {}
      ensures Live() == if id in players then old(Live())[id := Merge(old(Live())[id], patch)] else old(Live())
      ensures Last() == old(Last())
    {
      if id !in players {
        return;
      }
      players[id].Apply(patch);
      assert forall other :: other in players && other != id ==> players[other] != players[id];
    }

    method SetCutscene(id: PlayerId, active: bool)
      requires Valid()
      modifies if id in players then {players[id]} else {}
      ensures Live() == if id in players then old(Live())[id := old(Live())[id].(inCutscene := active)] else old(Live())
      ensures Last() == old(Last())
    {
      if id in players {
        players[id].inCutscene := active;
        assert forall other :: other in players && other != id ==> players[other] != players[id];
      }
    }

    /** The loop body of `SetHost`. */
    method FlagHost(id: PlayerId, host: PlayerId)
      requires Valid() && id in players
      modifies players[id]
      ensures Live() == old(Live())[id := old(Live())[id].(isHost := id == host)]
      ensures Last() == old(Last())
    {
      var p := players[id];
      p.isHost := p.id == host;
      assert forall other :: other in players && other != id ==> players[other] != p;
    }

    /** Every player's flag is set or cleared, in the order of the Map. */
    method SetHost(host: PlayerId)
      requires Valid()
      modifies players.Values
      ensures Live() == Rooms.SetHost(old(Live()), host)
      ensures Last() == old(Last())
    {
      ghost var live := Live();
      var i := 0;
      while i < |order|
        invariant 0 <= i <= |order|
        invariant Flagged(order[..i], live, host, Live()) && Last() == old(Last())
      {
        FlaggedNext(order, i, live, host, Live());
        FlagHost(order[i], host);
        i := i + 1;
      }
      FlaggedDone(order, live, host, Live());
    }

    /** Two clones of a player: one is the news, the other the new snapshot. */
    method Renew(id: PlayerId) returns (news: PlayerState)
      requires Valid() && id in players
      modifies this`lastBroadcast
      ensures Valid() && Live() == old(Live()) && news == old(Live())[id]
      ensures Last() == old(Last())[id := old(Live())[id]]
    {
      var changed := Clone(players[id]);
      var snapshot := Clone(players[id]);
      lastBroadcast := lastBroadcast[id := snapshot];
      return changed.View();
    }

    /** The loop body of the tick: a player that has changed is news, and gets a new snapshot. */
    method Refresh(id: PlayerId) returns (news: seq<PlayerState>)
      requires Valid() && id in players
      modifies this`lastBroadcast
      ensures Valid() && Live() == old(Live())
      ensures news == if Due(old(Live()), old(Last()), id) then [old(Live())[id]] else []
      ensures Last() == if Due(old(Live()), old(Last()), id) then old(Last())[id := old(Live())[id]] else old(Last())
    {
      if id in lastBroadcast && !PlayerChanged(lastBroadcast[id].View(), players[id].View()) {
        return [];
      }
      var changed := Renew(id);
      return [changed];
    }

    method RefreshNext(
        i: nat, changed: seq<PlayerState>, ghost live: map<PlayerId, PlayerState>,
        ghost last: map<PlayerId, PlayerState>)
      returns (more: seq<PlayerState>)
      requires Valid() && i < |order| && Live() == live && Halfway(order, i, live, last, changed, Last())
      modifies this`lastBroadcast
      ensures Valid() && Live() == live && Halfway(order, i + 1, live, last, more, Last())
    {
      var news := Refresh(order[i]);
      HalfwayNext(order, i, live, last, changed, old(Last()), news, Last());
      more := changed + news;
    }

    /** A tick: clones of the changed entries are the news, and other clones become the snapshots. */
    method Tick() returns (changed: seq<PlayerState>)
      requires Valid()
      modifies this`lastBroadcast
      ensures Valid() && Live() == old(Live())
      ensures changed == Changed(order, Live(), old(Last()))
      ensures Last() == Snapshots(Live(), old(Last()))
    {
      changed := [];
      ghost var live, last := Live(), Last();
      HalfwayStart(order, live, last);
      var i := 0;
      while i < |order|
        invariant 0 <= i <= |order|
        invariant Valid() && Live() == live
        invariant Halfway(order, i, live, last, changed, Last())
      {
        changed := RefreshNext(i, changed, live, last);
        i := i + 1;
      }
      HalfwayDone(order, live, last, changed, Last());
    }
  }

  /** Nothing was written to the state or its records. */
  twostate lemma Untouched(st: ServerState)
    requires unchanged(st)
    requires forall id :: id in st.players ==> old(allocated(st.players[id])) && unchanged(st.players[id])
    requires forall id :: id in st.lastBroadcast ==>
               old(allocated(st.lastBroadcast[id])) && unchanged(st.lastBroadcast[id])
    ensures st.Live() == old(st.Live()) && st.Last() == old(st.Last())
  {
    assert forall id :: id in st.players ==> st.players[id].View() == old(st.players[id].View());
    assert forall id :: id in st.lastBroadcast ==> st.lastBroadcast[id].View() == old(st.lastBroadcast[id].View());
  }

  // ---- the loop of `SetHost`, over values ----------------------------------------------------------------------

  /** Exactly these players have been flagged or unflagged. */
  ghost predicate Flagged(
      ids: seq<PlayerId>, live: map<PlayerId, PlayerState>, host: PlayerId, flagged: map<PlayerId, PlayerState>) {
    && flagged.Keys == live.Keys
    && forall id :: id in live ==> flagged[id] == if id in ids then live[id].(isHost := id == host) else live[id]
  }

  lemma FlaggedNext(
      order: seq<PlayerId>, i: nat, live: map<PlayerId, PlayerState>, host: PlayerId,
      flagged: map<PlayerId, PlayerState>)
    requires i < |order| && order[i] in live && Flagged(order[..i], live, host, flagged)
    ensures order[i] in flagged
    ensures Flagged(order[..i + 1], live, host, flagged[order[i] := flagged[order[i]].(isHost := order[i] == host)])
  {}

  lemma FlaggedDone(
      order: seq<PlayerId>, live: map<PlayerId, PlayerState>, host: PlayerId, flagged: map<PlayerId, PlayerState>)
    requires (forall id :: id in live ==> id in order && live[id].id == id)
             && Flagged(order[..|order|], live, host, flagged)
    ensures flagged == Rooms.SetHost(live, host)
  {}

  lemma ListedNext(order: seq<PlayerId>, i: nat, live: map<PlayerId, PlayerState>, entries: seq<PlayerState>)
    requires i < |order| && order[i] in live
    ensures entries + Rooms.Listed(order[i..], live)
            == (entries + [live[order[i]]]) + Rooms.Listed(order[i + 1..], live)
  {
    assert order[i..][1..] == order[i + 1..];
    var rest := Rooms.Listed(order[i + 1..], live);
    assert Rooms.Listed(order[i..], live) == [live[order[i]]] + rest;
    assert entries + ([live[order[i]]] + rest) == (entries + [live[order[i]]]) + rest;
  }

  // ---- the loop of the tick, over values -----------------------------------------------------------------------

  /** The snapshots when the loop has come this far. */
  ghost function Refreshed(
      ids: seq<PlayerId>, live: map<PlayerId, PlayerState>,
      last: map<PlayerId, PlayerState>): map<PlayerId, PlayerState>
    decreases |ids|
  {
    if |ids| == 0 then last
    else
      var so, id := Refreshed(ids[..|ids| - 1], live, last), ids[|ids| - 1];
      if Due(live, last, id) then so[id := live[id]] else so
  }

  lemma {:induction false} RefreshedIs(
      ids: seq<PlayerId>, live: map<PlayerId, PlayerState>, last: map<PlayerId, PlayerState>)
    ensures var r := Refreshed(ids, live, last);
            && (forall id :: id in r <==> id in last || (id in ids && Due(live, last, id)))
            && (forall id :: id in r ==> r[id] == if id in ids && Due(live, last, id) then live[id] else last[id])
    decreases |ids|
  {
    if |ids| > 0 {
      assert ids == ids[..|ids| - 1] + [ids[|ids| - 1]];
      RefreshedIs(ids[..|ids| - 1], live, last);
    }
  }

  lemma RefreshedAll(order: seq<PlayerId>, live: map<PlayerId, PlayerState>, last: map<PlayerId, PlayerState>)
    requires forall id :: id in live ==> id in order
    ensures Refreshed(order, live, last) == Snapshots(live, last)
  {
    RefreshedIs(order, live, last);
  }

  /** The loop has come to position i: the news so far, and the snapshots so far. */
  ghost predicate Halfway(
      order: seq<PlayerId>, i: nat, live: map<PlayerId, PlayerState>, last: map<PlayerId, PlayerState>,
                          changed: seq<PlayerState>, snapshots: map<PlayerId, PlayerState>)
    requires i <= |order|
  {
    changed + Changed(order[i..], live, last) == Changed(order, live, last)
        && snapshots == Refreshed(order[..i], live, last)
  }

  lemma HalfwayStart(order: seq<PlayerId>, live: map<PlayerId, PlayerState>, last: map<PlayerId, PlayerState>)
    ensures Halfway(order, 0, live, last, [], last)
  {}

  /** The next player has not been refreshed yet, and comes next in the list of news. */
  lemma HalfwayNext(
      order: seq<PlayerId>, i: nat, live: map<PlayerId, PlayerState>, last: map<PlayerId, PlayerState>,
      changed: seq<PlayerState>,
                    before: map<PlayerId, PlayerState>, news: seq<PlayerState>, after: map<PlayerId, PlayerState>)
    requires Distinct(order) && i < |order| && Halfway(order, i, live, last, changed, before)
    requires news == if Due(live, before, order[i]) then [live[order[i]]] else []
    requires after == if Due(live, before, order[i]) then before[order[i] := live[order[i]]] else before
    ensures Halfway(order, i + 1, live, last, changed + news, after)
  {
    assert order[..i + 1][..i] == order[..i];
    assert order[i..][1..] == order[i + 1..];
    RefreshedIs(order[..i], live, last);
  }

  lemma HalfwayDone(order: seq<PlayerId>, live: map<PlayerId, PlayerState>, last: map<PlayerId, PlayerState>,
                    changed: seq<PlayerState>, snapshots: map<PlayerId, PlayerState>)
    requires (forall id :: id in live ==> id in order) && Halfway(order, |order|, live, last, changed, snapshots)
    ensures changed == Changed(order, live, last) && snapshots == Snapshots(live, last)
  {
    RefreshedAll(order, live, last);
    assert order[..|order|] == order;
  }
}
