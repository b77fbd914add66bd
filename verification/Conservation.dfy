/** Players are conserved: the server's index counts exactly the members of all rooms, each once. */
module Conservation {
  import opened Keys
  import opened Protocol
  import opened Rooms
  import opened Server
  import opened ServerInvariant
  import opened Runs

  /** The sizes of the rooms, added up in the order of the Map. */
  function TotalSize(order: seq<Code>, rooms: map<Code, Room>): (n: nat)
    requires forall code :: code in order ==> code in rooms
  {
    if |order| == 0 then 0 else |rooms[order[0]].conns| + TotalSize(order[1..], rooms)
  }

  /** Everyone who is in one of these rooms. */
  ghost function Everyone(order: seq<Code>, rooms: map<Code, Room>): (all: set<PlayerId>)
    requires forall code :: code in order ==> code in rooms
  {
    if |order| == 0 then {} else Elements(rooms[order[0]].conns) + Everyone(order[1..], rooms)
  }

  lemma {:induction false} EveryoneIs(order: seq<Code>, rooms: map<Code, Room>, p: PlayerId)
    requires forall code :: code in order ==> code in rooms
    ensures p in Everyone(order, rooms) <==> exists i :: 0 <= i < |order| && p in rooms[order[i]].conns
  {
    if |order| > 0 {
      EveryoneIs(order[1..], rooms, p);
      if i :| 0 <= i < |order[1..]| && p in rooms[order[1..][i]].conns {
        assert order[i + 1] == order[1..][i];
      }
      if i :| 0 <= i < |order| && p in rooms[order[i]].conns {
        assert i > 0 ==> order[1..][i - 1] == order[i];
      }
    }
  }

  lemma {:induction false} ElementsSize(s: seq<nat>)
    requires Distinct(s)
    ensures |Elements(s)| == |s|
  {
    if |s| == 0 {
      assert Elements(s) == {};
    } else {
      ElementsSize(s[1..]);
      assert Elements(s) == {s[0]} + Elements(s[1..]);
      assert s[0] !in Elements(s[1..]);
    }
  }

  lemma {:induction false} SizesAddUp(order: seq<Code>, rooms: map<Code, Room>, playerRoom: map<PlayerId, Code>)
    requires Distinct(order) && (forall code :: code in order ==> code in rooms && Distinct(rooms[code].conns))
    requires IndexOk(rooms, playerRoom)
    ensures |Everyone(order, rooms)| == TotalSize(order, rooms)
  {
    if |order| > 0 {
      var here, rest := Elements(rooms[order[0]].conns), Everyone(order[1..], rooms);
      SizesAddUp(order[1..], rooms, playerRoom);
      ElementsSize(rooms[order[0]].conns);
      forall p | p in here ensures p !in rest {
        EveryoneIs(order[1..], rooms, p);
        forall i | 0 <= i < |order[1..]| ensures p !in rooms[order[1..][i]].conns {
          assert order[1..][i] == order[i + 1];
          RoomsApart(rooms, playerRoom, order[0], order[i + 1], p);
        }
      }
    }
  }

  lemma EveryoneIsBound(order: seq<Code>, rooms: map<Code, Room>, playerRoom: map<PlayerId, Code>)
    requires IndexOk(rooms, playerRoom) && CodesOk(order, rooms)
    ensures playerRoom.Keys == Everyone(order, rooms)
  {
    forall p ensures p in playerRoom <==> p in Everyone(order, rooms) {
      EveryoneIs(order, rooms, p);
      if p in playerRoom {
        assert playerRoom[p] in order;
        var k :| 0 <= k < |order| && order[k] == playerRoom[p];
        assert p in rooms[order[k]].conns;
      }
    }
  }

  lemma TotalSizeIs(order: seq<Code>, rooms: map<Code, Room>, playerRoom: map<PlayerId, Code>)
    requires IndexOk(rooms, playerRoom) && CodesOk(order, rooms)
    requires forall code :: code in rooms ==> Distinct(rooms[code].conns)
    ensures |playerRoom| == TotalSize(order, rooms)
  {
    SizesAddUp(order, rooms, playerRoom);
    EveryoneIsBound(order, rooms, playerRoom);
    assert |playerRoom| == |playerRoom.Keys|;
  }

  /** `totalPlayers`, the size of the index, is the sum of the sizes of the rooms, whatever happened. */
  lemma TotalIsSumOfSizes(run: Run, slack: nat, i: nat)
    requires IsRun(run, slack) && i < |run.states|
    ensures var s := run.states[i];
            && (forall code :: code in s.order ==> code in s.rooms)
            && |s.playerRoom| == TotalSize(s.order, s.rooms)
  {
    ReachableOk(run, slack, i);
    TotalSizeIs(run.states[i].order, run.states[i].rooms, run.states[i].playerRoom);
  }
}
