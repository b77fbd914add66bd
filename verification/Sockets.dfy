/** The sockets of the server and the connections of a room: the fan-out loops of server/src/room.ts. */
module Sockets {
  import opened Keys
  import opened Protocol
  import opened Channels

  /** Every socket of the server: what each session has been sent, and whose socket is open. */
  class Wire {
    var net: Net

    constructor ()
      ensures net == Net(map[], {})
    {
      net := Net(map[], {});
    }

    /** A session has shaken hands: it is known by its id from now on, and has been told it. */
    method Accept(id: PlayerId)
      modifies this
      ensures net == Net(old(net).logs[id := [HandshakeAck(id)]], old(net).open + {id})
    {
      net := Net(net.logs[id := [HandshakeAck(id)]], net.open + {id});
    }

    method Close(id: PlayerId)
      modifies this
      ensures net == old(net).(open := old(net).open - {id})
    {
      net := net.(open := net.open - {id});
    }

    /** `safeSend`: a packet is sent only while the socket is open. */
    method SafeSend(id: PlayerId, msg: Msg)
      modifies this
      ensures net == Send(old(net), {id}, [msg])
    {
      assert forall other :: other in net.logs ==> net.logs[other] + [] == net.logs[other];
      if id in net.open && id in net.logs {
        net := net.(logs := net.logs[id := net.logs[id] + [msg]]);
      }
      assert net.logs == Send(old(net), {id}, [msg]).logs;
    }
  }

  /** The insertion-ordered Map `connections` of a room. */
  class Connections {
    const wire: Wire
    var order: seq<PlayerId>

    ghost predicate Valid()
      reads this
    {
      Distinct(order)
    }

    constructor (wire: Wire)
      ensures Valid() && order == [] && this.wire == wire
    {
      this.wire, order := wire, [];
    }

    /** Map.set with a new key. */
    method Add(id: PlayerId)
      requires Valid() && id !in order
      modifies this
      ensures Valid() && order == old(order) + [id]
    {
      order := order + [id];
    }

    /** Map.delete. */
    method Remove(id: PlayerId)
      requires Valid()
      modifies this
      ensures Valid() && order == Without(old(order), id)
    {
      WithoutKeys(order, id);
      order := Without(order, id);
    }

    /** The loop of `broadcastExcept`: everyone but one member. */
    method BroadcastExcept(except: PlayerId, msg: Msg)
      requires Valid()
      modifies wire
      ensures wire.net == Send(old(wire.net), Elements(order) - {except}, [msg])
    {
      ghost var was := wire.net;
      SendNobody(was, msg);
      assert Elements(order[..0]) - {except} == {};
      var i := 0;
      while i < |order|
        invariant 0 <= i <= |order|
        invariant wire.net == Send(was, Elements(order[..i]) - {except}, [msg])
      {
        SendNext(was, order, i, except, msg);
        if order[i] != except {
          wire.SafeSend(order[i], msg);
        }
        i := i + 1;
      }
      assert order[..i] == order;
    }

    /** The loop of `broadcast`. */
    method Broadcast(msg: Msg)
      requires Valid()
      modifies wire
      ensures wire.net == Send(old(wire.net), Elements(order), [msg])
    {
      ghost var was := wire.net;
      SendNobody(was, msg);
      assert Elements(order[..0]) == {};
      var i := 0;
      while i < |order|
        invariant 0 <= i <= |order|
        invariant wire.net == Send(was, Elements(order[..i]), [msg])
      {
        SendOneMore(was, order, i, msg);
        wire.SafeSend(order[i], msg);
        i := i + 1;
      }
      assert order[..i] == order;
    }
  }

  // ---- sending, over values ----------------------------------------------------------------------------------

  lemma SendNobody(net: Net, msg: Msg)
    ensures Send(net, {}, [msg]) == net
  {
    forall c | c in net.logs ensures Send(net, {}, [msg]).logs[c] == net.logs[c] {
      assert net.logs[c] + [] == net.logs[c];
    }
    assert Send(net, {}, [msg]).logs == net.logs;
  }

  lemma SendBoth(net: Net, a: set<PlayerId>, b: set<PlayerId>, msg: Msg)
    requires a !! b
    ensures Send(Send(net, a, [msg]), b, [msg]) == Send(net, a + b, [msg])
  {
    var both := Send(Send(net, a, [msg]), b, [msg]);
    forall c | c in net.logs ensures both.logs[c] == Send(net, a + b, [msg]).logs[c] {
      assert net.logs[c] + [] + [] == net.logs[c] + [];
      assert net.logs[c] + [] + [msg] == net.logs[c] + [msg];
    }
    assert both.logs == Send(net, a + b, [msg]).logs;
  }

  lemma SendOneMore(net: Net, order: seq<PlayerId>, i: nat, msg: Msg)
    requires Distinct(order) && i < |order|
    ensures Send(Send(net, Elements(order[..i]), [msg]), {order[i]}, [msg])
            == Send(net, Elements(order[..i + 1]), [msg])
  {
    assert order[..i + 1] == order[..i] + [order[i]];
    assert Elements(order[..i + 1]) == Elements(order[..i]) + {order[i]};
    SendBoth(net, Elements(order[..i]), {order[i]}, msg);
  }

  lemma SendNext(net: Net, order: seq<PlayerId>, i: nat, except: PlayerId, msg: Msg)
    requires Distinct(order) && i < |order|
    ensures var so := Send(net, Elements(order[..i]) - {except}, [msg]);
            Send(net, Elements(order[..i + 1]) - {except}, [msg])
              == if order[i] == except then so else Send(so, {order[i]}, [msg])
  {
    assert order[..i + 1] == order[..i] + [order[i]];
    if order[i] == except {
      assert Elements(order[..i + 1]) - {except} == Elements(order[..i]) - {except};
    } else {
      assert Elements(order[..i + 1]) - {except} == Elements(order[..i]) - {except} + {order[i]};
      SendBoth(net, Elements(order[..i]) - {except}, {order[i]}, msg);
    }
  }
}
