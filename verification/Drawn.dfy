/** The end of the way: what a receiver draws, against the real values of the player it draws. */
module Drawn {
  import opened Protocol
  import opened Delta
  import opened GameplaySync
  import opened Mirror
  import opened Interpolation
  import opened Screens
  import opened EndToEnd

  /**
   The receiver's client has had these packets and frames: all packets sent to it, and after the last that touches
   the player a frame 100 ms late.
   */
  ghost predicate HasDrawn(log: seq<Msg>, p: PlayerId, before: seq<Input>, after: seq<Input>) {
    && MessagesOf(before + after) == log && LeavesAlone(after, p)
    && p in OnInputs(BLANK, before).players && DrawnLate(after, OnInputs(BLANK, before).players[p].updatedMs)
  }

  /** The player as a receiver shows it after these inputs. */
  function ShownAt(inputs: seq<Input>, p: PlayerId): RemotePlayer
    requires p in OnInputs(BLANK, inputs).players
  {
    OnInputs(BLANK, inputs).players[p]
  }

  /** From the player's memory to another player's screen: the position drawn is within 0.02 on every axis. */
  lemma DrawnIsClose(
      run: LinkRun, p: PlayerId, slack: nat, i: nat, c: PlayerId, before: seq<Input>, after: seq<Input>)
    requires IsLinkRun(run, p, slack) && i < |run.events| && Settled(run, p, i, c) && run.states[i].actual.Some?
    requires HasDrawn(run.states[i + 1].server.net.logs[c], p, before, after)
    ensures p in OnInputs(BLANK, before + after).players
    ensures NearVec(run.states[i].actual.value.position, ShownAt(before + after, p).current, 0.02)
    ensures Near(run.states[i].actual.value.health, ShownAt(before + after, p).health, 0.5)
            <==> run.states[i].packets != []
  {
    EndToEndBound(run, p, slack, i, c);
    ConvergesToReplay(before, after, p);
    ScreenShowsReplay(before + after);
  }

  /** The blocks shown are close to the latest sent, and are all those of one moment. */
  ghost predicate BlocksShown(shown: Packet, packets: seq<Packet>) {
    && (forall kind: Kind :: CloseBlock(BlockOf(shown, kind), Latest(packets, kind), kind))
    && exists k :: 0 <= k <= |packets| && ShownAsOf(shown, packets, k)
  }

  ghost predicate ShownAsOf(shown: Packet, packets: seq<Packet>, k: nat)
    requires k <= |packets|
  {
    forall kind: Kind :: BlockOf(shown, kind) == Latest(packets[..k], kind)
  }

  lemma ReadBlocks(g: Gameplay, shown: Packet, packets: seq<Packet>)
    requires ReadFrom(shown, g) && BlocksClose(g, packets)
    requires exists k :: 0 <= k <= |packets| && BlocksAsOf(g, packets, k)
    ensures BlocksShown(shown, packets)
  {
    var held: Packet :| shown == Parse(g, held);
    var k :| 0 <= k <= |packets| && BlocksAsOf(g, packets, k);
    assert ShownAsOf(shown, packets, k);
  }

  /** ... and so are the gameplay blocks that it shows. */
  lemma DrawnGameplay(run: LinkRun, p: PlayerId, slack: nat, i: nat, c: PlayerId, inputs: seq<Input>)
    requires IsLinkRun(run, p, slack) && i < |run.events| && Settled(run, p, i, c)
    requires MessagesOf(inputs) == run.states[i + 1].server.net.logs[c]
    ensures p in OnInputs(BLANK, inputs).players
    ensures BlocksShown(ShownAt(inputs, p).gameplay, run.states[i].packets)
  {
    GameplayAtReceiver(run, p, slack, i, c);
    ScreenShowsReplay(inputs);
    ReadBlocks(Replay(MessagesOf(inputs)).remotes[p].gameplay, ShownAt(inputs, p).gameplay, run.states[i].packets);
  }
}
