/** The tables hold what the callers asked for, over whole runs. */
module Requests {
  import opened Bytes
  import opened Dcep
  import opened Channels
  import opened Network
  import opened Agreement
  import opened Steps
  import opened CallLaws
  import ChannelTheorems

  /** The peer that makes the moves with this mark. */
  function Side(w: World, first: bool): Node {
    if first then w.me else w.other
  }

  function Chans(w: World, first: bool): seq<Channel> {
    Side(w, first).peer.chans
  }

  /** The peer may publish: there is a slot, and SCTP takes the OPEN or is not up. */
  predicate Publishes(p: PeerState, taken: bool) {
    |p.chans| < 128 && (p.ready ==> taken)
  }

  /** A channel with these parameters, whatever its state. */
  predicate Carries(c: Channel, labelText: seq<byte>, protocol: seq<byte>, sid: int) {
    && c.labelText.Text() == labelText && c.protocol.Text() == protocol && c.sid == sid
    && c.ctype == 0 && c.priority == 0 && c.rtx == 0 && c.lifetime == 0
  }

  lemma RunSnoc(w: World, moves: seq<Move>, move: Move)
    ensures Run(w, moves + [move]) == Apply(Run(w, moves), move)
  {
    assert (moves + [move])[..|moves|] == moves;
  }

  lemma CreateMove(w: World, first: bool, labelText: seq<byte>, protocol: seq<byte>, taken: bool)
    requires Publishes(Side(w, first).peer, taken)
    ensures var v := Apply(w, Move(first, Create(labelText, protocol, taken)));
      var k := |Chans(w, first)|;
      |Chans(v, first)| == k + 1 && Carries(Chans(v, first)[k], labelText, protocol, Side(w, first).peer.cursor % 65536)
  {
    CreateLaw(Side(w, first).peer, labelText, protocol, taken);
  }

  lemma ExtendsSide(w: World, moves: seq<Move>, more: seq<Move>, first: bool)
    ensures ChannelTheorems.Extends(Chans(Run(w, moves), first), Chans(Run(w, moves + more), first))
  {
    ChannelTheorems.RunExtends(w, moves, more);
  }

  /** A channel once created keeps its slot, texts, type and number for the rest of any run,
      careful or not. */
  lemma CreatedStays(w: World, moves: seq<Move>, first: bool, labelText: seq<byte>, protocol: seq<byte>, taken: bool,
      more: seq<Move>)
    requires Publishes(Side(Run(w, moves), first).peer, taken)
    ensures var before, after := Side(Run(w, moves), first).peer,
                                 Chans(Run(w, moves + [Move(first, Create(labelText, protocol, taken))] + more), first);
      && |before.chans| < |after|
      && Carries(after[|before.chans|], labelText, protocol, before.cursor % 65536)
  {
    var create := Move(first, Create(labelText, protocol, taken));
    RunSnoc(w, moves, create);
    CreateMove(Run(w, moves), first, labelText, protocol, taken);
    ExtendsSide(w, moves + [create], more, first);
  }

  // The other end

  lemma FarCarries(w: World, k: nat, j: nat, labelText: seq<byte>, protocol: seq<byte>)
    requires Inv(w) && k < |w.me.peer.chans| && j < |w.other.peer.chans|
    requires w.me.peer.chans[k].sid in w.me.mine && w.other.peer.chans[j].sid == w.me.peer.chans[k].sid
    requires Carries(w.me.peer.chans[k], labelText, protocol, w.me.peer.chans[k].sid)
    ensures Carries(w.other.peer.chans[j], labelText, protocol, w.me.peer.chans[k].sid)
    ensures w.other.peer.chans[j].state == Connected
  {
    ChannelTheorems.OwnLink(w, k);
    FindUnique(w.other.peer.chans, j);
  }

  /** The stream of a creation is its maker's own. */
  lemma CreatedMine(w: World, first: bool, labelText: seq<byte>, protocol: seq<byte>, taken: bool)
    requires Publishes(Side(w, first).peer, taken)
    ensures SidAt(Side(w, first).peer.cursor) in Side(Apply(w, Move(first, Create(labelText, protocol, taken))), first).mine
  {
  }

  lemma StepMine(w: World, move: Move, first: bool)
    ensures Side(w, first).mine <= Side(Apply(w, move), first).mine
  {
  }

  lemma {:induction false} RunMine(w: World, moves: seq<Move>, more: seq<Move>, first: bool)
    ensures Side(Run(w, moves), first).mine <= Side(Run(w, moves + more), first).mine
    decreases |more|
  {
    if more == [] {
      assert moves + more == moves;
    } else {
      var front, last := more[..|more| - 1], more[|more| - 1];
      RunMine(w, moves, front, first);
      assert moves + more == (moves + front) + [last];
      RunSnoc(w, moves + front, last);
      StepMine(Run(w, moves + front), last, first);
    }
  }

  /** Agreement, anchored to the call.  In a careful run, after a creation that succeeded,
      the creator's slot holds a channel with the label and the protocol of that call under
      the number that the cursor had; every channel on that number at the other peer is
      CONNECTED and has them too; and there is one there if the creator's is CONNECTED. */
  lemma RunAnchored(role: Role, moves: seq<Move>, first: bool, labelText: seq<byte>, protocol: seq<byte>, taken: bool,
      more: seq<Move>)
    requires CarefulRun(Init(role), moves + [Move(first, Create(labelText, protocol, taken))] + more)
    requires Publishes(Side(Run(Init(role), moves), first).peer, taken)
    ensures var before := Side(Run(Init(role), moves), first).peer;
      var w := Run(Init(role), moves + [Move(first, Create(labelText, protocol, taken))] + more);
      var k, sid, far := |before.chans|, before.cursor % 65536, Chans(w, !first);
      && k < |Chans(w, first)| && Carries(Chans(w, first)[k], labelText, protocol, sid)
      && (forall j :: 0 <= j < |far| && far[j].sid == sid ==>
            Carries(far[j], labelText, protocol, sid) && far[j].state == Connected)
      && (Chans(w, first)[k].state == Connected ==> exists j :: 0 <= j < |far| && far[j].sid == sid)
  {
    var create := Move(first, Create(labelText, protocol, taken));
    var all := moves + [create] + more;
    var before, w := Side(Run(Init(role), moves), first).peer, Run(Init(role), all);
    CreatedStays(Init(role), moves, first, labelText, protocol, taken, more);
    RunSnoc(Init(role), moves, create);
    CreatedMine(Run(Init(role), moves), first, labelText, protocol, taken);
    RunMine(Init(role), moves + [create], more, first);
    RunInv(role, all);
    Anchored(if first then w else w.Flip(), |before.chans|, labelText, protocol);
  }

  lemma Anchored(w: World, k: nat, labelText: seq<byte>, protocol: seq<byte>)
    requires Inv(w) && k < |w.me.peer.chans| && w.me.peer.chans[k].sid in w.me.mine
    requires Carries(w.me.peer.chans[k], labelText, protocol, w.me.peer.chans[k].sid)
    ensures var c, far := w.me.peer.chans[k], w.other.peer.chans;
      && (forall j :: 0 <= j < |far| && far[j].sid == c.sid ==>
            Carries(far[j], labelText, protocol, c.sid) && far[j].state == Connected)
      && (c.state == Connected ==> exists j :: 0 <= j < |far| && far[j].sid == c.sid)
  {
    var c, far := w.me.peer.chans[k], w.other.peer.chans;
    forall j | 0 <= j < |far| && far[j].sid == c.sid
      ensures Carries(far[j], labelText, protocol, c.sid) && far[j].state == Connected
    {
      FarCarries(w, k, j, labelText, protocol);
    }
    ChannelTheorems.InvAgrees(w);
  }
}
