/** What the data-channel protocol guarantees over whole runs of two peers of
    opposite roles, and what it does not guarantee without careful creations. */
module ChannelTheorems {
  import opened Bytes
  import opened Dcep
  import opened Channels
  import opened Network
  import opened Agreement
  import opened Preservation
  import opened Steps

  // Agreement of the tables

  ghost predicate HasOnlyMatch(a: Node, c: Channel) {
    exists j: nat :: j < |a.peer.chans| && Agree(c, a.peer.chans[j])
      && forall k: nat :: k < |a.peer.chans| && a.peer.chans[k].sid == c.sid ==> k == j
  }

  /** Whatever `o` opened and sees CONNECTED has exactly one counterpart at `a`. */
  ghost predicate TablesAgree(o: Node, a: Node) {
    forall i :: 0 <= i < |o.peer.chans| && o.peer.chans[i].sid in o.mine && o.peer.chans[i].state == Connected
      ==> HasOnlyMatch(a, o.peer.chans[i])
  }

  lemma OwnLink(w: World, i: nat)
    requires Inv(w) && i < |w.me.peer.chans| && w.me.peer.chans[i].sid in w.me.mine
    ensures var c := w.me.peer.chans[i];
      && LinkOk(LinkOf(w.me, w.other, c.sid)) && LinkOf(w.me, w.other, c.sid).near == Some(c)
      && c.sid % 2 == w.me.peer.role.Parity()
  {
    FindUnique(w.me.peer.chans, i);
  }

  lemma InvAgrees(w: World)
    requires Inv(w)
    ensures TablesAgree(w.me, w.other)
  {
    var chans, others := w.me.peer.chans, w.other.peer.chans;
    forall i | 0 <= i < |chans| && chans[i].sid in w.me.mine && chans[i].state == Connected
      ensures HasOnlyMatch(w.other, chans[i])
    {
      OwnLink(w, i);
      var j := Find(others, chans[i].sid);
      assert Agree(chans[i], others[j]);
      forall k: nat | k < |others| && others[k].sid == chans[i].sid
        ensures k == j
      {
        FindUnique(others, k);
      }
    }
  }

  /** In every reachable state a CONNECTED channel of its opener is matched by exactly
      one channel at the other peer, with the same stream, type, priority, reliability,
      label and protocol. */
  lemma RunAgrees(role: Role, moves: seq<Move>)
    requires CarefulRun(Init(role), moves)
    ensures var w := Run(Init(role), moves);
      TablesAgree(w.me, w.other) && TablesAgree(w.other, w.me)
  {
    RunInv(role, moves);
    var w := Run(Init(role), moves);
    InvAgrees(w);
    InvAgrees(w.Flip());
  }

  // Channels that stay CONNECTING

  predicate OpenInFlight(o: Node, sid: u16) {
    exists i :: 0 <= i < |o.out[sid].queue| && IsOpen(o.out[sid].queue[i])
  }

  predicate AckInFlight(a: Node, sid: u16) {
    AckPacket(sid) in a.out[sid].queue
  }

  predicate ExactlyOne(p: bool, q: bool, r: bool, s: bool) {
    (if p then 1 else 0) + (if q then 1 else 0) + (if r then 1 else 0) + (if s then 1 else 0) == 1
  }

  predicate NoneOf(p: bool, q: bool, r: bool, s: bool) {
    !p && !q && !r && !s
  }

  /** Why a channel of `o` is CONNECTING: exactly one of four reasons holds; and none
      of them holds of a CONNECTED one. */
  ghost predicate Explained(o: Node, a: Node) {
    forall i {:trigger o.peer.chans[i]} :: 0 <= i < |o.peer.chans| && o.peer.chans[i].sid in o.mine ==>
      var c := o.peer.chans[i];
      && (c.state == Connecting ==>
            ExactlyOne(OpenInFlight(o, c.sid), AckInFlight(a, c.sid), c.sid in a.refused, c.sid in a.mute))
      && (c.state == Connected ==>
            NoneOf(OpenInFlight(o, c.sid), AckInFlight(a, c.sid), c.sid in a.refused, c.sid in a.mute))
      && c.state != Closed
  }

  lemma ForthFlight(k: Link)
    requires LinkOk(k) && k.near.Some?
    ensures (exists i :: 0 <= i < |k.forth.queue| && IsOpen(k.forth.queue[i])) <==> k.forth.taken == []
  {
    var c := k.near.value;
    OpenIsSilent(c.labelText.text, c.protocol.text, k.sid);
    if k.forth.taken == [] {
      assert k.forth.queue[0] == k.forth.sent[0];
    } else {
      forall i | 0 <= i < |k.forth.queue|
        ensures !IsOpen(k.forth.queue[i])
      {
        assert k.forth.queue[i] == k.forth.sent[1..][|k.forth.taken| + i - 1];
      }
    }
  }

  lemma BackPacket(k: Link, i: nat)
    requires LinkOk(k) && i < |k.back.sent|
    ensures if i == 0 && !k.mute then k.back.sent[i] == AckPacket(k.sid) else IsData(k.back.sent[i], k.sid)
  {
    if !k.mute && i > 0 {
      assert k.back.sent[i] == k.back.sent[1..][i - 1];
    }
  }

  lemma BackFlight(k: Link)
    requires LinkOk(k) && k.near.Some?
    ensures AckPacket(k.sid) in k.back.queue
       <==> k.back.taken == [] && k.far.Some? && !k.mute && k.forth.taken != [] && !k.refused
  {
    if k.back.sent != [] && !k.mute && k.back.taken == [] {
      assert k.back.queue[0] == k.back.sent[0];
    } else {
      forall i | 0 <= i < |k.back.queue|
        ensures k.back.queue[i] != AckPacket(k.sid)
      {
        assert k.back.queue[i] == k.back.sent[|k.back.taken| + i];
        BackPacket(k, |k.back.taken| + i);
      }
    }
  }

  lemma InvExplains(w: World)
    requires Inv(w)
    ensures Explained(w.me, w.other)
  {
    forall i | 0 <= i < |w.me.peer.chans| && w.me.peer.chans[i].sid in w.me.mine
      ensures var c := w.me.peer.chans[i];
        && (c.state == Connecting ==>
              ExactlyOne(OpenInFlight(w.me, c.sid), AckInFlight(w.other, c.sid),
                         c.sid in w.other.refused, c.sid in w.other.mute))
        && (c.state == Connected ==>
              NoneOf(OpenInFlight(w.me, c.sid), AckInFlight(w.other, c.sid),
                     c.sid in w.other.refused, c.sid in w.other.mute))
        && c.state != Closed
    {
      OwnLink(w, i);
      var k := LinkOf(w.me, w.other, w.me.peer.chans[i].sid);
      ForthFlight(k);
      BackFlight(k);
    }
  }

  /** In every reachable state each CONNECTING channel of its opener has its OPEN in
      flight, or its ACK in flight, or was refused, or was never acknowledged, and only
      one of these. */
  lemma RunExplains(role: Role, moves: seq<Move>)
    requires CarefulRun(Init(role), moves)
    ensures var w := Run(Init(role), moves);
      Explained(w.me, w.other) && Explained(w.other, w.me)
  {
    RunInv(role, moves);
    var w := Run(Init(role), moves);
    InvExplains(w);
    InvExplains(w.Flip());
  }

  /** The streams whose OPEN SCTP has taken from `o`. */
  ghost function OpensSent(o: Node): set<u16> {
    set sid: u16 | 0 <= sid < 0x1_0000 && exists i :: 0 <= i < |o.out[sid].sent| && IsOpen(o.out[sid].sent[i])
  }

  ghost function OpensInFlight(o: Node): set<u16> {
    set sid: u16 | 0 <= sid < 0x1_0000 && OpenInFlight(o, sid)
  }

  /** The streams of which `a` has a channel that it did not open. */
  ghost function OpensAccepted(a: Node): set<u16> {
    set i | 0 <= i < |a.peer.chans| && a.peer.chans[i].sid !in a.mine :: a.peer.chans[i].sid
  }

  lemma OpenSentIff(w: World, sid: u16)
    requires Inv(w)
    ensures (exists i :: 0 <= i < |w.me.out[sid].sent| && IsOpen(w.me.out[sid].sent[i])) <==> sid in w.me.mine
    ensures OpenInFlight(w.me, sid) <==> sid in w.me.mine && w.me.out[sid].taken == []
    ensures sid in OpensAccepted(w.other) <==>
      sid in w.me.mine && w.me.out[sid].taken != [] && sid !in w.other.refused
    ensures sid in w.other.refused ==> sid in w.me.mine && w.me.out[sid].taken != []
  {
    var pipe := w.me.out[sid];
    LookupNone(w.other.peer.chans, sid);
    if sid % 2 == w.me.peer.role.Parity() {
      var k := LinkOf(w.me, w.other, sid);
      assert LinkOk(k);
      if k.near.Some? {
        ForthFlight(k);
        OpenIsSilent(k.near.value.labelText.text, k.near.value.protocol.text, sid);
        assert IsOpen(pipe.sent[0]);
      }
    } else {
      NoOpenBack(LinkOf(w.other, w.me, sid));
    }
  }

  /** The acceptor of a stream sends no OPEN on it. */
  lemma NoOpenBack(k: Link)
    requires LinkOk(k)
    ensures forall i :: 0 <= i < |k.back.sent| ==> !IsOpen(k.back.sent[i])
    ensures forall i :: 0 <= i < |k.back.queue| ==> !IsOpen(k.back.queue[i])
  {
    forall i | 0 <= i < |k.back.sent|
      ensures !IsOpen(k.back.sent[i])
    {
      BackPacket(k, i);
    }
    forall i | 0 <= i < |k.back.queue|
      ensures !IsOpen(k.back.queue[i])
    {
      assert k.back.queue[i] == k.back.sent[|k.back.taken| + i];
    }
  }

  /** OPENs sent are the OPENs in flight, accepted and refused, each in one class; so
      the numbers add up. */
  ghost predicate Balanced(o: Node, a: Node) {
    && OpensSent(o) == o.mine == OpensInFlight(o) + OpensAccepted(a) + a.refused
    && |OpensSent(o)| == |OpensInFlight(o)| + |OpensAccepted(a)| + |a.refused|
  }

  lemma InvBalanced(w: World)
    requires Inv(w)
    ensures Balanced(w.me, w.other)
  {
    var sent, flying, accepted, refused :=
      OpensSent(w.me), OpensInFlight(w.me), OpensAccepted(w.other), w.other.refused;
    forall sid: u16
      ensures sid in sent <==> sid in w.me.mine
      ensures sid in sent <==> sid in flying || sid in accepted || sid in refused
      ensures !(sid in flying && sid in accepted) && !(sid in flying && sid in refused)
      ensures !(sid in accepted && sid in refused)
    {
      OpenSentIff(w, sid);
    }
    assert sent == w.me.mine;
    assert sent == flying + accepted + refused;
    assert flying !! accepted && (flying + accepted) !! refused;
  }

  lemma {:induction false} RunBalanced(role: Role, moves: seq<Move>)
    requires CarefulRun(Init(role), moves)
    ensures var w := Run(Init(role), moves);
      Balanced(w.me, w.other) && Balanced(w.other, w.me)
  {
    RunInv(role, moves);
    var w := Run(Init(role), moves);
    InvBalanced(w);
    InvBalanced(w.Flip());
  }

  // Delivery

  /** On every stream from `o` to `a`: what the channel at `a` was given is a prefix of
      the non-empty messages that SCTP took from `o`, in order and with their types,
      and all of them once the queue is empty; nothing after a refused OPEN. */
  ghost predicate Delivers(o: Node, a: Node) {
    forall sid: u16 ::
      var pipe := o.out[sid];
      if sid in a.refused then pipe.given == []
      else pipe.given <= NonEmpty(pipe.posted) && (pipe.queue == [] ==> pipe.given == NonEmpty(pipe.posted))
  }

  lemma PipeDelivers(pipe: Pipe)
    requires PipeOk(pipe) && pipe.given == Messages(pipe.taken)
    ensures pipe.given <= NonEmpty(pipe.posted)
    ensures pipe.queue == [] ==> pipe.given == NonEmpty(pipe.posted)
  {
    MessagesAppend(pipe.taken, pipe.queue);
    if pipe.queue == [] {
      assert pipe.taken + pipe.queue == pipe.taken;
    }
  }

  lemma InvDelivers(w: World)
    requires Inv(w)
    ensures Delivers(w.me, w.other)
  {
    forall sid: u16
      ensures var pipe := w.me.out[sid];
        if sid in w.other.refused then pipe.given == []
        else pipe.given <= NonEmpty(pipe.posted) && (pipe.queue == [] ==> pipe.given == NonEmpty(pipe.posted))
    {
      var pipe := w.me.out[sid];
      if sid % 2 == w.me.peer.role.Parity() {
        assert LinkOk(LinkOf(w.me, w.other, sid));
      } else {
        assert LinkOk(LinkOf(w.other, w.me, sid));
      }
      if sid !in w.other.refused {
        PipeDelivers(pipe);
      }
    }
  }

  lemma RunDelivers(role: Role, moves: seq<Move>)
    requires CarefulRun(Init(role), moves)
    ensures var w := Run(Init(role), moves);
      Delivers(w.me, w.other) && Delivers(w.other, w.me)
  {
    RunInv(role, moves);
    var w := Run(Init(role), moves);
    InvDelivers(w);
    InvDelivers(w.Flip());
  }

  // Stream numbers

  /** No two channels of a table share a stream; a channel has a stream of its
      peer's own parity exactly if the peer opened it. */
  ghost predicate SidsOk(n: Node) {
    && Distinct(n.peer.chans)
    && forall i :: 0 <= i < |n.peer.chans| ==>
         (n.peer.chans[i].sid in n.mine <==> n.peer.chans[i].sid % 2 == n.peer.role.Parity())
  }

  lemma InvSids(w: World)
    requires Inv(w)
    ensures SidsOk(w.me)
    ensures w.me.failed == 0 ==> forall sid :: sid in w.me.mine ==> sid < 256
  {
    var p := w.me.peer;
    CountAtMost(p.chans, p.role.Parity());
    forall i | 0 <= i < |p.chans|
      ensures p.chans[i].sid in w.me.mine <==> p.chans[i].sid % 2 == p.role.Parity()
    {
      FindUnique(p.chans, i);
    }
    forall sid | sid in w.me.mine && w.me.failed == 0
      ensures sid < 256
    {
      var i := Find(p.chans, sid);
      assert p.chans[i].sid == sid < p.cursor;
    }
  }

  /** Stream numbers are unique in each table and tell who opened the channel; and
      as long as no creation failed they stay below the number of outgoing streams
      that the transport asks for. */
  lemma RunSids(role: Role, moves: seq<Move>)
    requires CarefulRun(Init(role), moves)
    ensures var w := Run(Init(role), moves);
      && SidsOk(w.me) && SidsOk(w.other)
      && (w.me.failed == 0 ==> forall sid :: sid in w.me.mine ==> sid < 256)
      && (w.other.failed == 0 ==> forall sid :: sid in w.other.mine ==> sid < 256)
  {
    RunInv(role, moves);
    var w := Run(Init(role), moves);
    InvSids(w);
    InvSids(w.Flip());
  }

  // Slots

  /** Slots are never freed or moved: each channel keeps its slot and all its fields
      but the state, and CONNECTED is final. */
  predicate Extends(old_: seq<Channel>, new_: seq<Channel>) {
    && |old_| <= |new_|
    && forall i :: 0 <= i < |old_| ==>
         && new_[i].(state := old_[i].state) == old_[i]
         && (old_[i].state == Connected ==> new_[i].state == Connected)
  }

  lemma ReceiveExtends(p: PeerState, packet: Packet, taken: bool)
    ensures Extends(p.chans, Receive(p, packet, taken).peer.chans)
  {
  }

  lemma StepExtends(w: World, move: Move)
    ensures Extends(w.me.peer.chans, Apply(w, move).me.peer.chans)
    ensures Extends(w.other.peer.chans, Apply(w, move).other.peer.chans)
  {
    var v := if move.first then w else w.Flip();
    match move.step
    case Start =>
    case Create(labelText, protocol, taken) =>
    case Send(slot, m, taken) =>
    case Deliver(sid, taken) =>
      if v.other.out[sid].queue != [] {
        ReceiveExtends(v.me.peer, v.other.out[sid].queue[0], taken);
      }
  }

  /** Whatever the creations, careful or not. */
  lemma {:induction false} RunExtends(w: World, moves: seq<Move>, more: seq<Move>)
    ensures Extends(Run(w, moves).me.peer.chans, Run(w, moves + more).me.peer.chans)
    ensures Extends(Run(w, moves).other.peer.chans, Run(w, moves + more).other.peer.chans)
  {
    if more == [] {
      assert moves + more == moves;
    } else {
      var front, last := more[..|more| - 1], more[|more| - 1];
      RunExtends(w, moves, front);
      StepExtends(Run(w, moves + front), last);
      assert (moves + more)[..|moves + more| - 1] == moves + front;
    }
  }
}
