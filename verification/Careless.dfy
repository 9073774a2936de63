/** What a careless creation breaks: a channel created before the handshake is never
    announced. */
module Careless {
  import opened Bytes
  import opened Dcep
  import opened Channels
  import opened Network
  import opened Agreement
  import opened Steps
  import opened ChannelTheorems

  /** Nothing explains a CONNECTING channel on stream 0 of a peer that has not started. */
  lemma NothingOnStreamZero(w: World)
    requires Inv(w) && !w.me.peer.ready
    ensures NoneOf(OpenInFlight(w.me, 0), AckInFlight(w.other, 0), 0 in w.other.refused, 0 in w.other.mute)
  {
    OpenSentIff(w, 0);
    if w.me.peer.role.Client? {
      assert LinkOk(LinkOf(w.me, w.other, 0));
    } else {
      var k := LinkOf(w.other, w.me, 0);
      assert LinkOk(k);
      if k.near.Some? {
        ForthPackets(k);
      }
    }
  }

  /** The opener of a stream sends no ACK on it. */
  lemma ForthPackets(k: Link)
    requires LinkOk(k) && k.near.Some?
    ensures AckPacket(k.sid) !in k.forth.queue
  {
    var c, sent := k.near.value, k.forth.sent;
    OpenIsNoAck(c.labelText.text, c.protocol.text, k.sid);
    forall p | p in k.forth.queue
      ensures p != AckPacket(k.sid)
    {
      assert p in k.forth.taken + k.forth.queue;
      DataIsNoAck(sent, p, k.sid);
    }
  }

  lemma OpenIsNoAck(labelText: seq<byte>, protocol: seq<byte>, sid: u16)
    ensures OpenPacket(labelText, protocol, sid) != AckPacket(sid)
  {
    HeaderFields(OpenMessage(0, 0, 0, labelText, protocol));
  }

  lemma DataIsNoAck(sent: seq<Packet>, p: Packet, sid: u16)
    requires sent != [] && sent[0] != AckPacket(sid) && AllData(sent[1..], sid) && p in sent
    ensures p != AckPacket(sid)
  {
    if p != sent[0] {
      assert sent == [sent[0]] + sent[1..];
    }
  }

  /** With a free slot, an unwrapped cursor and texts that fit, a successful creation
      keeps every CONNECTING channel explained exactly if the handshake is done. */
  lemma CreateExplainedIff(w: World, labelText: seq<byte>, protocol: seq<byte>)
    requires Inv(w) && |w.me.peer.chans| < MAX_CHANNELS
    requires MayCreate(w.me.peer.(ready := true), labelText, protocol)
    ensures var w' := ActCreate(w, labelText, protocol, true);
      Explained(w'.me, w'.other) <==> w.me.peer.ready
  {
    var w' := ActCreate(w, labelText, protocol, true);
    if w.me.peer.ready {
      CreateKeeps(w, labelText, protocol, true);
      InvExplains(w');
    } else {
      NothingOnStreamZero(w);
      PutNothing(w.me.out, 0);
      var c := w'.me.peer.chans[|w.me.peer.chans|];
      assert c.sid == 0 && c.state == Connecting && c.sid in w'.me.mine;
    }
  }
}
