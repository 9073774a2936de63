/** Every careful step keeps the invariant.  First the life of one stream, event by
    event; then the steps of a peer. */
module Preservation {
  import opened Bytes
  import opened Dcep
  import opened Channels
  import opened Network
  import opened Agreement

  // One stream

  function Queued(pipe: Pipe, packets: seq<Packet>, posted: seq<Message>): Pipe {
    pipe.(posted := pipe.posted + posted, sent := pipe.sent + packets, queue := pipe.queue + packets)
  }

  lemma AllDataAppend(ps: seq<Packet>, p: Packet, sid: u16)
    requires AllData(ps, sid) && IsData(p, sid)
    ensures AllData(ps + [p], sid)
  {
  }

  lemma OpenIsSilent(labelText: seq<byte>, protocol: seq<byte>, sid: u16)
    ensures var p := OpenPacket(labelText, protocol, sid);
      IsOpen(p) && |p.data| >= HEADER_SIZE && Decoded(p) == []
  {
    HeaderFields(OpenMessage(0, 0, 0, labelText, protocol));
  }

  lemma LinkCreated(k: Link, labelText: seq<byte>, protocol: seq<byte>)
    requires LinkOk(k) && k.near.None?
    requires |labelText| < 0x1_0000 && |protocol| < 0x1_0000 && NulFree(labelText) && NulFree(protocol)
    ensures LinkOk(k.(near := Some(OpenedChannel(labelText, protocol, k.sid)),
                      forth := Queued(k.forth, [OpenPacket(labelText, protocol, k.sid)], [])))
  {
    var p := OpenPacket(labelText, protocol, k.sid);
    OpenIsSilent(labelText, protocol, k.sid);
    PipeQueued(k.forth, p, []);
    assert k.back.taken == [];
  }

  lemma LinkForthSent(k: Link, p: Packet, m: Message)
    requires LinkOk(k) && k.near.Some? && IsData(p, k.sid) && Decoded(p) == NonEmpty([m])
    ensures LinkOk(k.(forth := Queued(k.forth, [p], [m])))
  {
    PipeQueued(k.forth, p, [m]);
    TailAppend(k.forth.sent, p, k.sid);
  }

  /** Data after the first packet stays data. */
  lemma TailAppend(sent: seq<Packet>, p: Packet, sid: u16)
    requires sent != [] && AllData(sent[1..], sid) && IsData(p, sid)
    ensures (sent + [p])[0] == sent[0] && AllData((sent + [p])[1..], sid)
  {
    assert (sent + [p])[1..] == sent[1..] + [p];
    AllDataAppend(sent[1..], p, sid);
  }

  lemma LinkBackSent(k: Link, p: Packet, m: Message)
    requires LinkOk(k) && k.far.Some? && IsData(p, k.sid) && Decoded(p) == NonEmpty([m])
    ensures LinkOk(k.(back := Queued(k.back, [p], [m])))
  {
    PipeQueued(k.back, p, [m]);
    if k.mute {
      AllDataAppend(k.back.sent, p, k.sid);
    } else {
      TailAppend(k.back.sent, p, k.sid);
    }
  }

  /** A queue on the way back has an accepted channel behind it, and its head is the
      ACK or data. */
  lemma BackHead(k: Link)
    requires LinkOk(k) && k.back.queue != []
    ensures k.near.Some? && k.far.Some? && k.forth.taken != [] && !k.refused && Accepted(k, k.near.value)
    ensures k.back.queue[0] == k.back.sent[|k.back.taken|]
    ensures if !k.mute && k.back.taken == [] then k.back.queue[0] == AckPacket(k.sid)
            else IsData(k.back.queue[0], k.sid)
  {
    assert k.back.sent != [];
    var i := |k.back.taken|;
    assert k.back.queue[0] == k.back.sent[i];
    if !k.mute && i > 0 {
      assert k.back.sent[i] == k.back.sent[1..][i - 1];
    }
  }

  lemma LinkAckTaken(k: Link)
    requires LinkOk(k) && k.back.queue != [] && k.back.queue[0] == AckPacket(k.sid)
    ensures k.near.Some?
    ensures LinkOk(k.(near := Some(k.near.value.(state := Connected)), back := Advance(k.back, [])))
  {
    AckIsFirst(k);
    PipeGiven(k.back);
    AckAccepted(k, Advance(k.back, []));
  }

  lemma AckIsFirst(k: Link)
    requires LinkOk(k) && k.back.queue != [] && k.back.queue[0] == AckPacket(k.sid)
    ensures k.near.Some? && k.forth.taken != [] && !k.refused && !k.mute
    ensures k.back.given == Messages(k.back.taken) && Decoded(k.back.queue[0]) == []
  {
    BackHead(k);
  }

  lemma AckAccepted(k: Link, back': Pipe)
    requires LinkOk(k) && k.near.Some? && k.forth.taken != [] && !k.refused && !k.mute
    requires PipeOk(back') && back'.sent == k.back.sent && back'.taken != [] && back'.given == Messages(back'.taken)
    ensures LinkOk(k.(near := Some(k.near.value.(state := Connected)), back := back'))
  {
    assert Accepted(k, k.near.value);
  }

  lemma LinkBackTaken(k: Link)
    requires LinkOk(k) && k.back.queue != [] && IsData(k.back.queue[0], k.sid)
    ensures LinkOk(k.(back := Advance(k.back, Decoded(k.back.queue[0]))))
  {
    DataAfterAck(k);
    PipeGiven(k.back);
    BackAccepted(k, Advance(k.back, Decoded(k.back.queue[0])));
  }

  lemma DataAfterAck(k: Link)
    requires LinkOk(k) && k.back.queue != [] && IsData(k.back.queue[0], k.sid)
    ensures k.near.Some? && k.forth.taken != [] && !k.refused && k.back.given == Messages(k.back.taken)
    ensures !k.mute ==> k.back.taken != []
  {
    BackHead(k);
  }

  /** All that was taken was given on. */
  lemma PipeGiven(pipe: Pipe)
    requires PipeOk(pipe) && pipe.queue != [] && pipe.given == Messages(pipe.taken)
    ensures var next := Advance(pipe, Decoded(pipe.queue[0]));
      PipeOk(next) && next.sent == pipe.sent && next.taken != [] && next.given == Messages(next.taken)
  {
    PipeAdvanced(pipe, Decoded(pipe.queue[0]));
  }

  lemma BackAccepted(k: Link, back': Pipe)
    requires LinkOk(k) && k.near.Some? && k.forth.taken != [] && !k.refused && (!k.mute ==> k.back.taken != [])
    requires PipeOk(back') && back'.sent == k.back.sent && back'.taken != [] && back'.given == Messages(back'.taken)
    ensures LinkOk(k.(back := back'))
  {
    assert Accepted(k, k.near.value);
  }

  lemma ForthHead(k: Link)
    requires LinkOk(k) && k.forth.queue != []
    ensures k.near.Some?
    ensures if k.forth.taken == [] then
              k.forth.queue[0] == OpenPacket(k.near.value.labelText.text, k.near.value.protocol.text, k.sid)
            else IsData(k.forth.queue[0], k.sid)
  {
    assert k.forth.sent != [];
    var i := |k.forth.taken|;
    assert k.forth.queue[0] == k.forth.sent[i];
    if i > 0 {
      assert k.forth.sent[i] == k.forth.sent[1..][i - 1];
    }
  }

  lemma DataAfterOpen(k: Link)
    requires LinkOk(k) && k.forth.queue != [] && IsData(k.forth.queue[0], k.sid)
    ensures k.forth.taken != []
  {
    ForthHead(k);
    if k.near.Some? {
      OpenIsSilent(k.near.value.labelText.text, k.near.value.protocol.text, k.sid);
    }
  }

  lemma LinkOpenRefused(k: Link)
    requires LinkOk(k) && k.forth.queue != [] && k.forth.taken == []
    ensures LinkOk(k.(forth := Advance(k.forth, []), refused := true))
  {
    ForthHead(k);
    PipeAdvanced(k.forth, []);
  }

  /** The acceptor's copy of a channel, made of the OPEN. */
  lemma AllocateAgrees(c: Channel, sid: u16)
    requires Opened(c, sid)
    ensures var d := AllocateChannel(OpenFor(c.labelText.text, c.protocol.text), sid);
      Agree(c, d) && d.state == Connected && d.sid == sid
  {
    DecodeRecoversIff(OpenMessage(0, 0, 0, c.labelText.text, c.protocol.text), sid);
  }

  lemma LinkOpenAccepted(k: Link, d: Channel, acked: bool)
    requires LinkOk(k) && k.forth.queue != [] && k.forth.taken == []
    requires k.near.Some? && Agree(k.near.value, d) && d.state == Connected
    ensures LinkOk(k.(far := Some(d), forth := Advance(k.forth, []),
                      back := Queued(k.back, if acked then [AckPacket(k.sid)] else [], []), mute := !acked))
  {
    ForthHead(k);
    var c := k.near.value;
    OpenIsSilent(c.labelText.text, c.protocol.text, k.sid);
    PipeAdvanced(k.forth, []);
    assert Messages(k.forth.taken) == [];
    assert k.back.taken == [];
    if acked {
      PipeQueued(k.back, AckPacket(k.sid), []);
    } else {
      assert Queued(k.back, [], []) == k.back;
    }
  }

  lemma LinkForthTaken(k: Link, given: seq<Message>)
    requires LinkOk(k) && k.forth.queue != [] && k.forth.taken != []
    requires given == if k.far.None? then [] else Decoded(k.forth.queue[0])
    ensures LinkOk(k.(forth := Advance(k.forth, given)))
  {
    ForthHead(k);
    PipeAdvanced(k.forth, given);
  }
}
