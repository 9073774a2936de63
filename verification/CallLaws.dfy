/** What each call and each packet does, in bytes and numbers. */
module CallLaws {
  import opened Bytes
  import opened Dcep
  import opened Channels

  // Numbers on the wire

  /** The number in two or four bytes, the high one first. */
  function Big16(a: int, b: int): int {
    a * 256 + b
  }

  function Big32(a: int, b: int, c: int, d: int): int {
    a * 0x100_0000 + b * 0x1_0000 + c * 0x100 + d
  }

  lemma U16Law(n: u16)
    ensures Big16(PutU16(n)[0], PutU16(n)[1]) == n && GetU16(PutU16(n), 0) == n
    ensures PutU16(0x1234) == [0x12, 0x34] && GetU16([0x12, 0x34], 0) == 0x1234
  {
  }

  lemma U32Law(n: u32)
    ensures Big32(PutU32(n)[0], PutU32(n)[1], PutU32(n)[2], PutU32(n)[3]) == n
    ensures GetU32(PutU32(n), 0) == n
  {
  }

  /** An OPEN, byte by byte (section 5.1 of RFC 8832). */
  lemma OpenBytes(m: OpenMessage)
    ensures var s := Serialize(m);
      && |s| == 12 + |m.labelText| + |m.protocol|
      && s[0] == 3 && s[1] == m.ctype && Big16(s[2], s[3]) == m.priority
      && Big32(s[4], s[5], s[6], s[7]) == m.reliability
      && Big16(s[8], s[9]) == |m.labelText| % 65536 && Big16(s[10], s[11]) == |m.protocol| % 65536
      && s[12..12 + |m.labelText|] == m.labelText && s[12 + |m.labelText|..] == m.protocol
  {
    OpenTexts(m);
    var s, h := Serialize(m), Header(m);
    assert forall i :: 0 <= i < 12 ==> s[i] == h[i];
    U32Law(m.reliability);
    assert h[4..8] == PutU32(m.reliability);
  }

  lemma OpenTexts(m: OpenMessage)
    ensures var s := Serialize(m);
      && |s| == 12 + |m.labelText| + |m.protocol| && s[0] == 3
      && Big16(s[8], s[9]) == |m.labelText| % 65536 && Big16(s[10], s[11]) == |m.protocol| % 65536
      && s[12..12 + |m.labelText|] == m.labelText && s[12 + |m.labelText|..] == m.protocol
  {
    var s, h, texts := Serialize(m), Header(m), m.labelText + m.protocol;
    assert s == h + texts && |h| == 12;
    assert forall i :: 0 <= i < 12 ==> s[i] == h[i];
    assert s[12..] == texts && texts[..|m.labelText|] == m.labelText && texts[|m.labelText|..] == m.protocol;
  }

  /** The channel made of an OPEN, field by field, for each of the channel types. */
  lemma AllocateLaw(s: seq<byte>, sid: u16)
    requires |s| >= 12
    ensures var c, reliability := AllocateChannel(s, sid), Big32(s[4], s[5], s[6], s[7]);
      && c.ctype == s[1] && c.priority == Big16(s[2], s[3]) && c.state == Connected && c.sid == sid
      && c.rtx == (if s[1] % 2 == 1 then reliability else 0)
      && c.lifetime == (if s[1] % 4 == 2 then reliability else 0)
  {
    ReliabilityLaw(s[1]);
    assert GetU32(s, 4) == Big32(s[4], s[5], s[6], s[7]);
  }

  lemma ReliabilityLaw(ctype: byte)
    ensures Retransmits(ctype) <==> ctype % 2 == 1
    ensures !Retransmits(ctype) && Timed(ctype) <==> ctype % 4 == 2
  {
  }

  // Calls of the user

  /** A channel as `rtcdc_create_data_channel` fills it. */
  predicate AskedFor(c: Channel, labelText: seq<byte>, protocol: seq<byte>, sid: int) {
    && c.labelText == Str(labelText) && c.protocol == Str(protocol) && c.sid == sid
    && c.ctype == 0 && c.priority == 0 && c.rtx == 0 && c.lifetime == 0 && c.state == Connecting
  }

  /** The OPEN for it. */
  predicate OpenAskedFor(p: Packet, labelText: seq<byte>, protocol: seq<byte>, sid: int) {
    && p.sid == sid && p.ppid == 50 && |p.data| == 12 + |labelText| + |protocol|
    && p.data[0] == 3 && p.data[1] == 0 && p.data[2] == 0 && p.data[3] == 0
    && p.data[4] == 0 && p.data[5] == 0 && p.data[6] == 0 && p.data[7] == 0
    && Big16(p.data[8], p.data[9]) == |labelText| % 65536 && Big16(p.data[10], p.data[11]) == |protocol| % 65536
    && p.data[12..12 + |labelText|] == labelText && p.data[12 + |labelText|..] == protocol
  }

  /** A creation that succeeds adds the channel asked for under the number of the cursor,
      and sends its OPEN if SCTP is up; one that fails adds and sends nothing; the cursor
      moves by two unless the table is full. */
  lemma CreateLaw(p: PeerState, labelText: seq<byte>, protocol: seq<byte>, taken: bool)
    ensures var e := CreateChannel(p, labelText, protocol, taken);
      && e.calls == [] && e.peer.role == p.role && e.peer.ready == p.ready
      && e.peer.cursor == (if |p.chans| < 128 then p.cursor + 2 else p.cursor)
      && if |p.chans| < 128 && (p.ready ==> taken) then
           && e.ret == 0 && |e.peer.chans| == |p.chans| + 1 && e.peer.chans[..|p.chans|] == p.chans
           && AskedFor(e.peer.chans[|p.chans|], labelText, protocol, p.cursor % 65536)
           && (if p.ready then |e.sent| == 1 && OpenAskedFor(e.sent[0], labelText, protocol, p.cursor % 65536)
               else e.sent == [])
         else e.ret == -1 && e.peer.chans == p.chans && e.sent == []
  {
    OpenForLaw(OpenMessage(0, 0, 0, labelText, protocol), SidAt(p.cursor));
  }

  lemma OpenForLaw(m: OpenMessage, sid: u16)
    requires m.ctype == 0 && m.priority == 0 && m.reliability == 0
    ensures OpenAskedFor(Packet(sid, 50, Serialize(m)), m.labelText, m.protocol, sid)
  {
    OpenTexts(m);
    ZeroFields(m);
    PlainOpen(Serialize(m), m.labelText, m.protocol, sid);
  }

  lemma ZeroFields(m: OpenMessage)
    requires m.ctype == 0 && m.priority == 0 && m.reliability == 0
    ensures var s := Serialize(m);
      s[1] == 0 && s[2] == 0 && s[3] == 0 && s[4] == 0 && s[5] == 0 && s[6] == 0 && s[7] == 0
  {
    var s, h := Serialize(m), Header(m);
    assert PutU16(m.priority) == [0, 0] && PutU16(m.reliability / 0x1_0000) == [0, 0];
    assert PutU16(m.reliability % 0x1_0000) == [0, 0];
    assert PutU32(m.reliability) == [0, 0] + [0, 0] == [0, 0, 0, 0];
    assert h[..8] == [DATA_CHANNEL_OPEN, m.ctype] + [0, 0] + [0, 0, 0, 0];
    assert forall i :: 0 <= i < 8 ==> s[i] == h[..8][i];
  }

  lemma PlainOpen(s: seq<byte>, labelText: seq<byte>, protocol: seq<byte>, sid: u16)
    requires |s| == 12 + |labelText| + |protocol| && s[0] == 3
    requires s[1] == 0 && s[2] == 0 && s[3] == 0 && s[4] == 0 && s[5] == 0 && s[6] == 0 && s[7] == 0
    requires Big16(s[8], s[9]) == |labelText| % 65536 && Big16(s[10], s[11]) == |protocol| % 65536
    requires s[12..12 + |labelText|] == labelText && s[12 + |labelText|..] == protocol
    ensures OpenAskedFor(Packet(sid, 50, s), labelText, protocol, sid)
  {
  }

  /** A message goes out as it is on the channel's stream, under the identifier of its type
      and never a partial one; the result is 0 unless the type is unknown or SCTP is up
      and does not take it. */
  lemma SendLaw(p: PeerState, i: nat, m: Message, taken: bool)
    requires i < |p.chans|
    ensures var e := SendMessage(p, i, m, taken);
      var ppid := if m.dtype == String then (if m.data == [] then 56 else 51) else if m.data == [] then 57 else 53;
      && e.peer == p && e.calls == []
      && e.ret == (if m.dtype == Empty || (p.ready && !taken) then -1 else 0)
      && e.sent == if m.dtype != Empty && p.ready && taken then [Packet(p.chans[i].sid, ppid, m.data)] else []
  {
  }

  // Packets from SCTP

  /** An OPEN of at least 12 bytes, when a slot is free, adds one channel, tells the user of
      it, and is answered with an ACK of one byte if SCTP takes it; otherwise nothing
      happens. */
  lemma OpenLaw(p: PeerState, packet: Packet, taken: bool)
    requires packet.data != [] && packet.ppid == 50 && packet.data[0] == 3
    ensures var e := Receive(p, packet, taken);
      if |packet.data| >= 12 && |p.chans| < 128 then
        && e.peer == p.(chans := p.chans + [AllocateChannel(packet.data, packet.sid)])
        && e.calls == [OnChannel(packet.sid)]
        && e.sent == (if p.ready && taken then [Packet(packet.sid, 50, [2])] else [])
      else e.peer == p && e.calls == [] && e.sent == []
  {
  }

  /** The first channel on the stream. */
  predicate First(chans: seq<Channel>, i: int, sid: int) {
    0 <= i < |chans| && chans[i].sid == sid && forall j :: 0 <= j < i ==> chans[j].sid != sid
  }

  /** An ACK connects the first channel of its stream and tells its user. */
  lemma AckLaw(p: PeerState, packet: Packet, taken: bool, i: nat)
    requires packet.data != [] && packet.ppid == 50 && packet.data[0] == 2 && First(p.chans, i, packet.sid)
    ensures Receive(p, packet, taken) ==
            Effect(p.(chans := p.chans[i := p.chans[i].(state := Connected)]), [], [OnOpen(packet.sid)], 0)
  {
  }

  /** Data wake a closed channel, and go to the first channel of their stream with the type
      of their identifier; other identifiers, and empty packets, do nothing. */
  lemma DataLaw(p: PeerState, packet: Packet, taken: bool, i: nat)
    requires First(p.chans, i, packet.sid) && packet.ppid != 50
    ensures var e, c := Receive(p, packet, taken), p.chans[i];
      && e.sent == []
      && if packet.data != [] && packet.ppid in {51, 52, 53, 54, 56, 57} then
           && e.peer == p.(chans := p.chans[i := if c.state == Closed then c.(state := Connected) else c])
           && e.calls == [OnMessage(packet.sid, Message(
                            if packet.ppid in {51, 54} then String else if packet.ppid in {52, 53} then Binary else Empty,
                            packet.data))]
         else e.peer == p && e.calls == []
  {
    assert p.chans[i := p.chans[i]] == p.chans;
  }

  /** Without a channel on the stream nothing happens, unless it is an OPEN. */
  lemma NoChannelLaw(p: PeerState, packet: Packet, taken: bool)
    requires (forall i :: 0 <= i < |p.chans| ==> p.chans[i].sid != packet.sid)
    requires packet.data == [] || packet.ppid != 50 || packet.data[0] != 3
    ensures var e := Receive(p, packet, taken); e.peer == p && e.sent == [] && e.calls == []
  {
  }

  // What the other peer makes of a creation

  /** Whatever peer accepts the OPEN of a creation has as its newest channel one with the
      label and the protocol that the creator was called with. */
  lemma AcceptedAsAsked(p: PeerState, q: PeerState, labelText: seq<byte>, protocol: seq<byte>, taken: bool)
    requires |p.chans| < 128 && p.ready && |q.chans| < 128
    requires |labelText| < 65536 && |protocol| < 65536 && NulFree(labelText) && NulFree(protocol)
    ensures var e := CreateChannel(p, labelText, protocol, true);
      |e.sent| == 1 && var a := Receive(q, e.sent[0], taken).peer.chans;
      && |a| == |q.chans| + 1 && a[..|q.chans|] == q.chans
      && var c := a[|q.chans|];
      && c.labelText.Text() == labelText && c.protocol.Text() == protocol && c.sid == p.cursor % 65536
      && c.ctype == 0 && c.priority == 0 && c.rtx == 0 && c.lifetime == 0 && c.state == Connected
  {
    CreateLaw(p, labelText, protocol, true);
    var packet := CreateChannel(p, labelText, protocol, true).sent[0];
    OpenLaw(q, packet, taken);
    TextsLaw(packet.data, labelText, protocol, packet.sid);
  }

  lemma TextsLaw(s: seq<byte>, labelText: seq<byte>, protocol: seq<byte>, sid: u16)
    requires |labelText| < 65536 && |protocol| < 65536 && NulFree(labelText) && NulFree(protocol)
    requires OpenAskedFor(Packet(sid, 50, s), labelText, protocol, sid)
    ensures var c := AllocateChannel(s, sid);
      && c.labelText.Text() == labelText && c.protocol.Text() == protocol
      && c.ctype == 0 && c.priority == 0 && c.rtx == 0 && c.lifetime == 0
  {
    LengthFields(s, |labelText|, |protocol|);
    AllocateLaw(s, sid);
    TextLaw(s, 12, labelText);
    TextLaw(s, 12 + |labelText|, protocol);
  }

  lemma LengthFields(s: seq<byte>, n: nat, m: nat)
    requires |s| >= 12 && n < 65536 && m < 65536
    requires Big16(s[8], s[9]) == n % 65536 && Big16(s[10], s[11]) == m % 65536
    ensures GetU16(s, 8) == n && GetU16(s, 10) == m
  {
  }

  lemma TextLaw(s: seq<byte>, from: nat, text: seq<byte>)
    requires from + |text| <= |s| && s[from..from + |text|] == text && |text| < 65536 && NulFree(text)
    ensures DecodeText(s, from, |text|).Text() == text
  {
    UntilNulExact(text);
    assert from + |text| == |s| ==> s[from..] == text;
    assert text != [] ==> Slice(s, from, |text|) == text;
  }
}
