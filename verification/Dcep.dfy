/** The wire format of the data-channel establishment protocol
    (src/dcep.h, src/dcep.c; sections 5.1 and 5.2 of RFC 8832). */
module Dcep {
  import opened Bytes

  // Payload protocol identifiers, section 8 of RFC 8831.
  const CONTROL_PPID := 50
  const STRING_PPID := 51
  const BINARY_PARTIAL_PPID := 52
  const BINARY_PPID := 53
  const STRING_PARTIAL_PPID := 54
  const STRING_EMPTY_PPID := 56
  const BINARY_EMPTY_PPID := 57

  const DATA_CHANNEL_OPEN: byte := 0x03
  const DATA_CHANNEL_ACK: byte := 0x02
  const HEADER_SIZE := 12

  datatype ChannelState = Closed | Connecting | Connected

  /** The value of a `struct rtcdc_data_channel`, callbacks aside. */
  datatype Channel = Channel(
    ctype: byte, priority: u16, rtx: u32, lifetime: u32,
    labelText: CString, protocol: CString, state: ChannelState, sid: u16)

  /** A DATA_CHANNEL_OPEN message. */
  datatype OpenMessage = OpenMessage(
    ctype: byte, priority: u16, reliability: u32, labelText: seq<byte>, protocol: seq<byte>)

  /** The fixed part of an OPEN, section 5.1 of RFC 8832.  The length fields are
      16 bits wide: `htons(strlen(...))` drops the higher bits of a longer text. */
  function Header(m: OpenMessage): (s: seq<byte>)
    ensures |s| == HEADER_SIZE
  {
    [DATA_CHANNEL_OPEN, m.ctype] + PutU16(m.priority) + PutU32(m.reliability)
    + PutU16(|m.labelText| % 0x1_0000) + PutU16(|m.protocol| % 0x1_0000)
  }

  function Serialize(m: OpenMessage): (s: seq<byte>)
    ensures |s| == HEADER_SIZE + |m.labelText| + |m.protocol|
  {
    Header(m) + (m.labelText + m.protocol)
  }

  predicate Retransmits(ctype: byte) {
    ctype % 2 == 1
  }

  predicate Timed(ctype: byte) {
    ctype / 2 % 2 == 1
  }

  /** `strndup(s + from, n)`, or NULL when the length field is zero. */
  function DecodeText(data: seq<byte>, from: nat, n: u16): CString {
    if n == 0 then Null else Str(UntilNul(Slice(data, from, n)))
  }

  /** `allocate_new_data_channel`: the channel an acceptor makes of an OPEN. */
  function AllocateChannel(data: seq<byte>, sid: u16): Channel
    requires HEADER_SIZE <= |data|
  {
    var ctype := data[1];
    var reliability := GetU32(data, 4);
    var labelLength := GetU16(data, 8);
    Channel(
      ctype,
      GetU16(data, 2),
      if Retransmits(ctype) then reliability else 0,
      if !Retransmits(ctype) && Timed(ctype) then reliability else 0,
      DecodeText(data, HEADER_SIZE, labelLength),
      DecodeText(data, HEADER_SIZE + labelLength, GetU16(data, 10)),
      Connected,
      sid)
  }

  /** The header fields of a serialized OPEN, at their offsets. */
  lemma HeaderFields(m: OpenMessage)
    ensures var s := Serialize(m);
      && s[0] == DATA_CHANNEL_OPEN && s[1] == m.ctype
      && GetU16(s, 2) == m.priority && GetU32(s, 4) == m.reliability
      && GetU16(s, 8) == |m.labelText| % 0x1_0000 && GetU16(s, 10) == |m.protocol| % 0x1_0000
      && s[HEADER_SIZE..] == m.labelText + m.protocol
  {
    var s := Serialize(m);
    var h := Header(m);
    forall i | 0 <= i < HEADER_SIZE
      ensures s[i] == h[i]
    {
    }
  }

  lemma SliceText(m: OpenMessage)
    requires |m.labelText| < 0x1_0000 && |m.protocol| < 0x1_0000
    ensures var s := Serialize(m);
      && Slice(s, HEADER_SIZE, |m.labelText|) == m.labelText
      && Slice(s, HEADER_SIZE + |m.labelText|, |m.protocol|) == m.protocol
  {
    var s := Serialize(m);
    HeaderFields(m);
    var body := s[HEADER_SIZE..];
    assert s[HEADER_SIZE + |m.labelText|..] == body[|m.labelText|..] == m.protocol;
    assert s[HEADER_SIZE..HEADER_SIZE + |m.labelText|] == body[..|m.labelText|] == m.labelText;
  }

  /** What the accepting side must recover from an OPEN; the reliability
      parameter goes to the field that the channel type selects. */
  ghost predicate Recovers(c: Channel, m: OpenMessage) {
    && c.ctype == m.ctype && c.priority == m.priority
    && c.rtx == (if Retransmits(m.ctype) then m.reliability else 0)
    && c.lifetime == (if !Retransmits(m.ctype) && Timed(m.ctype) then m.reliability else 0)
    && c.labelText.Text() == m.labelText && c.protocol.Text() == m.protocol
  }

  /** Round trip: an OPEN with C strings for texts is recovered exactly when both
      texts fit their 16-bit length fields. */
  lemma DecodeRecoversIff(m: OpenMessage, sid: u16)
    requires NulFree(m.labelText) && NulFree(m.protocol)
    ensures Recovers(AllocateChannel(Serialize(m), sid), m)
      <==> |m.labelText| < 0x1_0000 && |m.protocol| < 0x1_0000
  {
    HeaderFields(m);
    if |m.labelText| < 0x1_0000 && |m.protocol| < 0x1_0000 {
      SliceText(m);
      FieldsRecover(Serialize(m), m, sid);
    } else {
      TextIsShort(Serialize(m), HEADER_SIZE, |m.labelText| % 0x1_0000);
      TextIsShort(Serialize(m), HEADER_SIZE + |m.labelText| % 0x1_0000, |m.protocol| % 0x1_0000);
    }
  }

  /** Bytes that hold the fields of `m` at their offsets decode to `m`. */
  lemma FieldsRecover(s: seq<byte>, m: OpenMessage, sid: u16)
    requires NulFree(m.labelText) && NulFree(m.protocol)
    requires HEADER_SIZE <= |s|
    requires s[1] == m.ctype && GetU16(s, 2) == m.priority && GetU32(s, 4) == m.reliability
    requires GetU16(s, 8) == |m.labelText| && GetU16(s, 10) == |m.protocol|
    requires Slice(s, HEADER_SIZE, |m.labelText|) == m.labelText
    requires Slice(s, HEADER_SIZE + |m.labelText|, |m.protocol|) == m.protocol
    ensures Recovers(AllocateChannel(s, sid), m)
  {
    UntilNulExact(m.labelText);
    UntilNulExact(m.protocol);
  }

  lemma TextIsShort(data: seq<byte>, from: nat, n: u16)
    ensures |DecodeText(data, from, n).Text()| <= n
  {
  }

  /** The OPEN that `rtcdc_create_data_channel` builds. */
  function OpenFor(labelText: seq<byte>, protocol: seq<byte>): seq<byte> {
    Serialize(OpenMessage(0, 0, 0, labelText, protocol))
  }

  method StoreU16(a: array<byte>, at: nat, n: u16)
    requires at + 2 <= a.Length
    modifies a
    ensures a[at] == PutU16(n)[0] && a[at + 1] == PutU16(n)[1]
    ensures forall k :: 0 <= k < a.Length && k != at && k != at + 1 ==> a[k] == old(a[k])
  {
    a[at] := n / 0x100;
    a[at + 1] := n % 0x100;
  }

  method CopyInto(a: array<byte>, at: nat, text: seq<byte>)
    requires at + |text| <= a.Length
    modifies a
    ensures a[at..at + |text|] == text
    ensures a[..at] == old(a[..at]) && a[at + |text|..] == old(a[at + |text|..])
  {
    for i := 0 to |text|
      invariant forall k :: 0 <= k < i ==> a[at + k] == text[k]
      invariant forall k :: 0 <= k < at || at + i <= k < a.Length ==> a[k] == old(a[k])
    {
      a[at + i] := text[i];
    }
  }

  /** The field assignments of `rtcdc_create_data_channel`. */
  method FillHeader(req: array<byte>, labelLength: nat, protocolLength: nat)
    requires HEADER_SIZE <= req.Length
    requires forall k :: 0 <= k < req.Length ==> req[k] == 0
    modifies req
    ensures req[0] == DATA_CHANNEL_OPEN && forall k :: 1 <= k < 8 ==> req[k] == 0
    ensures req[8..10] == PutU16(labelLength % 0x1_0000)
    ensures req[10..12] == PutU16(protocolLength % 0x1_0000)
  {
    req[0] := DATA_CHANNEL_OPEN;
    req[1] := 0;
    StoreU16(req, 2, 0);
    StoreU16(req, 4, 0);
    StoreU16(req, 6, 0);
    StoreU16(req, 8, labelLength % 0x1_0000);
    StoreU16(req, 10, protocolLength % 0x1_0000);
  }

  lemma HeaderAssembled(s: seq<byte>, labelText: seq<byte>, protocol: seq<byte>)
    requires |s| == HEADER_SIZE
    requires s[0] == DATA_CHANNEL_OPEN && forall k :: 1 <= k < 8 ==> s[k] == 0
    requires s[8..10] == PutU16(|labelText| % 0x1_0000)
    requires s[10..12] == PutU16(|protocol| % 0x1_0000)
    ensures s == Header(OpenMessage(0, 0, 0, labelText, protocol))
  {
    assert s[8] == s[8..10][0] && s[9] == s[8..10][1];
    assert s[10] == s[10..12][0] && s[11] == s[10..12][1];
  }

  /** The request buffer of `rtcdc_create_data_channel`: zeroed, then filled field
      by field. */
  method BuildOpen(labelText: seq<byte>, protocol: seq<byte>) returns (req: array<byte>)
    ensures fresh(req)
    ensures req[..] == OpenFor(labelText, protocol)
  {
    var end := HEADER_SIZE + |labelText|;
    req := new byte[end + |protocol|](_ => 0);
    FillHeader(req, |labelText|, |protocol|);
    ghost var header := req[..HEADER_SIZE];
    assert header[8..10] == req[8..10] && header[10..12] == req[10..12];
    HeaderAssembled(header, labelText, protocol);
    CopyInto(req, HEADER_SIZE, labelText);
    ghost var front := req[..end];
    assert front == header + labelText;
    CopyInto(req, end, protocol);
    assert req[..] == front + protocol;
    assert front + protocol == header + (labelText + protocol);
  }
}
