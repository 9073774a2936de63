/** What one peer does to its channel table: the specification of src/dcep.c and
    of the channel part of src/rtcdc.c, one function for each call or callback. */
module Channels {
  import opened Bytes
  import opened Dcep

  const MAX_CHANNELS := 128
  const MAX_OUT_STREAM := 256

  datatype Role = Client | Server {
    function Opposite(): Role {
      if Client? then Server else Client
    }

    /** Streams opened by a client are even, by a server odd (section 6 of RFC 8832). */
    function Parity(): int {
      if Client? then 0 else 1
    }
  }

  /** `ready` is `sctp->handshake_done`; `chans` holds the occupied slots. */
  datatype PeerState = PeerState(role: Role, cursor: nat, ready: bool, chans: seq<Channel>)

  /** What `usrsctp_sendv` takes. */
  datatype Packet = Packet(sid: u16, ppid: int, data: seq<byte>)

  datatype DataType = String | Binary | Empty

  datatype Message = Message(dtype: DataType, data: seq<byte>)

  datatype Callback = OnChannel(sid: u16) | OnOpen(sid: u16) | OnMessage(sid: u16, msg: Message)

  /** The outcome of one call: the new peer, the packet that SCTP took (if any),
      the user callbacks made, and the return code. */
  datatype Effect = Effect(peer: PeerState, sent: seq<Packet>, calls: seq<Callback>, ret: int)

  /** The slot that a scan for `sid` stops at. */
  function Find(chans: seq<Channel>, sid: u16): (i: nat)
    ensures i <= |chans|
    ensures i < |chans| ==> chans[i].sid == sid
    ensures forall j :: 0 <= j < i ==> chans[j].sid != sid
  {
    if chans == [] || chans[0].sid == sid then 0 else 1 + Find(chans[1..], sid)
  }

  /** `send_sctp_message`: before the handshake it reports success and sends nothing;
      `taken` is the verdict of `usrsctp_sendv`. */
  function Transmit(ready: bool, packet: Packet, taken: bool): (r: (seq<Packet>, int)) {
    if !ready then ([], 0) else if taken then ([packet], 0) else ([], -1)
  }

  function SidAt(cursor: nat): u16 {
    cursor % 0x1_0000
  }

  function OpenedChannel(labelText: seq<byte>, protocol: seq<byte>, sid: u16): Channel {
    Channel(0, 0, 0, 0, Str(labelText), Str(protocol), Connecting, sid)
  }

  function OpenPacket(labelText: seq<byte>, protocol: seq<byte>, sid: u16): Packet {
    Packet(sid, CONTROL_PPID, OpenFor(labelText, protocol))
  }

  function AckPacket(sid: u16): Packet {
    Packet(sid, CONTROL_PPID, [DATA_CHANNEL_ACK])
  }

  /** Sends the OPEN and publishes the channel unless that failed. */
  function Offer(p: PeerState, ch: Channel, open: Packet, taken: bool): Effect {
    var (sent, ret) := Transmit(p.ready, open, taken);
    Effect(if ret < 0 then p else p.(chans := p.chans + [ch]), sent, [], ret)
  }

  /** `rtcdc_create_data_channel`; a failed send burns a stream number. */
  function CreateChannel(p: PeerState, labelText: seq<byte>, protocol: seq<byte>, taken: bool): Effect {
    if |p.chans| >= MAX_CHANNELS then Effect(p, [], [], -1)
    else
      var sid := SidAt(p.cursor);
      Offer(p.(cursor := p.cursor + 2), OpenedChannel(labelText, protocol, sid),
            OpenPacket(labelText, protocol, sid), taken)
  }

  /** The PPID of `rtcdc_send_message`; there is none for other data types. */
  function PpidFor(m: Message): Option<int> {
    match m.dtype
    case String => Some(if m.data == [] then STRING_EMPTY_PPID else STRING_PPID)
    case Binary => Some(if m.data == [] then BINARY_EMPTY_PPID else BINARY_PPID)
    case Empty => None
  }

  /** `rtcdc_send_message` on the channel in slot `i`, whatever its state. */
  function SendMessage(p: PeerState, i: nat, m: Message, taken: bool): Effect
    requires i < |p.chans|
  {
    match PpidFor(m)
    case None => Effect(p, [], [], -1)
    case Some(ppid) =>
      var (sent, ret) := Transmit(p.ready, Packet(p.chans[i].sid, ppid, m.data), taken);
      Effect(p, sent, [], ret)
  }

  /** Publishes a remote channel, tells the user, and answers with an ACK. */
  function Accept(p: PeerState, ch: Channel, taken: bool): Effect {
    Effect(p.(chans := p.chans + [ch]), Transmit(p.ready, AckPacket(ch.sid), taken).0, [OnChannel(ch.sid)], 0)
  }

  /** `handle_rtcdc_open_request` */
  function HandleOpen(p: PeerState, sid: u16, data: seq<byte>, taken: bool): Effect {
    if |data| < HEADER_SIZE || |p.chans| >= MAX_CHANNELS then Effect(p, [], [], 0)
    else Accept(p, AllocateChannel(data, sid), taken)
  }

  /** `handle_rtcdc_open_ack` */
  function HandleAck(p: PeerState, sid: u16): Effect {
    var i := Find(p.chans, sid);
    if i == |p.chans| then Effect(p, [], [], 0)
    else Effect(p.(chans := p.chans[i := p.chans[i].(state := Connected)]), [], [OnOpen(sid)], 0)
  }

  /** `handle_rtcdc_data` */
  function HandleData(p: PeerState, sid: u16, m: Message): Effect {
    var i := Find(p.chans, sid);
    if i == |p.chans| then Effect(p, [], [], 0)
    else
      var ch := p.chans[i];
      var woken := if ch.state == Closed then ch.(state := Connected) else ch;
      Effect(p.(chans := p.chans[i := woken]), [], [OnMessage(sid, m)], 0)
  }

  /** The data type that a receiver reads off the PPID. */
  function TypeOf(ppid: int): Option<DataType> {
    if ppid == STRING_PPID || ppid == STRING_PARTIAL_PPID then Some(String)
    else if ppid == BINARY_PPID || ppid == BINARY_PARTIAL_PPID then Some(Binary)
    else if ppid == STRING_EMPTY_PPID || ppid == BINARY_EMPTY_PPID then Some(Empty)
    else None
  }

  /** `handle_rtcdc_message` */
  function HandleMessage(p: PeerState, packet: Packet, taken: bool): Effect
    requires packet.data != []
  {
    if packet.ppid == CONTROL_PPID then
      if packet.data[0] == DATA_CHANNEL_OPEN then HandleOpen(p, packet.sid, packet.data, taken)
      else if packet.data[0] == DATA_CHANNEL_ACK then HandleAck(p, packet.sid)
      else Effect(p, [], [], 0)
    else
      match TypeOf(packet.ppid)
      case None => Effect(p, [], [], 0)
      case Some(dtype) => HandleData(p, packet.sid, Message(dtype, packet.data))
  }

  /** `sctp_data_received_cb`: SCTP hands over one packet; nothing of length zero
      gets past this point. */
  function Receive(p: PeerState, packet: Packet, taken: bool): Effect {
    if packet.data == [] then Effect(p, [], [], -1) else HandleMessage(p, packet, taken)
  }

  /** The role-dependent end of `startup_thread`. */
  function Connect(p: PeerState): PeerState {
    p.(cursor := p.role.Parity(), ready := true)
  }
}
