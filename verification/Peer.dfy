/** The peer connection as the source keeps it: a table of 128 channel slots that
    every call scans, and a stream cursor. */
module PeerConnection {
  import opened Bytes
  import opened Dcep
  import opened Channels
  import opened CallLaws

  /** `struct rtcdc_data_channel` */
  class DataChannel {
    const ctype: byte
    const priority: u16
    const rtx: u32
    const lifetime: u32
    const labelText: CString
    const protocol: CString
    const sid: u16
    var state: ChannelState

    constructor (c: Channel)
      ensures Info() == c
    {
      ctype, priority, rtx, lifetime := c.ctype, c.priority, c.rtx, c.lifetime;
      labelText, protocol, sid, state := c.labelText, c.protocol, c.sid, c.state;
    }

    function Info(): Channel
      reads this
    {
      Channel(ctype, priority, rtx, lifetime, labelText, protocol, state, sid)
    }
  }

  /** `struct rtcdc_peer_connection` */
  class Peer {
    const channels: array<DataChannel?>
    var role: Role
    var streamCursor: nat
    var handshakeDone: bool
    // Everything SCTP has taken from this peer, and every callback made to its user.
    var wire: seq<Packet>
    var calls: seq<Callback>
    // The occupied slots, in order, and what their channels hold.
    ghost var table: seq<DataChannel>
    ghost var infos: seq<Channel>

    /** The occupied slots are the first ones, and no channel has two slots. */
    ghost predicate Valid()
      reads this, channels, set ch | ch in table
    {
      && channels.Length == MAX_CHANNELS
      && |infos| == |table| <= MAX_CHANNELS
      && (forall i :: 0 <= i < |table| ==> channels[i] == table[i])
      && (forall i :: |table| <= i < MAX_CHANNELS ==> channels[i] == null)
      && (forall i, j :: 0 <= i < j < |table| ==> table[i] != table[j])
      && (forall i :: 0 <= i < |table| ==> table[i].Info() == infos[i])
    }

    ghost function View(): PeerState
      reads this
    {
      PeerState(role, streamCursor, handshakeDone, infos)
    }

    constructor (role: Role)
      ensures Valid() && table == [] && fresh(channels)
      ensures View() == PeerState(role, 0, false, [])
      ensures wire == [] && calls == []
    {
      channels := new DataChannel?[MAX_CHANNELS](_ => null);
      this.role := role;
      streamCursor, handshakeDone, wire, calls, table, infos := 0, false, [], [], [], [];
    }

    /** The scan for a free slot. */
    method FreeSlot() returns (i: nat)
      requires Valid()
      ensures i == |table|
    {
      i := 0;
      while i < MAX_CHANNELS && channels[i] != null
        invariant i <= |table|
      {
        i := i + 1;
      }
    }

    /** The scan for a channel; `MAX_CHANNELS` when there is none. */
    method SlotOf(sid: u16) returns (i: nat)
      requires Valid()
      ensures Find(infos, sid) == |table| ==> i == MAX_CHANNELS
      ensures Find(infos, sid) < |table| ==> i == Find(infos, sid)
    {
      ghost var at := Find(infos, sid);
      i := 0;
      while i < MAX_CHANNELS
        invariant i <= MAX_CHANNELS
        invariant i <= at || at == |table|
      {
        var ch := channels[i];
        if ch != null && ch.sid == sid {
          assert ch == table[i];
          return;
        }
        i := i + 1;
      }
    }

    /** `send_sctp_message` */
    method SendSctpMessage(sid: u16, ppid: int, data: seq<byte>, taken: bool) returns (ret: int)
      modifies this`wire
      ensures wire == old(wire) + Transmit(handshakeDone, Packet(sid, ppid, data), taken).0
      ensures ret == Transmit(handshakeDone, Packet(sid, ppid, data), taken).1
    {
      if handshakeDone {
        if !taken {
          assert wire == wire + [];
          return -1;
        }
        wire := wire + [Packet(sid, ppid, data)];
      }
      assert !handshakeDone ==> wire == wire + [];
      return 0;
    }

    /** Publishes a new channel in the free slot `i`. */
    method Publish(i: nat, ch: DataChannel)
      requires Valid() && i == |table| < MAX_CHANNELS && ch !in table
      modifies this`table, this`infos, channels
      ensures Valid() && table == old(table) + [ch]
      ensures infos == old(infos) + [ch.Info()]
    {
      channels[i] := ch;
      table := table + [ch];
      infos := infos + [ch.Info()];
    }

    /** The end of `rtcdc_create_data_channel`: send, then publish. */
    method SendAndPublish(i: nat, c: Channel, req: seq<byte>, taken: bool) returns (ch: DataChannel?)
      requires Valid() && i == |table| < MAX_CHANNELS
      modifies this`wire, this`table, this`infos, channels
      ensures Valid()
      ensures var e := Offer(old(View()), c, Packet(c.sid, CONTROL_PPID, req), taken);
        && View() == e.peer && wire == old(wire) + e.sent
        && (ch == null <==> e.ret < 0)
      ensures ch != null ==> fresh(ch) && table == old(table) + [ch]
      ensures ch == null ==> table == old(table)
    {
      var ret := SendSctpMessage(c.sid, CONTROL_PPID, req, taken);
      if ret < 0 {
        return null;
      }
      ch := new DataChannel(c);
      Publish(i, ch);
    }

    /** `rtcdc_create_data_channel` */
    method CreateDataChannel(labelText: seq<byte>, protocol: seq<byte>, taken: bool)
      returns (ch: DataChannel?)
      requires Valid()
      modifies this`streamCursor, this`wire, this`table, this`infos, channels
      ensures Valid()
      ensures var e := CreateChannel(old(View()), labelText, protocol, taken);
        && View() == e.peer && wire == old(wire) + e.sent
        && (ch == null <==> e.ret < 0)
      ensures ch != null ==> fresh(ch) && table == old(table) + [ch]
      ensures ch == null ==> table == old(table)
      ensures ch != null ==>
        && View().chans[..|old(View()).chans|] == old(View()).chans && |View().chans| == |old(View()).chans| + 1
        && AskedFor(View().chans[|old(View()).chans|], labelText, protocol, old(streamCursor) % 65536)
    {
      CreateLaw(View(), labelText, protocol, taken);
      var i := FreeSlot();
      if i == MAX_CHANNELS {
        assert wire == wire + [];
        return null;
      }
      var sid := streamCursor % 0x1_0000;
      streamCursor := streamCursor + 2;
      var req := BuildOpen(labelText, protocol);
      ch := SendAndPublish(i, OpenedChannel(labelText, protocol, sid), req[..], taken);
    }

    /** `rtcdc_send_message` */
    method Send(i: nat, m: Message, taken: bool) returns (ret: int)
      requires Valid() && i < |table|
      modifies this`wire
      ensures var e := SendMessage(View(), i, m, taken);
        wire == old(wire) + e.sent && ret == e.ret
    {
      var ppid;
      if m.dtype == String {
        ppid := if |m.data| == 0 then STRING_EMPTY_PPID else STRING_PPID;
      } else if m.dtype == Binary {
        ppid := if |m.data| == 0 then BINARY_EMPTY_PPID else BINARY_PPID;
      } else {
        return -1;
      }
      ret := SendSctpMessage(channels[i].sid, ppid, m.data, taken);
    }

    /** The end of `handle_rtcdc_open_request`: publish, call back, answer. */
    method AcceptChannel(i: nat, c: Channel, taken: bool)
      requires Valid() && i == |table| < MAX_CHANNELS
      modifies this`wire, this`calls, this`table, this`infos, channels
      ensures Valid()
      ensures var e := Accept(old(View()), c, taken);
        View() == e.peer && wire == old(wire) + e.sent && calls == old(calls) + e.calls
      ensures old(table) <= table
    {
      var ch := new DataChannel(c);
      Publish(i, ch);
      calls := calls + [OnChannel(c.sid)];
      var _ := SendSctpMessage(c.sid, CONTROL_PPID, [DATA_CHANNEL_ACK], taken);
    }

    /** `handle_rtcdc_open_request` */
    method HandleOpenRequest(sid: u16, data: seq<byte>, taken: bool)
      requires Valid()
      modifies this`wire, this`calls, this`table, this`infos, channels
      ensures Valid()
      ensures var e := HandleOpen(old(View()), sid, data, taken);
        View() == e.peer && wire == old(wire) + e.sent && calls == old(calls) + e.calls
      ensures old(table) <= table
    {
      if |data| < HEADER_SIZE {
        return;
      }
      var i := FreeSlot();
      if i < MAX_CHANNELS {
        AcceptChannel(i, AllocateChannel(data, sid), taken);
      }
    }

    /** `ch->state = CONNECTED` */
    method MarkConnected(i: nat)
      requires Valid() && i < |table|
      modifies this`infos, {table[i]}
      ensures Valid() && infos == old(infos)[i := old(infos)[i].(state := Connected)]
    {
      channels[i].state := Connected;
      infos := infos[i := infos[i].(state := Connected)];
    }

    /** `handle_rtcdc_open_ack` */
    method HandleOpenAck(sid: u16)
      requires Valid()
      modifies this`calls, this`infos, set ch | ch in table
      ensures Valid() && table == old(table)
      ensures var e := HandleAck(old(View()), sid);
        View() == e.peer && e.sent == [] && calls == old(calls) + e.calls
    {
      var i := SlotOf(sid);
      if i < MAX_CHANNELS {
        MarkConnected(i);
        calls := calls + [OnOpen(sid)];
      }
    }

    /** `handle_rtcdc_data` */
    method HandleDataMessage(sid: u16, m: Message)
      requires Valid()
      modifies this`calls, this`infos, set ch | ch in table
      ensures Valid() && table == old(table)
      ensures var e := HandleData(old(View()), sid, m);
        View() == e.peer && e.sent == [] && calls == old(calls) + e.calls
    {
      var i := SlotOf(sid);
      if i < MAX_CHANNELS {
        if channels[i].state == Closed {
          MarkConnected(i);
        }
        calls := calls + [OnMessage(sid, m)];
      }
    }

    /** `sctp_data_received_cb` and `handle_rtcdc_message` */
    method DataReceived(packet: Packet, taken: bool) returns (ret: int)
      requires Valid()
      modifies this`wire, this`calls, this`table, this`infos, channels, set ch | ch in table
      ensures Valid()
      ensures var e := Receive(old(View()), packet, taken);
        && View() == e.peer && wire == old(wire) + e.sent && calls == old(calls) + e.calls
        && ret == e.ret
      ensures old(table) <= table
    {
      if |packet.data| == 0 {
        return -1;
      }
      ret := 0;
      if packet.ppid == CONTROL_PPID {
        if packet.data[0] == DATA_CHANNEL_OPEN {
          HandleOpenRequest(packet.sid, packet.data, taken);
        } else if packet.data[0] == DATA_CHANNEL_ACK {
          HandleOpenAck(packet.sid);
        }
      } else if packet.ppid == STRING_PPID || packet.ppid == STRING_PARTIAL_PPID {
        HandleDataMessage(packet.sid, Message(String, packet.data));
      } else if packet.ppid == BINARY_PPID || packet.ppid == BINARY_PARTIAL_PPID {
        HandleDataMessage(packet.sid, Message(Binary, packet.data));
      } else if packet.ppid == STRING_EMPTY_PPID || packet.ppid == BINARY_EMPTY_PPID {
        HandleDataMessage(packet.sid, Message(Empty, packet.data));
      }
    }

    /** The tail of `startup_thread` once SCTP is connected or accepted. */
    method Start()
      modifies this`streamCursor, this`handshakeDone
      ensures View() == Connect(old(View()))
    {
      streamCursor := if role == Client then 0 else 1;
      handshakeDone := true;
    }
  }
}
