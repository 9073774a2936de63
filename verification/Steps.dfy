/** Each step of a peer keeps the invariant, provided creations are careful. */
module Steps {
  import opened Bytes
  import opened Dcep
  import opened Channels
  import opened Network
  import opened Agreement
  import opened Preservation

  // Counting own channels

  lemma CountAppend(chans: seq<Channel>, c: Channel, parity: int)
    ensures CountOpened(chans + [c], parity)
         == CountOpened(chans, parity) + if c.sid % 2 == parity then 1 else 0
  {
    assert (chans + [c])[..|chans|] == chans;
  }

  lemma CountNone(chans: seq<Channel>, parity: int)
    requires forall i :: 0 <= i < |chans| ==> chans[i].sid % 2 != parity
    ensures CountOpened(chans, parity) == 0
  {
    if chans != [] {
      CountNone(chans[..|chans| - 1], parity);
    }
  }

  lemma CountAtMost(chans: seq<Channel>, parity: int)
    ensures CountOpened(chans, parity) <= |chans|
  {
    if chans != [] {
      CountAtMost(chans[..|chans| - 1], parity);
    }
  }

  lemma CountUpdate(chans: seq<Channel>, at: nat, c: Channel, parity: int)
    requires at < |chans| && c.sid == chans[at].sid
    ensures CountOpened(chans[at := c], parity) == CountOpened(chans, parity)
  {
    var last := |chans| - 1;
    if at == last {
      assert chans[at := c][..last] == chans[..last];
    } else {
      assert chans[at := c][..last] == chans[..last][at := c];
      CountUpdate(chans[..last], at, c, parity);
    }
  }

  // Frames

  lemma PutNothing(out: Pipes, sid: u16)
    ensures Put(out, sid, [], []) == out
  {
    assert Queued(out[sid], [], []) == out[sid];
  }

  lemma HalfSame(o: Node, a: Node, o': Node, a': Node)
    requires HalfOk(o, a) && o'.peer.role == o.peer.role
    requires forall t: u16 :: LinkOf(o', a', t) == LinkOf(o, a, t)
    ensures HalfOk(o', a')
  {
    forall t: u16 | t % 2 == o'.peer.role.Parity()
      ensures LinkOk(LinkOf(o', a', t))
    {
      assert LinkOk(LinkOf(o, a, t));
    }
  }

  /** No stream was touched. */
  lemma Unlinked(w: World, w': World)
    requires Inv(w) && NodeOk(w'.me) && NodeOk(w'.other)
    requires w'.me.peer.role == w.me.peer.role && w'.other.peer.role == w.other.peer.role
    requires forall t: u16 :: LinkOf(w'.me, w'.other, t) == LinkOf(w.me, w.other, t)
    requires forall t: u16 :: LinkOf(w'.other, w'.me, t) == LinkOf(w.other, w.me, t)
    ensures Inv(w')
  {
    HalfSame(w.me, w.other, w'.me, w'.other);
    HalfSame(w.other, w.me, w'.other, w'.me);
  }

  /** The stream `sid` and nothing else of a node's table and pipes may differ. */
  ghost predicate SameBut(n: Node, n': Node, sid: u16) {
    && n'.peer.role == n.peer.role
    && (forall t: u16 :: t != sid ==> Lookup(n'.peer.chans, t) == Lookup(n.peer.chans, t))
    && (forall t: u16 :: t != sid ==> n'.out[t] == n.out[t])
    && (forall t: u16 :: t != sid ==> (t in n'.refused <==> t in n.refused) && (t in n'.mute <==> t in n.mute))
  }

  lemma HalfTouched(o: Node, a: Node, o': Node, a': Node, sid: u16)
    requires HalfOk(o, a) && SameBut(o, o', sid) && SameBut(a, a', sid)
    requires sid % 2 == o.peer.role.Parity() ==> LinkOk(LinkOf(o', a', sid))
    ensures HalfOk(o', a')
  {
    forall t: u16 | t % 2 == o'.peer.role.Parity()
      ensures LinkOk(LinkOf(o', a', t))
    {
      if t != sid {
        assert LinkOk(LinkOf(o, a, t));
        assert LinkOf(o', a', t) == LinkOf(o, a, t);
      }
    }
  }

  /** Only stream `sid` was touched. */
  lemma Touched(w: World, w': World, sid: u16)
    requires Inv(w) && NodeOk(w'.me) && NodeOk(w'.other)
    requires SameBut(w.me, w'.me, sid) && SameBut(w.other, w'.other, sid)
    requires sid % 2 == w.me.peer.role.Parity() ==> LinkOk(LinkOf(w'.me, w'.other, sid))
    requires sid % 2 == w.other.peer.role.Parity() ==> LinkOk(LinkOf(w'.other, w'.me, sid))
    ensures Inv(w')
  {
    HalfTouched(w.me, w.other, w'.me, w'.other, sid);
    HalfTouched(w.other, w.me, w'.other, w'.me, sid);
  }

  // The steps

  lemma StartKeeps(w: World)
    requires Inv(w) && !w.me.peer.ready
    ensures Inv(ActStart(w))
  {
    var w' := ActStart(w);
    CountNone(w.me.peer.chans, w.me.peer.role.Parity());
    Unlinked(w, w');
  }

  lemma CreateFailedKeeps(w: World, w': World)
    requires Inv(w) && w.me.peer.ready && w.me.peer.cursor < 0x1_0000
    requires w' == w.(me := w.me.(peer := w.me.peer.(cursor := w.me.peer.cursor + 2), failed := w.me.failed + 1))
    ensures Inv(w')
  {
    Unlinked(w, w');
  }

  /** A new last channel on a stream that the table did not use. */
  lemma NodeExtended(n: Node, n': Node, c: Channel)
    requires NodeOk(n) && |n.peer.chans| < MAX_CHANNELS
    requires Lookup(n.peer.chans, c.sid) == None
    requires n'.peer.chans == n.peer.chans + [c] && n'.peer.role == n.peer.role && n'.peer.ready == n.peer.ready
    requires n'.failed == n.failed && n'.refused == n.refused
    requires n'.mute == n.mute || (n'.mute == n.mute + {c.sid} && c.sid % 2 != n.peer.role.Parity())
    requires if c.sid % 2 == n.peer.role.Parity()
             then n.peer.ready && n.peer.cursor == c.sid && n'.peer.cursor == n.peer.cursor + 2
                  && n'.mine == n.mine + {c.sid}
             else n'.peer.cursor == n.peer.cursor && n'.mine == n.mine
    ensures NodeOk(n')
    ensures forall t: u16 :: Lookup(n'.peer.chans, t) == if t == c.sid then Some(c) else Lookup(n.peer.chans, t)
  {
    LookupNone(n.peer.chans, c.sid);
    CountAppend(n.peer.chans, c, n.peer.role.Parity());
    forall t: u16
      ensures Lookup(n'.peer.chans, t) == if t == c.sid then Some(c) else Lookup(n.peer.chans, t)
    {
      LookupAppend(n.peer.chans, c, t);
    }
  }

  lemma CreateSentKeeps(w: World, w': World, labelText: seq<byte>, protocol: seq<byte>)
    requires Inv(w) && MayCreate(w.me.peer, labelText, protocol) && |w.me.peer.chans| < MAX_CHANNELS
    requires var me, sid := w.me, w.me.peer.cursor;
      w' == w.(me := me.(
        peer := me.peer.(cursor := sid + 2, chans := me.peer.chans + [OpenedChannel(labelText, protocol, sid)]),
        out := Put(me.out, sid, [OpenPacket(labelText, protocol, sid)], []),
        mine := me.mine + {sid}))
    ensures Inv(w')
  {
    var me, sid := w.me, w.me.peer.cursor;
    LookupNone(me.peer.chans, sid);
    NodeExtended(me, w'.me, OpenedChannel(labelText, protocol, sid));
    assert LinkOk(LinkOf(me, w.other, sid));
    LinkCreated(LinkOf(me, w.other, sid), labelText, protocol);
    Touched(w, w', sid);
  }

  lemma CreateKeeps(w: World, labelText: seq<byte>, protocol: seq<byte>, taken: bool)
    requires Inv(w) && MayCreate(w.me.peer, labelText, protocol)
    ensures Inv(ActCreate(w, labelText, protocol, taken))
  {
    var w' := ActCreate(w, labelText, protocol, taken);
    PutNothing(w.me.out, SidAt(w.me.peer.cursor));
    if |w.me.peer.chans| >= MAX_CHANNELS {
      assert w' == w;
    } else if !taken {
      CreateFailedKeeps(w, w');
    } else {
      CreateSentKeeps(w, w', labelText, protocol);
    }
  }

  lemma SentKeeps(w: World, w': World, sid: u16, p: Packet, m: Message)
    requires Inv(w) && Lookup(w.me.peer.chans, sid).Some?
    requires IsData(p, sid) && Decoded(p) == NonEmpty([m])
    requires w' == w.(me := w.me.(out := Put(w.me.out, sid, [p], [m])))
    ensures Inv(w')
  {
    if sid % 2 == w.me.peer.role.Parity() {
      SentForth(w, w', sid, p, m);
    } else {
      SentBack(w, w', sid, p, m);
    }
    SentSame(w.me, w'.me, sid, p, m);
    Touched(w, w', sid);
  }

  lemma SentSame(n: Node, n': Node, sid: u16, p: Packet, m: Message)
    requires NodeOk(n) && n' == n.(out := Put(n.out, sid, [p], [m]))
    ensures NodeOk(n') && SameBut(n, n', sid)
  {
  }

  lemma SentForth(w: World, w': World, sid: u16, p: Packet, m: Message)
    requires HalfOk(w.me, w.other) && Lookup(w.me.peer.chans, sid).Some? && sid % 2 == w.me.peer.role.Parity()
    requires IsData(p, sid) && Decoded(p) == NonEmpty([m])
    requires w' == w.(me := w.me.(out := Put(w.me.out, sid, [p], [m])))
    ensures LinkOk(LinkOf(w'.me, w'.other, sid))
  {
    var k := LinkOf(w.me, w.other, sid);
    LinkForthSent(k, p, m);
    assert LinkOf(w'.me, w'.other, sid) == k.(forth := Queued(k.forth, [p], [m]));
  }

  lemma SentBack(w: World, w': World, sid: u16, p: Packet, m: Message)
    requires HalfOk(w.other, w.me) && Lookup(w.me.peer.chans, sid).Some? && sid % 2 == w.other.peer.role.Parity()
    requires IsData(p, sid) && Decoded(p) == NonEmpty([m])
    requires w' == w.(me := w.me.(out := Put(w.me.out, sid, [p], [m])))
    ensures LinkOk(LinkOf(w'.other, w'.me, sid))
  {
    var k := LinkOf(w.other, w.me, sid);
    LinkBackSent(k, p, m);
    assert LinkOf(w'.other, w'.me, sid) == k.(back := Queued(k.back, [p], [m]));
  }

  lemma SendKeeps(w: World, slot: nat, m: Message, taken: bool)
    requires Inv(w)
    ensures Inv(ActSend(w, slot, m, taken))
  {
    var me, w' := w.me, ActSend(w, slot, m, taken);
    if slot < |me.peer.chans| {
      var sid := me.peer.chans[slot].sid;
      if !me.peer.ready || !taken || m.dtype.Empty? {
        PutNothing(me.out, sid);
      } else {
        PacketDecodes(m, sid);
        LookupNone(me.peer.chans, sid);
        SentKeeps(w, w', sid, Packet(sid, PpidFor(m).value, m.data), m);
      }
    }
  }

  /** A delivery that changes no table and answers nothing. */
  lemma QuietDelivery(w: World, w': World, sid: u16, given: seq<Message>)
    requires Inv(w) && w.other.out[sid].queue != []
    requires w'.me == w.me
    requires w'.other == w.other.(out := w.other.out[sid := Advance(w.other.out[sid], given)])
    requires sid % 2 == w.me.peer.role.Parity() ==> LinkOk(LinkOf(w'.me, w'.other, sid))
    requires sid % 2 == w.other.peer.role.Parity() ==> LinkOk(LinkOf(w'.other, w'.me, sid))
    ensures Inv(w')
  {
    Touched(w, w', sid);
  }

  /** What the receiver makes of a data packet. */
  lemma DataReceipt(me: Node, p: Packet, taken: bool)
    requires IsData(p, p.sid)
    requires forall i :: 0 <= i < |me.peer.chans| ==> me.peer.chans[i].state != Closed
    ensures var e := Receive(me.peer, p, taken);
      && e.peer == me.peer && e.sent == []
      && Given(e.calls) == (if Lookup(me.peer.chans, p.sid).None? then [] else Decoded(p))
      && Arrive(me, p.sid, p, e) == me
  {
    PutNothing(me.out, p.sid);
    var i := Find(me.peer.chans, p.sid);
    if i < |me.peer.chans| {
      assert me.peer.chans[i := me.peer.chans[i]] == me.peer.chans;
    }
  }

  /** No channel is ever CLOSED. */
  lemma NeverClosed(w: World)
    requires Inv(w)
    ensures forall i :: 0 <= i < |w.me.peer.chans| ==> w.me.peer.chans[i].state != Closed
  {
    var chans := w.me.peer.chans;
    forall i | 0 <= i < |chans|
      ensures chans[i].state != Closed
    {
      var sid := chans[i].sid;
      FindUnique(chans, i);
      if sid % 2 == w.me.peer.role.Parity() {
        assert LinkOk(LinkOf(w.me, w.other, sid));
      } else {
        assert LinkOk(LinkOf(w.other, w.me, sid));
      }
    }
  }

  lemma DataKeeps(w: World, sid: u16, taken: bool)
    requires Inv(w) && w.other.out[sid].queue != [] && IsData(w.other.out[sid].queue[0], sid)
    ensures Inv(ActDeliver(w, sid, taken))
  {
    var p := w.other.out[sid].queue[0];
    NeverClosed(w);
    DataReceipt(w.me, p, taken);
    var given := Given(Receive(w.me.peer, p, taken).calls);
    var w' := ActDeliver(w, sid, taken);
    if sid % 2 == w.me.peer.role.Parity() {
      var k := LinkOf(w.me, w.other, sid);
      BackHead(k);
      LinkBackTaken(k);
      assert LinkOf(w'.me, w'.other, sid) == k.(back := Advance(k.back, given));
    } else {
      var k := LinkOf(w.other, w.me, sid);
      DataAfterOpen(k);
      LinkForthTaken(k, given);
      assert LinkOf(w'.other, w'.me, sid) == k.(forth := Advance(k.forth, given));
    }
    QuietDelivery(w, w', sid, given);
  }

  lemma NodeUpdated(n: Node, n': Node, at: nat, c: Channel)
    requires NodeOk(n) && at < |n.peer.chans| && c.sid == n.peer.chans[at].sid
    requires n' == n.(peer := n.peer.(chans := n.peer.chans[at := c]))
    ensures NodeOk(n')
    ensures forall t: u16 :: Lookup(n'.peer.chans, t) == if t == c.sid then Some(c) else Lookup(n.peer.chans, t)
  {
    var chans, chans' := n.peer.chans, n'.peer.chans;
    assert forall i :: 0 <= i < |chans| ==> chans'[i].sid == chans[i].sid;
    CountUpdate(chans, at, c, n.peer.role.Parity());
    FindUnique(chans, at);
    forall t: u16
      ensures Lookup(chans', t) == if t == c.sid then Some(c) else Lookup(chans, t)
    {
      LookupUpdate(chans, at, c, t);
    }
  }

  lemma AckTakenKeeps(w: World, w': World, sid: u16, at: nat, c: Channel)
    requires Inv(w) && w.other.out[sid].queue != [] && w.other.out[sid].queue[0] == AckPacket(sid)
    requires sid % 2 == w.me.peer.role.Parity()
    requires at < |w.me.peer.chans| && w.me.peer.chans[at].sid == sid && c == w.me.peer.chans[at].(state := Connected)
    requires w'.me == w.me.(peer := w.me.peer.(chans := w.me.peer.chans[at := c]))
    requires w'.other == w.other.(out := w.other.out[sid := Advance(w.other.out[sid], [])])
    ensures Inv(w')
  {
    FindUnique(w.me.peer.chans, at);
    var k := LinkOf(w.me, w.other, sid);
    LinkAckTaken(k);
    NodeUpdated(w.me, w'.me, at, c);
    assert LinkOf(w'.me, w'.other, sid) == k.(near := Some(c), back := Advance(k.back, []));
    Touched(w, w', sid);
  }

  lemma AckKeeps(w: World, sid: u16, taken: bool)
    requires Inv(w) && w.other.out[sid].queue != [] && w.other.out[sid].queue[0] == AckPacket(sid)
    requires sid % 2 == w.me.peer.role.Parity()
    ensures Inv(ActDeliver(w, sid, taken))
  {
    BackHead(LinkOf(w.me, w.other, sid));
    var at := Find(w.me.peer.chans, sid);
    PutNothing(w.me.out, sid);
    AckTakenKeeps(w, ActDeliver(w, sid, taken), sid, at, w.me.peer.chans[at].(state := Connected));
  }

  lemma OpenRefusedKeeps(w: World, w': World, sid: u16)
    requires Inv(w) && w.other.out[sid].queue != [] && w.other.out[sid].taken == []
    requires sid % 2 == w.other.peer.role.Parity() && |w.me.peer.chans| == MAX_CHANNELS
    requires w'.me == w.me.(refused := w.me.refused + {sid})
    requires w'.other == w.other.(out := w.other.out[sid := Advance(w.other.out[sid], [])])
    ensures Inv(w')
  {
    LinkOpenRefused(LinkOf(w.other, w.me, sid));
    AdvancedSame(w.other, w'.other, sid);
    Touched(w, w', sid);
  }

  lemma OpenAcceptedKeeps(w: World, w': World, sid: u16, d: Channel, acked: bool)
    requires Inv(w) && w.other.out[sid].queue != [] && w.other.out[sid].taken == []
    requires sid % 2 == w.other.peer.role.Parity() && |w.me.peer.chans| < MAX_CHANNELS
    requires var k := LinkOf(w.other, w.me, sid);
      k.near.Some? && Agree(k.near.value, d) && d.state == Connected && d.sid == sid
    requires w'.me == w.me.(
      peer := w.me.peer.(chans := w.me.peer.chans + [d]),
      out := Put(w.me.out, sid, if acked then [AckPacket(sid)] else [], []),
      mute := if acked then w.me.mute else w.me.mute + {sid})
    requires w'.other == w.other.(out := w.other.out[sid := Advance(w.other.out[sid], [])])
    ensures Inv(w')
  {
    NodeExtended(w.me, w'.me, d);
    AcceptedLink(w, w', sid, d, acked);
    AdvancedSame(w.other, w'.other, sid);
    AcceptedSame(w.me, w'.me, sid, d, if acked then [AckPacket(sid)] else []);
    Touched(w, w', sid);
  }

  /** Taking a packet from one stream leaves the others alone. */
  lemma AdvancedSame(n: Node, n': Node, sid: u16)
    requires NodeOk(n) && n.out[sid].queue != [] && n' == n.(out := n.out[sid := Advance(n.out[sid], [])])
    ensures NodeOk(n') && SameBut(n, n', sid)
  {
  }

  lemma AcceptedSame(n: Node, n': Node, sid: u16, d: Channel, packets: seq<Packet>)
    requires n'.peer.role == n.peer.role && n'.refused == n.refused && n'.out == Put(n.out, sid, packets, [])
    requires n'.mute == n.mute || n'.mute == n.mute + {sid}
    requires forall t: u16 :: Lookup(n'.peer.chans, t) == if t == sid then Some(d) else Lookup(n.peer.chans, t)
    ensures SameBut(n, n', sid)
  {
  }

  lemma AcceptedLink(w: World, w': World, sid: u16, d: Channel, acked: bool)
    requires HalfOk(w.other, w.me) && w.other.out[sid].queue != [] && w.other.out[sid].taken == []
    requires sid % 2 == w.other.peer.role.Parity()
    requires var k := LinkOf(w.other, w.me, sid);
      k.near.Some? && Agree(k.near.value, d) && d.state == Connected
    requires Lookup(w'.me.peer.chans, sid) == Some(d) && w'.me.refused == w.me.refused
    requires w'.me.out == Put(w.me.out, sid, if acked then [AckPacket(sid)] else [], [])
    requires sid in w'.me.mute <==> sid in w.me.mute || !acked
    requires w'.other == w.other.(out := w.other.out[sid := Advance(w.other.out[sid], [])])
    ensures LinkOk(LinkOf(w'.other, w'.me, sid))
  {
    var k := LinkOf(w.other, w.me, sid);
    assert LinkOk(k);
    LinkOpenAccepted(k, d, acked);
    assert !k.mute;
    assert LinkOf(w'.other, w'.me, sid) ==
           k.(far := Some(d), forth := Advance(k.forth, []),
              back := Queued(k.back, if acked then [AckPacket(k.sid)] else [], []), mute := !acked);
  }

  lemma OpenKeeps(w: World, sid: u16, taken: bool)
    requires Inv(w) && w.other.out[sid].queue != [] && w.other.out[sid].taken == []
    requires sid % 2 == w.other.peer.role.Parity()
    ensures Inv(ActDeliver(w, sid, taken))
  {
    var me := w.me;
    var k := LinkOf(w.other, me, sid);
    ForthHead(k);
    var c := k.near.value;
    OpenIsSilent(c.labelText.text, c.protocol.text, sid);
    if |me.peer.chans| >= MAX_CHANNELS {
      PutNothing(me.out, sid);
      OpenRefusedKeeps(w, ActDeliver(w, sid, taken), sid);
    } else {
      AllocateAgrees(c, sid);
      OpenAcceptedKeeps(w, ActDeliver(w, sid, taken), sid,
                        AllocateChannel(OpenFor(c.labelText.text, c.protocol.text), sid), me.peer.ready && taken);
    }
  }

  lemma DeliverKeeps(w: World, sid: u16, taken: bool)
    requires Inv(w)
    ensures Inv(ActDeliver(w, sid, taken))
  {
    if w.other.out[sid].queue != [] {
      if sid % 2 == w.me.peer.role.Parity() {
        BackHead(LinkOf(w.me, w.other, sid));
        if IsData(w.other.out[sid].queue[0], sid) {
          DataKeeps(w, sid, taken);
        } else {
          AckKeeps(w, sid, taken);
        }
      } else {
        ForthHead(LinkOf(w.other, w.me, sid));
        if w.other.out[sid].taken == [] {
          OpenKeeps(w, sid, taken);
        } else {
          DataKeeps(w, sid, taken);
        }
      }
    }
  }

  /** One step of either peer. */
  lemma ApplyKeeps(w: World, move: Move)
    requires Inv(w)
    requires Careful(if move.first then w.me else w.other, move.step)
    ensures Inv(Apply(w, move))
  {
    var v := if move.first then w else w.Flip();
    assert Inv(v);
    match move.step
    case Start =>
      if !v.me.peer.ready {
        StartKeeps(v);
      }
    case Create(labelText, protocol, taken) => CreateKeeps(v, labelText, protocol, taken);
    case Send(slot, m, taken) => SendKeeps(v, slot, m, taken);
    case Deliver(sid, taken) => DeliverKeeps(v, sid, taken);
  }

  lemma InitInv(role: Role)
    ensures Inv(Init(role))
  {
    var w := Init(role);
    assert IDLE.taken + IDLE.queue == [];
    assert forall sid: u16 :: LinkOk(LinkOf(w.me, w.other, sid)) && LinkOk(LinkOf(w.other, w.me, sid));
  }

  /** Every reachable state of two peers of opposite roles satisfies the invariant. */
  lemma {:induction false} RunInv(role: Role, moves: seq<Move>)
    requires CarefulRun(Init(role), moves)
    ensures Inv(Run(Init(role), moves))
  {
    if moves == [] {
      InitInv(role);
    } else {
      RunInv(role, moves[..|moves| - 1]);
      ApplyKeeps(Run(Init(role), moves[..|moves| - 1]), moves[|moves| - 1]);
    }
  }
}
