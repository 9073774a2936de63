/** What the users of the channels are told, over whole runs. */
module Callbacks {
  import opened Bytes
  import opened Dcep
  import opened Channels
  import opened Network
  import opened Agreement
  import opened Preservation
  import opened Steps
  import opened Requests

  /** The calls that a step makes at the peer that takes it. */
  function StepCalls(w: World, step: Step): seq<Callback> {
    match step
    case Deliver(sid, taken) =>
      if w.other.out[sid].queue == [] then [] else Receive(w.me.peer, w.other.out[sid].queue[0], taken).calls
    case Create(labelText, protocol, taken) => CreateChannel(w.me.peer, labelText, protocol, taken).calls
    case Send(slot, m, taken) => if slot < |w.me.peer.chans| then SendMessage(w.me.peer, slot, m, taken).calls else []
    case Start => []
  }

  /** The calls at one peer in a run, in order. */
  function CallsIn(w: World, moves: seq<Move>, first: bool): seq<Callback> {
    if moves == [] then []
    else
      var before, last := Run(w, moves[..|moves| - 1]), moves[|moves| - 1];
      CallsIn(w, moves[..|moves| - 1], first) +
      if last.first == first then StepCalls(if first then before else before.Flip(), last.step) else []
  }

  function Count(calls: seq<Callback>, c: Callback): nat {
    if calls == [] then 0 else Count(calls[..|calls| - 1], c) + if calls[|calls| - 1] == c then 1 else 0
  }

  /** The messages that the user of stream `sid` was given. */
  function MessagesTo(calls: seq<Callback>, sid: u16): seq<Message> {
    if calls == [] then []
    else
      var last := calls[|calls| - 1];
      MessagesTo(calls[..|calls| - 1], sid) + if last.OnMessage? && last.sid == sid then [last.msg] else []
  }

  /** The user of each own channel was called `on_open` once if it is CONNECTED and not
      yet if it is not; of each channel that the other peer opened `on_channel` once; and
      nobody else was. */
  predicate ToldOf(n: Node, calls: seq<Callback>, sid: u16) {
    var c := Lookup(n.peer.chans, sid);
    && Count(calls, OnOpen(sid)) == (if sid in n.mine && c.Some? && c.value.state == Connected then 1 else 0)
    && Count(calls, OnChannel(sid)) == (if sid !in n.mine && c.Some? then 1 else 0)
  }

  ghost predicate Told(n: Node, o: Node, calls: seq<Callback>) {
    forall sid: u16 :: ToldOf(n, calls, sid) && MessagesTo(calls, sid) == o.out[sid].given
  }

  lemma CountMore(calls: seq<Callback>, e: Callback, c: Callback)
    ensures Count(calls + [e], c) == Count(calls, c) + if e == c then 1 else 0
  {
    assert (calls + [e])[..|calls|] == calls;
  }

  lemma MessagesMore(calls: seq<Callback>, e: Callback, sid: u16)
    ensures MessagesTo(calls + [e], sid) == MessagesTo(calls, sid) + if e.OnMessage? && e.sid == sid then [e.msg] else []
  {
    assert (calls + [e])[..|calls|] == calls;
  }

  /** A step without a call, after which each stream looks the same to its users. */
  lemma SilentTold(n: Node, o: Node, n': Node, o': Node, calls: seq<Callback>)
    requires Told(n, o, calls)
    requires forall sid: u16 :: o'.out[sid].given == o.out[sid].given
    requires forall sid: u16 :: SameLook(n, n', sid)
    ensures Told(n', o', calls)
  {
    forall sid: u16
      ensures ToldOf(n', calls, sid) && MessagesTo(calls, sid) == o'.out[sid].given
    {
      assert ToldOf(n, calls, sid) && SameLook(n, n', sid);
    }
  }

  /** Nothing that a user is told of changed on the stream. */
  predicate SameLook(n: Node, n': Node, sid: u16) {
    var c, d := Lookup(n.peer.chans, sid), Lookup(n'.peer.chans, sid);
    || (d == c && (sid in n'.mine <==> sid in n.mine))
    || (c.None? && d.Some? && d.value.state != Connected && sid in n'.mine)
  }

  lemma PutGiven(out: Pipes, sid: u16, packets: seq<Packet>, posted: seq<Message>)
    ensures forall t: u16 :: Put(out, sid, packets, posted)[t].given == out[t].given
  {
  }

  /** A creation adds a CONNECTING channel on a stream without one, or nothing. */
  lemma CreateLooks(w: World, labelText: seq<byte>, protocol: seq<byte>, taken: bool, c: Channel, n': Node)
    requires Inv(w) && MayCreate(w.me.peer, labelText, protocol) && c == OpenedChannel(labelText, protocol, w.me.peer.cursor)
    requires n' == ActCreate(w, labelText, protocol, taken).me
    ensures || (n'.peer.chans == w.me.peer.chans && n'.mine == w.me.mine)
            || (n'.peer.chans == w.me.peer.chans + [c] && n'.mine == w.me.mine + {c.sid} && Lookup(w.me.peer.chans, c.sid).None?)
  {
    LookupNone(w.me.peer.chans, w.me.peer.cursor);
  }

  lemma CreateTold(w: World, labelText: seq<byte>, protocol: seq<byte>, taken: bool, calls: seq<Callback>)
    requires Inv(w) && MayCreate(w.me.peer, labelText, protocol) && Told(w.me, w.other, calls)
    ensures Told(ActCreate(w, labelText, protocol, taken).me, w.other, calls)
  {
    var me, n' := w.me, ActCreate(w, labelText, protocol, taken).me;
    var c := OpenedChannel(labelText, protocol, me.peer.cursor);
    CreateLooks(w, labelText, protocol, taken, c, n');
    forall sid: u16
      ensures SameLook(me, n', sid)
    {
      LookupAppend(me.peer.chans, c, sid);
    }
    SilentTold(me, w.other, n', w.other, calls);
  }

  // Deliveries

  /** One call `e` on stream `sid`, and the stream's new look. */
  lemma CalledTold(n: Node, o: Node, n': Node, o': Node, calls: seq<Callback>, e: Callback, sid: u16)
    requires Told(n, o, calls) && e.sid == sid
    requires forall t: u16 :: t != sid ==> SameLook(n, n', t) && o'.out[t].given == o.out[t].given
    requires o'.out[sid].given == o.out[sid].given + if e.OnMessage? then [e.msg] else []
    requires var c, d := Lookup(n.peer.chans, sid), Lookup(n'.peer.chans, sid);
      && (sid in n'.mine <==> sid in n.mine)
      && match e
         case OnMessage(_, _) => d == c
         case OnOpen(_) => sid in n.mine && c.Some? && c.value.state != Connected && d.Some? && d.value.state == Connected
         case OnChannel(_) => sid !in n.mine && c.None? && d.Some?
    ensures Told(n', o', calls + [e])
  {
    forall t: u16
      ensures ToldOf(n', calls + [e], t) && MessagesTo(calls + [e], t) == o'.out[t].given
    {
      assert ToldOf(n, calls, t) && MessagesTo(calls, t) == o.out[t].given;
      CountMore(calls, e, OnOpen(t));
      CountMore(calls, e, OnChannel(t));
      MessagesMore(calls, e, t);
    }
  }

  /** What a delivery leaves. */
  lemma DeliverShape(w: World, sid: u16, taken: bool, e: Effect)
    requires w.other.out[sid].queue != [] && e == Receive(w.me.peer, w.other.out[sid].queue[0], taken)
    ensures var w' := ActDeliver(w, sid, taken);
      && w'.me.peer == e.peer && w'.me.mine == w.me.mine
      && w'.other.out[sid].given == w.other.out[sid].given + Given(e.calls)
      && (forall t: u16 :: t != sid ==> w'.other.out[t].given == w.other.out[t].given)
      && StepCalls(w, Deliver(sid, taken)) == e.calls
  {
  }

  lemma DataTold(w: World, sid: u16, taken: bool, calls: seq<Callback>)
    requires Inv(w) && Told(w.me, w.other, calls)
    requires w.other.out[sid].queue != [] && IsData(w.other.out[sid].queue[0], sid)
    ensures var w' := ActDeliver(w, sid, taken); Told(w'.me, w'.other, calls + StepCalls(w, Deliver(sid, taken)))
  {
    var p, w' := w.other.out[sid].queue[0], ActDeliver(w, sid, taken);
    var e := Receive(w.me.peer, p, taken);
    NeverClosed(w);
    DataReceipt(w.me, p, taken);
    DataCalls(w.me.peer, p, taken);
    DeliverShape(w, sid, taken, e);
    GivenTold(w.me, w.other, w'.me, w'.other, calls, e.calls, sid);
  }

  lemma GivenTold(n: Node, o: Node, n': Node, o': Node, calls: seq<Callback>, more: seq<Callback>, sid: u16)
    requires Told(n, o, calls) && n'.peer == n.peer && n'.mine == n.mine
    requires |more| <= 1 && (more != [] ==> more[0].OnMessage? && more[0].sid == sid)
    requires o'.out[sid].given == o.out[sid].given + Given(more)
    requires forall t: u16 :: t != sid ==> o'.out[t].given == o.out[t].given
    ensures Told(n', o', calls + more)
  {
    if more == [] {
      assert calls + more == calls;
      SilentTold(n, o, n', o', calls);
    } else {
      assert more == [more[0]];
      CalledTold(n, o, n', o', calls, more[0], sid);
    }
  }

  lemma DataCalls(p: PeerState, packet: Packet, taken: bool)
    requires IsData(packet, packet.sid)
    ensures var calls := Receive(p, packet, taken).calls;
      |calls| <= 1 && (calls != [] ==> calls[0].OnMessage? && calls[0].sid == packet.sid)
  {
  }

  /** The ACK arrives while the channel is CONNECTING. */
  lemma AckTold(w: World, sid: u16, taken: bool, calls: seq<Callback>)
    requires Inv(w) && Told(w.me, w.other, calls) && sid % 2 == w.me.peer.role.Parity()
    requires w.other.out[sid].queue != [] && w.other.out[sid].queue[0] == AckPacket(sid)
    ensures var w' := ActDeliver(w, sid, taken); Told(w'.me, w'.other, calls + StepCalls(w, Deliver(sid, taken)))
  {
    var w', at := ActDeliver(w, sid, taken), Find(w.me.peer.chans, sid);
    AckAwaited(w, sid);
    DeliverShape(w, sid, taken, Receive(w.me.peer, AckPacket(sid), taken));
    AckedTold(w.me, w.other, w'.me, w'.other, calls, at, sid);
  }

  lemma AckAwaited(w: World, sid: u16)
    requires Inv(w) && sid % 2 == w.me.peer.role.Parity()
    requires w.other.out[sid].queue != [] && w.other.out[sid].queue[0] == AckPacket(sid)
    ensures var c := Lookup(w.me.peer.chans, sid); c.Some? && c.value.state != Connected && sid in w.me.mine
  {
    BackHead(LinkOf(w.me, w.other, sid));
  }

  lemma AckedTold(n: Node, o: Node, n': Node, o': Node, calls: seq<Callback>, at: nat, sid: u16)
    requires Told(n, o, calls) && at == Find(n.peer.chans, sid) < |n.peer.chans|
    requires n.peer.chans[at].state != Connected && sid in n.mine && n'.mine == n.mine
    requires n'.peer.chans == n.peer.chans[at := n.peer.chans[at].(state := Connected)]
    requires forall t: u16 :: o'.out[t].given == o.out[t].given
    ensures Told(n', o', calls + [OnOpen(sid)])
  {
    var c := n.peer.chans[at].(state := Connected);
    forall t: u16
      ensures Lookup(n'.peer.chans, t) == if t == sid then Some(c) else Lookup(n.peer.chans, t)
    {
      LookupUpdate(n.peer.chans, at, c, t);
    }
    CalledTold(n, o, n', o', calls, OnOpen(sid), sid);
  }

  lemma OpenTold(w: World, sid: u16, taken: bool, calls: seq<Callback>)
    requires Inv(w) && Told(w.me, w.other, calls) && sid % 2 == w.other.peer.role.Parity()
    requires w.other.out[sid].queue != [] && w.other.out[sid].taken == []
    ensures var w' := ActDeliver(w, sid, taken); Told(w'.me, w'.other, calls + StepCalls(w, Deliver(sid, taken)))
  {
    var k, w' := LinkOf(w.other, w.me, sid), ActDeliver(w, sid, taken);
    ForthHead(k);
    OpenIsSilent(k.near.value.labelText.text, k.near.value.protocol.text, sid);
    var packet := w.other.out[sid].queue[0];
    var e := Receive(w.me.peer, packet, taken);
    DeliverShape(w, sid, taken, e);
    OpenArrives(w.me.peer, packet, taken);
    AcceptedTold(w.me, w.other, w'.me, w'.other, calls, e.calls, sid, AllocateChannel(packet.data, sid));
  }

  lemma OpenArrives(p: PeerState, packet: Packet, taken: bool)
    requires IsOpen(packet) && |packet.data| >= 12
    ensures var e, d := Receive(p, packet, taken), AllocateChannel(packet.data, packet.sid);
      || (e.peer.chans == p.chans && e.calls == [])
      || (e.peer.chans == p.chans + [d] && e.calls == [OnChannel(packet.sid)])
  {
  }

  lemma AcceptedTold(n: Node, o: Node, n': Node, o': Node, calls: seq<Callback>, more: seq<Callback>, sid: u16, d: Channel)
    requires Told(n, o, calls) && n'.mine == n.mine && sid !in n.mine && d.sid == sid && Lookup(n.peer.chans, sid).None?
    requires || (n'.peer.chans == n.peer.chans && more == [])
             || (n'.peer.chans == n.peer.chans + [d] && more == [OnChannel(sid)])
    requires forall t: u16 :: o'.out[t].given == o.out[t].given
    ensures Told(n', o', calls + more)
  {
    forall t: u16
      ensures Lookup(n.peer.chans + [d], t) == if t == sid then Some(d) else Lookup(n.peer.chans, t)
    {
      LookupAppend(n.peer.chans, d, t);
    }
    if more == [] {
      assert calls + more == calls;
      SilentTold(n, o, n', o', calls);
    } else {
      CalledTold(n, o, n', o', calls, OnChannel(sid), sid);
    }
  }

  lemma DeliverTold(w: World, sid: u16, taken: bool, calls: seq<Callback>)
    requires Inv(w) && Told(w.me, w.other, calls)
    ensures var w' := ActDeliver(w, sid, taken); Told(w'.me, w'.other, calls + StepCalls(w, Deliver(sid, taken)))
  {
    if w.other.out[sid].queue == [] {
      assert calls + [] == calls;
    } else if sid % 2 == w.me.peer.role.Parity() {
      BackHead(LinkOf(w.me, w.other, sid));
      if IsData(w.other.out[sid].queue[0], sid) {
        DataTold(w, sid, taken, calls);
      } else {
        AckTold(w, sid, taken, calls);
      }
    } else {
      ForthHead(LinkOf(w.other, w.me, sid));
      if w.other.out[sid].taken == [] {
        OpenTold(w, sid, taken, calls);
      } else {
        DataTold(w, sid, taken, calls);
      }
    }
  }

  lemma ActTold(w: World, step: Step, calls: seq<Callback>)
    requires Inv(w) && Careful(w.me, step) && Told(w.me, w.other, calls)
    ensures Told(Act(w, step).me, Act(w, step).other, calls + StepCalls(w, step))
  {
    match step
    case Deliver(sid, taken) => DeliverTold(w, sid, taken, calls);
    case Create(labelText, protocol, taken) =>
      assert calls + [] == calls;
      CreateTold(w, labelText, protocol, taken, calls);
    case Send(slot, m, taken) =>
      assert calls + [] == calls;
      SilentTold(w.me, w.other, Act(w, step).me, w.other, calls);
    case Start =>
      assert calls + [] == calls;
      SilentTold(w.me, w.other, Act(w, step).me, w.other, calls);
  }

  /** The other peer's users notice nothing of a step. */
  lemma FarTold(w: World, step: Step, calls: seq<Callback>)
    requires Told(w.other, w.me, calls)
    ensures Told(Act(w, step).other, Act(w, step).me, calls)
  {
    SilentTold(w.other, w.me, Act(w, step).other, Act(w, step).me, calls);
  }

  /** In every careful run each user is told just what happened: `on_open` once for each
      own channel that is CONNECTED, `on_channel` once for each channel of the other peer,
      and on each stream the messages that its channel was given, in order. */
  lemma {:induction false} RunTold(role: Role, moves: seq<Move>, first: bool)
    requires CarefulRun(Init(role), moves)
    ensures var w := Run(Init(role), moves);
      Told(Side(w, first), Side(w, !first), CallsIn(Init(role), moves, first))
  {
    if moves != [] {
      var front, last := moves[..|moves| - 1], moves[|moves| - 1];
      var w, calls := Run(Init(role), front), CallsIn(Init(role), front, first);
      RunInv(role, front);
      RunTold(role, front, first);
      if last.first == first {
        ActTold(if first then w else w.Flip(), last.step, calls);
      } else {
        FarTold(if last.first then w else w.Flip(), last.step, calls);
        assert calls + [] == calls;
      }
    }
  }
}
