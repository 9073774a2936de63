/** The invariant that ties the two tables and the streams between them. */
module Agreement {
  import opened Bytes
  import opened Dcep
  import opened Channels
  import opened Network

  function Lookup(chans: seq<Channel>, sid: u16): Option<Channel> {
    var i := Find(chans, sid);
    if i < |chans| then Some(chans[i]) else None
  }

  /** A packet made by `rtcdc_send_message`. */
  predicate IsData(p: Packet, sid: u16) {
    && p.sid == sid
    && (p.ppid == STRING_PPID || p.ppid == BINARY_PPID || p.ppid == STRING_EMPTY_PPID || p.ppid == BINARY_EMPTY_PPID)
  }

  predicate AllData(ps: seq<Packet>, sid: u16) {
    forall i :: 0 <= i < |ps| ==> IsData(ps[i], sid)
  }

  /** The message that a receiver's channel is given for a packet, if any. */
  function Decoded(p: Packet): seq<Message> {
    if p.data == [] then []
    else match TypeOf(p.ppid)
      case None => []
      case Some(t) => [Message(t, p.data)]
  }

  function Messages(ps: seq<Packet>): seq<Message> {
    if ps == [] then [] else Messages(ps[..|ps| - 1]) + Decoded(ps[|ps| - 1])
  }

  function NonEmpty(ms: seq<Message>): seq<Message> {
    if ms == [] then []
    else NonEmpty(ms[..|ms| - 1]) + if ms[|ms| - 1].data == [] then [] else [ms[|ms| - 1]]
  }

  /** Two ends of one channel: the same stream and parameters, where a NULL text
      counts as an empty one. */
  predicate Agree(c: Channel, d: Channel) {
    && c.sid == d.sid && c.ctype == d.ctype && c.priority == d.priority
    && c.rtx == d.rtx && c.lifetime == d.lifetime
    && c.labelText.Text() == d.labelText.Text() && c.protocol.Text() == d.protocol.Text()
  }

  /** All there is about one stream: the opener's channel, the acceptor's, both
      directions, and whether the acceptor refused the OPEN or failed to ACK it. */
  datatype Link = Link(
    sid: u16, near: Option<Channel>, far: Option<Channel>, forth: Pipe, back: Pipe, refused: bool, mute: bool)

  function LinkOf(o: Node, a: Node, sid: u16): Link {
    Link(sid, Lookup(o.peer.chans, sid), Lookup(a.peer.chans, sid), o.out[sid], a.out[sid],
         sid in a.refused, sid in a.mute)
  }

  predicate PipeOk(pipe: Pipe) {
    && pipe.sent == pipe.taken + pipe.queue
    && Messages(pipe.sent) == NonEmpty(pipe.posted)
  }

  predicate Opened(c: Channel, sid: u16) {
    && c.labelText.Str? && c.protocol.Str?
    && |c.labelText.text| < 0x1_0000 && |c.protocol.text| < 0x1_0000
    && NulFree(c.labelText.text) && NulFree(c.protocol.text)
    && c.(state := Connecting) == OpenedChannel(c.labelText.text, c.protocol.text, sid)
    && c.state != Closed
  }

  /** The life of a stream as its opener sees it. */
  predicate LinkOk(k: Link) {
    && PipeOk(k.forth) && PipeOk(k.back)
    && match k.near
       case None =>
         k.far.None? && k.forth.sent == [] && k.back.sent == [] && k.forth.given == [] && k.back.given == []
         && !k.refused && !k.mute
       case Some(c) =>
         && Opened(c, k.sid)
         && k.forth.sent != []
         && k.forth.sent[0] == OpenPacket(c.labelText.text, c.protocol.text, k.sid)
         && AllData(k.forth.sent[1..], k.sid)
         && k.back.given == Messages(k.back.taken)
         && if k.forth.taken == [] then Untouched(k, c) && !k.refused
            else if k.refused then Untouched(k, c)
            else Accepted(k, c)
  }

  predicate Untouched(k: Link, c: Channel) {
    && k.far.None? && k.back.sent == [] && k.forth.given == [] && !k.mute && c.state == Connecting
  }

  predicate Accepted(k: Link, c: Channel) {
    && k.far.Some? && Agree(c, k.far.value) && k.far.value.state == Connected
    && k.forth.given == Messages(k.forth.taken)
    && (if k.mute then AllData(k.back.sent, k.sid)
        else k.back.sent != [] && k.back.sent[0] == AckPacket(k.sid) && AllData(k.back.sent[1..], k.sid))
    && (c.state == Connected <==> !k.mute && k.back.taken != [])
  }

  predicate Distinct(chans: seq<Channel>) {
    forall i, j :: 0 <= i < j < |chans| ==> chans[i].sid != chans[j].sid
  }

  function CountOpened(chans: seq<Channel>, parity: int): nat {
    if chans == [] then 0
    else CountOpened(chans[..|chans| - 1], parity) + if chans[|chans| - 1].sid % 2 == parity then 1 else 0
  }

  ghost predicate NodeOk(n: Node) {
    var p := n.peer;
    var parity := p.role.Parity();
    && Distinct(p.chans)
    && |p.chans| <= MAX_CHANNELS
    && (p.ready ==> p.cursor == parity + 2 * (CountOpened(p.chans, parity) + n.failed) && p.cursor <= 0x1_0001)
    && (!p.ready ==> p.cursor == 0 && n.failed == 0)
    && (forall sid: u16 :: sid in n.mine <==> sid % 2 == parity && Lookup(p.chans, sid).Some?)
    && (forall i :: 0 <= i < |p.chans| && p.chans[i].sid % 2 == parity ==> p.ready && p.chans[i].sid < p.cursor)
    && (forall sid :: sid in n.refused ==> sid % 2 != parity && |p.chans| == MAX_CHANNELS)
    && (forall sid :: sid in n.mute ==> sid % 2 != parity)
  }

  ghost predicate HalfOk(o: Node, a: Node) {
    forall sid: u16 :: sid % 2 == o.peer.role.Parity() ==> LinkOk(LinkOf(o, a, sid))
  }

  ghost predicate Inv(w: World) {
    && w.me.peer.role == w.other.peer.role.Opposite()
    && NodeOk(w.me) && NodeOk(w.other)
    && HalfOk(w.me, w.other) && HalfOk(w.other, w.me)
  }

  // Lookups

  /** `Find` is the only slot with its contract. */
  lemma FindIs(chans: seq<Channel>, sid: u16, i: nat)
    requires i <= |chans| && (i < |chans| ==> chans[i].sid == sid)
    requires forall j :: 0 <= j < i ==> chans[j].sid != sid
    ensures Find(chans, sid) == i
  {
  }

  lemma FindUnique(chans: seq<Channel>, i: nat)
    requires Distinct(chans) && i < |chans|
    ensures Find(chans, chans[i].sid) == i
  {
    FindIs(chans, chans[i].sid, i);
  }

  lemma LookupNone(chans: seq<Channel>, sid: u16)
    ensures Lookup(chans, sid) == None <==> forall i :: 0 <= i < |chans| ==> chans[i].sid != sid
  {
    assert Find(chans, sid) < |chans| ==> chans[Find(chans, sid)].sid == sid;
  }

  lemma LookupAppend(chans: seq<Channel>, c: Channel, sid: u16)
    ensures Lookup(chans + [c], sid)
         == if Lookup(chans, sid) == None && c.sid == sid then Some(c) else Lookup(chans, sid)
  {
    var all := chans + [c];
    var i := Find(chans, sid);
    if i < |chans| || c.sid == sid {
      FindIs(all, sid, i);
    } else {
      FindIs(all, sid, i + 1);
    }
  }

  lemma LookupUpdate(chans: seq<Channel>, at: nat, c: Channel, sid: u16)
    requires at < |chans| && at == Find(chans, chans[at].sid) && c.sid == chans[at].sid
    ensures Lookup(chans[at := c], sid) == if sid == c.sid then Some(c) else Lookup(chans, sid)
  {
    FindIs(chans[at := c], sid, Find(chans, sid));
  }

  // Streams

  lemma MessagesAppend(ps: seq<Packet>, qs: seq<Packet>)
    ensures Messages(ps + qs) == Messages(ps) + Messages(qs)
    decreases |qs|
  {
    if qs == [] {
      assert ps + qs == ps;
    } else {
      var front := qs[..|qs| - 1];
      assert (ps + qs)[..|ps + qs| - 1] == ps + front;
      MessagesAppend(ps, front);
    }
  }

  lemma MessagesOne(p: Packet)
    ensures Messages([p]) == Decoded(p)
  {
    assert [p][..0] == [];
  }

  lemma NonEmptyAppend(ms: seq<Message>, posted: seq<Message>)
    requires |posted| <= 1
    ensures NonEmpty(ms + posted) == NonEmpty(ms) + NonEmpty(posted)
  {
    if posted == [] {
      assert ms + posted == ms;
    } else {
      assert (ms + posted)[..|ms|] == ms;
      assert posted[..0] == [];
    }
  }

  lemma MessagesPosted(sent: seq<Packet>, p: Packet, ms: seq<Message>, posted: seq<Message>)
    requires Messages(sent) == NonEmpty(ms) && Decoded(p) == NonEmpty(posted) && |posted| <= 1
    ensures Messages(sent + [p]) == NonEmpty(ms + posted)
  {
    MessagesAppend(sent, [p]);
    MessagesOne(p);
    NonEmptyAppend(ms, posted);
  }

  lemma QueueMore(taken: seq<Packet>, queue: seq<Packet>, p: Packet)
    ensures taken + queue + [p] == taken + (queue + [p])
  {
  }

  lemma PipeQueued(pipe: Pipe, p: Packet, posted: seq<Message>)
    requires PipeOk(pipe)
    requires Decoded(p) == NonEmpty(posted) && |posted| <= 1
    ensures PipeOk(pipe.(posted := pipe.posted + posted, sent := pipe.sent + [p], queue := pipe.queue + [p]))
  {
    MessagesPosted(pipe.sent, p, pipe.posted, posted);
    QueueMore(pipe.taken, pipe.queue, p);
  }

  lemma PipeAdvanced(pipe: Pipe, given: seq<Message>)
    requires PipeOk(pipe) && pipe.queue != []
    ensures PipeOk(Advance(pipe, given))
    ensures Messages(pipe.taken + [pipe.queue[0]]) == Messages(pipe.taken) + Decoded(pipe.queue[0])
    ensures pipe.queue[0] == pipe.sent[|pipe.taken|]
  {
    var p := pipe.queue[0];
    assert pipe.taken + pipe.queue == (pipe.taken + [p]) + pipe.queue[1..];
    MessagesAppend(pipe.taken, [p]);
    MessagesOne(p);
  }

  /** The packet made for a message decodes to it, unless it is empty. */
  lemma PacketDecodes(m: Message, sid: u16)
    requires PpidFor(m).Some?
    ensures var p := Packet(sid, PpidFor(m).value, m.data);
      IsData(p, sid) && Decoded(p) == NonEmpty([m])
  {
    assert [m][..0] == [];
  }
}
