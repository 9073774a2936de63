/** Two peers joined by SCTP: one ordered queue for each direction and stream.
    A step is one API call or one delivery at one of the peers. */
module Network {
  import opened Bytes
  import opened Dcep
  import opened Channels

  /** One direction of one stream: the messages its user got through to SCTP, the
      packets SCTP took, those still queued, those delivered, and the messages the
      receiving channel was given. */
  datatype Pipe = Pipe(
    posted: seq<Message>, sent: seq<Packet>, queue: seq<Packet>, taken: seq<Packet>, given: seq<Message>)

  const IDLE := Pipe([], [], [], [], [])

  type Pipes = ps: seq<Pipe> | |ps| == 0x1_0000 witness seq(0x1_0000, _ => IDLE)

  /** A peer with its outgoing streams and, as history, the streams on which it
      published a channel of its own, those whose OPEN it refused, those whose ACK it
      failed to send, and its failed creations. */
  datatype Node = Node(
    peer: PeerState, out: Pipes, mine: set<u16>, refused: set<u16>, mute: set<u16>, failed: nat)

  datatype World = World(me: Node, other: Node) {
    function Flip(): World {
      World(other, me)
    }
  }

  datatype Step =
    | Start
    | Create(labelText: seq<byte>, protocol: seq<byte>, taken: bool)
    | Send(slot: nat, m: Message, taken: bool)
    | Deliver(sid: u16, taken: bool)

  function Fresh(role: Role): Node {
    Node(PeerState(role, 0, false, []), seq(0x1_0000, _ => IDLE), {}, {}, {}, 0)
  }

  function Init(role: Role): World {
    World(Fresh(role), Fresh(role.Opposite()))
  }

  function Put(out: Pipes, sid: u16, packets: seq<Packet>, posted: seq<Message>): Pipes {
    var pipe := out[sid];
    out[sid := pipe.(posted := pipe.posted + posted, sent := pipe.sent + packets, queue := pipe.queue + packets)]
  }

  function Given(calls: seq<Callback>): seq<Message> {
    if calls != [] && calls[0].OnMessage? then [calls[0].msg] else []
  }

  predicate IsOpen(p: Packet) {
    p.ppid == CONTROL_PPID && p.data != [] && p.data[0] == DATA_CHANNEL_OPEN
  }

  function ActStart(w: World): World {
    if w.me.peer.ready then w else w.(me := w.me.(peer := Connect(w.me.peer)))
  }

  function ActCreate(w: World, labelText: seq<byte>, protocol: seq<byte>, taken: bool): World {
    var me := w.me;
    var e := CreateChannel(me.peer, labelText, protocol, taken);
    var sid := SidAt(me.peer.cursor);
    var burnt := if e.peer.cursor != me.peer.cursor && e.ret < 0 then 1 else 0;
    w.(me := me.(peer := e.peer,
                 out := Put(me.out, sid, e.sent, []),
                 mine := if e.ret < 0 then me.mine else me.mine + {sid},
                 failed := me.failed + burnt))
  }

  function ActSend(w: World, slot: nat, m: Message, taken: bool): World {
    var me := w.me;
    if slot >= |me.peer.chans| then w
    else
      var e := SendMessage(me.peer, slot, m, taken);
      w.(me := me.(out := Put(me.out, me.peer.chans[slot].sid, e.sent, if e.sent == [] then [] else [m])))
  }

  /** What the receiver does with the packet at the head of stream `sid`. */
  function Arrive(me: Node, sid: u16, packet: Packet, e: Effect): Node {
    var kept := |e.peer.chans| == |me.peer.chans|;
    me.(peer := e.peer,
        out := Put(me.out, sid, e.sent, []),
        refused := if IsOpen(packet) && kept then me.refused + {sid} else me.refused,
        mute := if IsOpen(packet) && !kept && e.sent == [] then me.mute + {sid} else me.mute)
  }

  function Advance(pipe: Pipe, given: seq<Message>): Pipe
    requires pipe.queue != []
  {
    pipe.(queue := pipe.queue[1..], taken := pipe.taken + [pipe.queue[0]], given := pipe.given + given)
  }

  function ActDeliver(w: World, sid: u16, taken: bool): World {
    var pipe := w.other.out[sid];
    if pipe.queue == [] then w
    else
      var e := Receive(w.me.peer, pipe.queue[0], taken);
      World(Arrive(w.me, sid, pipe.queue[0], e),
            w.other.(out := w.other.out[sid := Advance(pipe, Given(e.calls))]))
  }

  /** One step of the first peer. */
  function Act(w: World, step: Step): World {
    match step
    case Start => ActStart(w)
    case Create(labelText, protocol, taken) => ActCreate(w, labelText, protocol, taken)
    case Send(slot, m, taken) => ActSend(w, slot, m, taken)
    case Deliver(sid, taken) => ActDeliver(w, sid, taken)
  }

  /** A step together with the peer that makes it. */
  datatype Move = Move(first: bool, step: Step)

  function Apply(w: World, move: Move): World {
    if move.first then Act(w, move.step) else Act(w.Flip(), move.step).Flip()
  }

  function Run(w: World, moves: seq<Move>): World {
    if moves == [] then w else Apply(Run(w, moves[..|moves| - 1]), moves[|moves| - 1])
  }

  /** What the caller of `rtcdc_create_data_channel` must see to: the handshake is
      done, the stream cursor has not wrapped, and both texts fit an OPEN. */
  predicate MayCreate(p: PeerState, labelText: seq<byte>, protocol: seq<byte>) {
    && p.ready && p.cursor < 0x1_0000
    && |labelText| < 0x1_0000 && |protocol| < 0x1_0000
    && NulFree(labelText) && NulFree(protocol)
  }

  predicate Careful(me: Node, step: Step) {
    step.Create? ==> MayCreate(me.peer, step.labelText, step.protocol)
  }

  /** Every creation in the run happens under `MayCreate`. */
  predicate CarefulRun(w: World, moves: seq<Move>) {
    moves != [] ==>
      var before := Run(w, moves[..|moves| - 1]);
      var last := moves[|moves| - 1];
      && CarefulRun(w, moves[..|moves| - 1])
      && Careful(if last.first then before.me else before.other, last.step)
  }
}
