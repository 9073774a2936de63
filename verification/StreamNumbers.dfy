/** When stream numbers are unique: in any run of two peers of any roles, careless
    creations included, and the runs in which they are not. */
module StreamNumbers {
  import opened Bytes
  import opened Dcep
  import opened Channels
  import opened Network
  import opened Agreement
  import ChannelTheorems

  // One call

  lemma AppendDistinctIff(chans: seq<Channel>, c: Channel)
    ensures Distinct(chans + [c]) <==> Distinct(chans) && Lookup(chans, c.sid) == None
  {
    var all := chans + [c];
    LookupNone(chans, c.sid);
    assert forall i :: 0 <= i < |chans| ==> all[i] == chans[i];
    if Lookup(chans, c.sid).Some? {
      assert all[Find(chans, c.sid)].sid == all[|chans|].sid;
    }
  }

  lemma SameSidsDistinct(chans: seq<Channel>, new_: seq<Channel>)
    requires |new_| == |chans| && forall i :: 0 <= i < |chans| ==> new_[i].sid == chans[i].sid
    ensures Distinct(new_) <==> Distinct(chans)
  {
  }

  /** A creation publishes a channel: there is a free slot, and SCTP does not refuse the
      OPEN or is not up yet. */
  predicate Creates(p: PeerState, taken: bool) {
    |p.chans| < MAX_CHANNELS && (p.ready ==> taken)
  }

  /** A packet makes the receiver publish a channel. */
  predicate Accepts(p: PeerState, packet: Packet) {
    IsOpen(packet) && |packet.data| >= HEADER_SIZE && |p.chans| < MAX_CHANNELS
  }

  /** A creation keeps stream numbers unique exactly if the table is full, or SCTP
      refuses the OPEN, or the number under the cursor is not in the table. */
  lemma CreateDistinctIff(p: PeerState, labelText: seq<byte>, protocol: seq<byte>, taken: bool)
    ensures Distinct(CreateChannel(p, labelText, protocol, taken).peer.chans)
       <==> Distinct(p.chans) && (Creates(p, taken) ==> Lookup(p.chans, SidAt(p.cursor)) == None)
  {
    AppendDistinctIff(p.chans, OpenedChannel(labelText, protocol, SidAt(p.cursor)));
  }

  /** A packet from SCTP keeps them unique exactly if it is not an OPEN that is accepted
      on a number in the table; the code does not look. */
  lemma ReceiveDistinctIff(p: PeerState, packet: Packet, taken: bool)
    ensures Distinct(Receive(p, packet, taken).peer.chans)
       <==> Distinct(p.chans) && (Accepts(p, packet) ==> Lookup(p.chans, packet.sid) == None)
  {
    if Accepts(p, packet) {
      AppendDistinctIff(p.chans, AllocateChannel(packet.data, packet.sid));
    } else {
      SameSidsDistinct(p.chans, Receive(p, packet, taken).peer.chans);
    }
  }

  // Whole runs

  /** The step takes a number that is already in the table of the peer that makes it. */
  predicate Repeats(me: Node, other: Node, step: Step) {
    match step
    case Create(labelText, protocol, taken) =>
      Creates(me.peer, taken) && Lookup(me.peer.chans, SidAt(me.peer.cursor)).Some?
    case Deliver(sid, taken) =>
      && other.out[sid].queue != [] && Accepts(me.peer, other.out[sid].queue[0])
      && Lookup(me.peer.chans, other.out[sid].queue[0].sid).Some?
    case _ => false
  }

  predicate MoveRepeats(w: World, move: Move) {
    if move.first then Repeats(w.me, w.other, move.step) else Repeats(w.other, w.me, move.step)
  }

  predicate NeverRepeats(w: World, moves: seq<Move>) {
    moves == []
    || (NeverRepeats(w, moves[..|moves| - 1])
        && !MoveRepeats(Run(w, moves[..|moves| - 1]), moves[|moves| - 1]))
  }

  predicate Unique(w: World) {
    Distinct(w.me.peer.chans) && Distinct(w.other.peer.chans)
  }

  lemma StepDistinctIff(w: World, step: Step)
    ensures var w' := Act(w, step);
      && w'.other.peer == w.other.peer
      && (Distinct(w'.me.peer.chans) <==> Distinct(w.me.peer.chans) && !Repeats(w.me, w.other, step))
  {
    match step
    case Start =>
    case Create(labelText, protocol, taken) => CreateDistinctIff(w.me.peer, labelText, protocol, taken);
    case Send(slot, m, taken) =>
    case Deliver(sid, taken) =>
      if w.other.out[sid].queue != [] {
        ReceiveDistinctIff(w.me.peer, w.other.out[sid].queue[0], taken);
      }
  }

  /** For any two peers and any run: both tables end without a repeated number exactly if
      they began so and no creation and no accepted OPEN took a number in the table. */
  lemma {:induction false} RunUniqueIff(w: World, moves: seq<Move>)
    ensures Unique(Run(w, moves)) <==> Unique(w) && NeverRepeats(w, moves)
  {
    if moves != [] {
      var front, last := moves[..|moves| - 1], moves[|moves| - 1];
      RunUniqueIff(w, front);
      var v := Run(w, front);
      StepDistinctIff(if last.first then v else v.Flip(), last.step);
    }
  }

  /** Under the conditions of `MayCreate` no step ever takes a number in the table. */
  lemma CarefulNeverRepeats(role: Role, moves: seq<Move>)
    requires CarefulRun(Init(role), moves)
    ensures NeverRepeats(Init(role), moves)
  {
    ChannelTheorems.RunSids(role, moves);
    RunUniqueIff(Init(role), moves);
  }

  // Channels created before the handshake

  lemma RunOneMore(w: World, moves: seq<Move>, move: Move)
    ensures Run(w, moves + [move]) == Apply(Run(w, moves), move)
  {
    assert (moves + [move])[..|moves|] == moves;
  }

  lemma RunThree(w: World, a: Move, b: Move, c: Move)
    ensures Run(w, [a] + [b] + [c]) == Apply(Apply(Apply(w, a), b), c)
  {
    assert [] + [a] == [a];
    RunOneMore(w, [], a);
    RunOneMore(w, [a], b);
    RunOneMore(w, [a] + [b], c);
  }

  /** A client's cursor goes back to 0 when its handshake is done: a channel created
      before that and one created after it are both on stream 0. */
  lemma RestartRepeats(text: seq<byte>, taken: bool)
    ensures var moves := [Move(true, Create(text, text, taken))] + [Move(true, Start)]
                         + [Move(true, Create(text, text, true))];
      var chans := Run(Init(Client), moves).me.peer.chans;
      |chans| == 2 && chans[0].sid == chans[1].sid == 0
  {
    var first, again := Move(true, Create(text, text, taken)), Move(true, Create(text, text, true));
    RunThree(Init(Client), first, Move(true, Start), again);
    EarlyChannel(Init(Client), text, taken);
    var w := Apply(Apply(Init(Client), first), Move(true, Start));
    assert w.me.peer.chans == [OpenedChannel(text, text, 0)] && w.me.peer.cursor == 0 && w.me.peer.ready;
  }

  lemma EarlyChannel(w: World, text: seq<byte>, taken: bool)
    requires !w.me.peer.ready && w.me.peer.chans == [] && w.me.peer.cursor == 0
    ensures var v := Apply(w, Move(true, Create(text, text, taken)));
      v.me.peer == w.me.peer.(chans := [OpenedChannel(text, text, 0)], cursor := 2) && v.other == w.other
  {
  }

  /** A server that creates before its handshake takes stream 0 too, and then accepts the
      client's OPEN on it. */
  lemma EarlyServerRepeats(text: seq<byte>, taken: bool)
    ensures var moves := [Move(true, Create(text, text, taken))] + [Move(false, Start)]
                         + [Move(false, Create(text, text, true))];
      var chans := Run(Init(Server), moves + [Move(true, Deliver(0, taken))]).me.peer.chans;
      |chans| == 2 && chans[0].sid == chans[1].sid == 0
  {
    var a, b, c := Move(true, Create(text, text, taken)), Move(false, Start), Move(false, Create(text, text, true));
    RunThree(Init(Server), a, b, c);
    RunOneMore(Init(Server), [a] + [b] + [c], Move(true, Deliver(0, taken)));
    EarlyChannel(Init(Server), text, taken);
    var w := Apply(Apply(Init(Server), a), b);
    assert w.other.peer.ready && w.other.peer.cursor == 0 && w.other.peer.chans == [] && w.other.out[0] == IDLE;
    ClashOnZero(w, text, taken);
  }

  lemma ClashOnZero(w: World, text: seq<byte>, taken: bool)
    requires w.me.peer.chans == [OpenedChannel(text, text, 0)]
    requires w.other.peer.ready && w.other.peer.cursor == 0 && w.other.peer.chans == [] && w.other.out[0] == IDLE
    ensures var v := Apply(Apply(w, Move(false, Create(text, text, true))), Move(true, Deliver(0, taken)));
      var chans := v.me.peer.chans;
      |chans| == 2 && chans[0].sid == chans[1].sid == 0
  {
    var v := Apply(w, Move(false, Create(text, text, true)));
    HeaderFields(OpenMessage(0, 0, 0, text, text));
    assert v.other.out[0].queue == [OpenPacket(text, text, 0)] && v.me == w.me;
  }

  // Equal roles

  /** Both peers start in the role `role`, and both create a channel that SCTP takes. */
  function BothCreate(role: Role, mine: seq<byte>, others: seq<byte>): World {
    Apply(Apply(Apply(Apply(World(Fresh(role), Fresh(role)),
                            Move(true, Start)), Move(false, Start)),
                Move(true, Create(mine, mine, true))), Move(false, Create(others, others, true)))
  }

  /** Peers of equal roles open the same stream: once the other's OPEN arrives, two
      channels share it, and all that comes on it goes to the channel that was opened
      here. */
  lemma EqualRolesClash(role: Role, mine: seq<byte>, others: seq<byte>, taken: bool)
    ensures var sid := role.Parity();
      var chans := Apply(BothCreate(role, mine, others), Move(true, Deliver(sid, taken))).me.peer.chans;
      && |chans| == 2 && chans[0].sid == chans[1].sid == sid && Find(chans, sid) == 0
      && chans[0] == OpenedChannel(mine, mine, sid)
  {
    var sid, w := role.Parity(), BothCreate(role, mine, others);
    HeaderFields(OpenMessage(0, 0, 0, others, others));
    assert w.other.out[sid].queue == [OpenPacket(others, others, sid)];
    assert w.me.peer.chans == [OpenedChannel(mine, mine, sid)];
  }

  // The wrap of the stream cursor

  const REFUSED_BY_SCTP := Move(true, Create([], [], false))
  const TAKEN_BY_SCTP := Move(true, Create([], [], true))

  function Repeated(n: nat): seq<Move> {
    if n == 0 then [] else Repeated(n - 1) + [REFUSED_BY_SCTP]
  }

  /** Creations that SCTP refuses only move the cursor. */
  lemma {:induction false} FailuresOnlyBurn(w: World, n: nat)
    requires w.me.peer.ready && |w.me.peer.chans| < MAX_CHANNELS
    ensures Run(w, Repeated(n)).me.peer == w.me.peer.(cursor := w.me.peer.cursor + 2 * n)
  {
    if n > 0 {
      FailuresOnlyBurn(w, n - 1);
      RunOneMore(w, Repeated(n - 1), REFUSED_BY_SCTP);
    }
  }

  lemma {:induction false} RunSplit(w: World, moves: seq<Move>, more: seq<Move>)
    ensures Run(w, moves + more) == Run(Run(w, moves), more)
  {
    if more == [] {
      assert moves + more == moves;
    } else {
      var front, last := more[..|more| - 1], more[|more| - 1];
      calc {
        Run(w, moves + more);
      ==  { assert moves + more == (moves + front) + [last]; }
        Run(w, (moves + front) + [last]);
      ==  { RunOneMore(w, moves + front, last); }
        Apply(Run(w, moves + front), last);
      ==  { RunSplit(w, moves, front); }
        Apply(Run(Run(w, moves), front), last);
      ==  { RunOneMore(Run(w, moves), front, last); assert front + [last] == more; }
        Run(Run(w, moves), more);
      }
    }
  }

  const START: seq<Move> := [Move(true, Start), TAKEN_BY_SCTP]

  /** One channel, `n` failed creations, and another channel. */
  function WrappingRun(n: nat): seq<Move> {
    START + (Repeated(n) + [TAKEN_BY_SCTP])
  }

  lemma FirstChannel(role: Role)
    ensures var p := Run(Init(role), START).me.peer;
      p.ready && p.cursor == role.Parity() + 2 && |p.chans| == 1 && p.chans[0].sid == role.Parity()
  {
    var w := Init(role);
    assert START == ([] + [Move(true, Start)]) + [TAKEN_BY_SCTP];
    RunOneMore(w, [], Move(true, Start));
    RunOneMore(w, [] + [Move(true, Start)], TAKEN_BY_SCTP);
  }

  lemma SecondChannel(w: World)
    requires w.me.peer.ready && |w.me.peer.chans| == 1
    ensures var p := Apply(w, TAKEN_BY_SCTP).me.peer;
      |p.chans| == 2 && p.chans[0] == w.me.peer.chans[0] && p.chans[1].sid == SidAt(w.me.peer.cursor)
  {
  }

  /** After 32768 stream numbers the first one is handed out again: two channels of
      one table share a stream. */
  lemma {:induction false} CursorWraps(role: Role, n: nat)
    requires n == 0x7fff
    ensures var chans := Run(Init(role), WrappingRun(n)).me.peer.chans;
      |chans| == 2 && chans[0].sid == chans[1].sid
  {
    FirstChannel(role);
    SidWraps(role.Parity(), n);
    AfterFailures(Run(Init(role), START), n);
    RunSplit(Init(role), START, Repeated(n) + [TAKEN_BY_SCTP]);
  }

  lemma SidWraps(parity: nat, n: nat)
    requires n == 0x7fff && parity < 2
    ensures SidAt(parity + 2 + 2 * n) == parity
  {
  }

  lemma AfterFailures(w: World, n: nat)
    requires w.me.peer.ready && |w.me.peer.chans| == 1
    ensures var p := Run(w, Repeated(n) + [TAKEN_BY_SCTP]).me.peer;
      |p.chans| == 2 && p.chans[0] == w.me.peer.chans[0] && p.chans[1].sid == SidAt(w.me.peer.cursor + 2 * n)
  {
    FailuresOnlyBurn(w, n);
    RunOneMore(w, Repeated(n), TAKEN_BY_SCTP);
    OneMoreChannel(w, Run(w, Repeated(n)), n);
  }

  lemma OneMoreChannel(w: World, v: World, n: nat)
    requires v.me.peer == w.me.peer.(cursor := w.me.peer.cursor + 2 * n) && w.me.peer.ready && |w.me.peer.chans| == 1
    ensures var p := Apply(v, TAKEN_BY_SCTP).me.peer;
      |p.chans| == 2 && p.chans[0] == w.me.peer.chans[0] && p.chans[1].sid == SidAt(w.me.peer.cursor + 2 * n)
  {
    SecondChannel(v);
  }
}
