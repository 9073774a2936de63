/** Where requests get lost, over all runs: a waiting client has its one frame in flight
    exactly if no step dropped or overwrote it. */
module Replies {
  import opened Bytes
  import opened Checksums
  import opened Metadata
  import opened Sessions
  import opened SessionSafety
  import opened ServeSafety
  import opened SessionTheorems
  import Bindings

  /** The client connection that the frame in a carrier serves. */
  function ConvAt(w: World, x: Carrier): Option<Conn> {
    if Carried(w, x).Some? then ConvOf(w, Carried(w, x).value) else None
  }

  ghost predicate Serves(w: World, conn: Conn) {
    exists x: Carrier :: ConvAt(w, x) == Some(conn)
  }

  /** The connection whose frame a step loses: a SY_INIT without a file server, a
      SY_CONNECT to an unknown address, or a frame that was still to be written when its
      slot is filled again. */
  function LostBy(w: World, step: Step): Option<Conn> {
    match step
    case Register(n) => ConvAt(w, InFsSlot(FileServerConn(n)))
    case Serve(id) =>
      if !MayServe(w, id) then None
      else if w.wire[id].frame.SyInitRequest? && w.ms.registry == [] then Some(w.wire[id].heading.conn)
      else if w.wire[id].frame.SyConnect? && w.wire[id].frame.uri !in w.ms.uris then Some(w.wire[id].heading.conn)
      else ConvAt(w, InSlot(w.wire[id].heading.conn))
    case FsReceive(id, sums) =>
      if MayRead(w, id) then ConvAt(w, InFsSlot(w.wire[id].heading.conn)) else None
    case _ => None
  }

  /** A request has arrived at a file server. */
  predicate MayRead(w: World, id: nat) {
    && id in w.wire && w.wire[id].heading.Outbound? && w.wire[id].heading.conn.FileServerConn?
    && (w.wire[id].frame.SyInit? || w.wire[id].frame.SyStatus? || w.wire[id].frame.SyUpload? || w.wire[id].frame.SyDownload?)
  }

  function LostIn(clients: set<nat>, steps: seq<Step>): set<Conn> {
    if steps == [] then {}
    else
      var before := steps[..|steps| - 1];
      var lost := LostBy(Run(Init(clients), before), steps[|steps| - 1]);
      LostIn(clients, before) + if lost.Some? then {lost.value} else {}
  }

  /** The slot of a client's connection holds an answer to that connection. */
  ghost predicate SlotsOwn(w: World) {
    forall conn: Conn :: conn.ClientConn? && Carried(w, InSlot(conn)).Some? ==> ConvAt(w, InSlot(conn)) == Some(conn)
  }

  // One step

  /** The frame in `x` goes, one may come to `y`, and all others stay as they are. */
  ghost predicate Shift(w: World, w': World, x: Carrier, y: Carrier) {
    && (forall z: Carrier :: z != y && Carried(w', z).Some? ==> z != x && Carried(w', z) == Carried(w, z))
    && (forall z: Carrier :: z != y && z != x ==> ConvAt(w', z) == ConvAt(w, z))
  }

  /** `w'` serves whom `w` serves, except `lost`. */
  ghost predicate ServesBut(w: World, w': World, lost: Option<Conn>) {
    forall c: Conn :: Serves(w', c) <==> Serves(w, c) && lost != Some(c)
  }

  lemma ShiftMoves(w: World, w': World, x: Carrier, y: Carrier)
    requires OneEach(w) && Shift(w, w', x, y) && x != y && ConvAt(w', y) == ConvAt(w, x)
    ensures ServesBut(w, w', ConvAt(w, y))
  {
    forall c: Conn
      ensures Serves(w', c) <==> Serves(w, c) && ConvAt(w, y) != Some(c)
    {
      if Serves(w', c) {
        var z: Carrier :| ConvAt(w', z) == Some(c);
        assert ConvAt(w, if z == y then x else z) == Some(c);
      }
      if Serves(w, c) && ConvAt(w, y) != Some(c) {
        var z: Carrier :| ConvAt(w, z) == Some(c);
        assert ConvAt(w', if z == x then y else z) == Some(c);
      }
    }
  }

  lemma ShiftDrops(w: World, w': World, x: Carrier)
    requires OneEach(w) && Shift(w, w', x, x) && Carried(w', x).None?
    ensures ServesBut(w, w', ConvAt(w, x))
  {
    forall c: Conn
      ensures Serves(w', c) <==> Serves(w, c) && ConvAt(w, x) != Some(c)
    {
      if Serves(w', c) {
        var z: Carrier :| ConvAt(w', z) == Some(c);
        assert ConvAt(w, z) == Some(c);
      }
      if Serves(w, c) && ConvAt(w, x) != Some(c) {
        var z: Carrier :| ConvAt(w, z) == Some(c);
        assert ConvAt(w', z) == Some(c);
      }
    }
  }

  /** With the same records a frame serves the same connection. */
  lemma SameConv(w: World, w': World, t: Transit)
    requires w'.ms.sessions == w.ms.sessions
    ensures ConvOf(w', t) == ConvOf(w, t)
  {
  }

  lemma SameShift(w: World, w': World, x: Carrier, y: Carrier)
    requires w'.ms.sessions == w.ms.sessions
    requires forall z: Carrier :: z != y && Carried(w', z).Some? ==> z != x && Carried(w', z) == Carried(w, z)
    requires forall z: Carrier :: z != y && z != x && Carried(w, z).Some? ==> Carried(w', z) == Carried(w, z)
    ensures Shift(w, w', x, y)
  {
    forall z: Carrier | z != y && z != x
      ensures ConvAt(w', z) == ConvAt(w, z)
    {
      if Carried(w, z).Some? {
        SameConv(w, w', Carried(w, z).value);
      }
    }
  }

  lemma FlushServes(w: World, on: Conn)
    requires Inv(w)
    ensures ServesBut(w, DoFlush(w, on), None)
  {
    if on in w.ms.writable {
      FlushShift(w, on);
      ShiftMoves(w, DoFlush(w, on), InSlot(on), OnWire(w.nextWire));
    }
  }

  /** The frame in the slot of `on` went to the wire. */
  ghost predicate Flushed(w: World, w': World, on: Conn) {
    && on in w.ms.writable && on in w.ms.slots && w.ms.slots[on].target.Some?
    && w'.wire == w.wire[w.nextWire := Transit(Outbound(w.ms.slots[on].target.value), w.ms.slots[on].frame)]
    && w'.ms.slots == w.ms.slots[on := w.ms.slots[on].(target := None)] && w'.ms.writable == w.ms.writable - {on}
    && w'.fsSlots == w.fsSlots && w'.ms.sessions == w.ms.sessions
  }

  lemma FlushFields(w: World, on: Conn)
    requires on in w.ms.writable && on in w.ms.slots && w.ms.slots[on].target.Some?
    ensures Flushed(w, DoFlush(w, on), on)
  {
  }

  lemma FlushCarried(w: World, w': World, on: Conn, y: Carrier)
    requires Flushed(w, w', on) && w.nextWire !in w.wire && y == OnWire(w.nextWire)
    ensures Carried(w', y) == Carried(w, InSlot(on)) && Carried(w, y).None? && Carried(w', InSlot(on)).None?
    ensures forall z: Carrier :: z != y && z != InSlot(on) ==> Carried(w', z) == Carried(w, z)
  {
  }

  lemma FlushShift(w: World, on: Conn)
    requires Carried(w, InSlot(on)).Some? && w.nextWire !in w.wire
    ensures var w', y := DoFlush(w, on), OnWire(w.nextWire);
      Shift(w, w', InSlot(on), y) && ConvAt(w', y) == ConvAt(w, InSlot(on)) && ConvAt(w, y) == None
  {
    var w', x, y := DoFlush(w, on), InSlot(on), OnWire(w.nextWire);
    FlushFields(w, on);
    FlushCarried(w, w', on, y);
    SameShift(w, w', x, y);
    SameConv(w, w', Carried(w, x).value);
  }

  lemma FsFlushServes(w: World, conn: Conn)
    requires Inv(w)
    ensures ServesBut(w, DoFsFlush(w, conn), None)
  {
    if conn in w.fsSlots {
      var w', x, y := DoFsFlush(w, conn), InFsSlot(conn), OnWire(w.nextWire);
      SameShift(w, w', x, y);
      assert Carried(w', y) == Carried(w, x);
      ShiftMoves(w, w', x, y);
    }
  }

  lemma RegisterConvs(w: World, w': World, v: World, y: Carrier, n: nat)
    requires y == InFsSlot(FileServerConn(n)) && w' == Apply(w, Register(n)) && v == w.(fsSlots := w.fsSlots - {FileServerConn(n)})
    ensures ConvAt(w', y) == None && Carried(v, y).None? && v.ms == w.ms == w'.ms
    ensures forall z: Carrier :: z != y ==> Carried(w', z) == Carried(w, z) == Carried(v, z)
  {
  }

  lemma RegisterServes(w: World, n: nat)
    requires Inv(w)
    ensures ServesBut(w, Apply(w, Register(n)), LostBy(w, Register(n)))
    ensures Shift(w, Apply(w, Register(n)), InFsSlot(FileServerConn(n)), InFsSlot(FileServerConn(n)))
  {
    var w', y := Apply(w, Register(n)), InFsSlot(FileServerConn(n));
    var v := w.(fsSlots := w.fsSlots - {FileServerConn(n)});
    RegisterConvs(w, w', v, y, n);
    SameShift(w, v, y, y);
    ShiftDrops(w, v, y);
    SameShift(w, w', y, y);
    forall c: Conn
      ensures Serves(w', c) <==> Serves(v, c)
    {
      RegisterSame(w', v, y, c);
      RegisterSame(v, w', y, c);
    }
  }

  lemma RegisterSame(u: World, v: World, y: Carrier, c: Conn)
    requires ConvAt(u, y) == None && u.ms == v.ms && forall z: Carrier :: z != y ==> Carried(u, z) == Carried(v, z)
    ensures Serves(u, c) ==> Serves(v, c)
  {
    if Serves(u, c) {
      var z: Carrier :| ConvAt(u, z) == Some(c);
      assert ConvAt(v, z) == Some(c);
    }
  }

  lemma FsReceiveServes(w: World, id: nat, sums: seq<FileSum>)
    requires Inv(w)
    ensures ServesBut(w, DoFsReceive(w, id, sums), LostBy(w, FsReceive(id, sums)))
  {
    if id in w.wire && w.wire[id].heading.Outbound? && w.wire[id].heading.conn.FileServerConn? {
      if MayRead(w, id) {
        FsReceiveShift(w, id, sums);
        ShiftMoves(w, DoFsReceive(w, id, sums), OnWire(id), InFsSlot(w.wire[id].heading.conn));
      } else {
        ReadDropped(w, id, sums, Consume(w, id));
      }
    }
  }

  /** A confirmed registration needs no reply and serves no client. */
  lemma ReadDropped(w: World, id: nat, sums: seq<FileSum>, w': World)
    requires Inv(w) && id in w.wire && w.wire[id].heading.Outbound? && w.wire[id].heading.conn.FileServerConn?
    requires !MayRead(w, id) && w' == Consume(w, id)
    ensures DoFsReceive(w, id, sums) == w' && ServesBut(w, w', None)
  {
    var x := OnWire(id);
    assert Carried(w, x) == Some(w.wire[id]);
    assert TransitOk(w, w.wire[id]);
    SameShift(w, w', x, x);
    ShiftDrops(w, w', x);
  }

  lemma TakenCarried(w: World, id: nat, conn: Conn, reply: Frame, w': World)
    requires id in w.wire && w' == Taken(w, id, conn, Some(reply))
    ensures var x, y := OnWire(id), InFsSlot(conn);
      && Carried(w', y) == Some(Transit(Inbound(conn), reply)) && Carried(w', x).None? && w'.ms == w.ms
      && forall z: Carrier :: z != y && z != x ==> Carried(w', z) == Carried(w, z)
  {
  }

  lemma FsReceiveShift(w: World, id: nat, sums: seq<FileSum>)
    requires Inv(w) && MayRead(w, id)
    ensures var w', x, y := DoFsReceive(w, id, sums), OnWire(id), InFsSlot(w.wire[id].heading.conn);
      Shift(w, w', x, y) && ConvAt(w', y) == ConvAt(w, x) && Carried(w', y).Some?
  {
    var t := w.wire[id];
    var w' := DoFsReceive(w, id, sums);
    assert FsReply(t.frame, sums).Some?;
    TakenCarried(w, id, t.heading.conn, FsReply(t.frame, sums).value, w');
    SameShift(w, w', OnWire(id), InFsSlot(t.heading.conn));
    assert Carried(w, OnWire(id)) == Some(t);
    assert TransitOk(w, t);
    ReplyConv(w, w', t, sums);
  }

  lemma ReplyConv(w: World, w': World, t: Transit, sums: seq<FileSum>)
    requires Inv(w) && TransitOk(w, t) && t.heading.Outbound? && t.heading.conn.FileServerConn?
    requires FsReply(t.frame, sums).Some? && w'.ms == w.ms
    ensures ConvOf(w', Transit(Inbound(t.heading.conn), FsReply(t.frame, sums).value)) == ConvOf(w, t)
  {
    FsReplyOk(w, t, sums);
  }

  /** The reply that a client takes is the frame of its own request. */
  lemma ClientReceiveServes(w: World, id: nat)
    requires Inv(w) && SlotsOwn(w) && id in w.wire && w.wire[id].heading.Outbound? && w.wire[id].heading.conn.ClientConn?
    ensures ServesBut(w, DoClientReceive(w, id), Some(w.wire[id].heading.conn))
  {
    var w', x := DoClientReceive(w, id), OnWire(id);
    assert Carried(w, x) == Some(w.wire[id]);
    ReplyAwaited(w, id);
    ClosedShift(w, w', id);
    ShiftDrops(w, w', x);
  }

  /** Only the taken frame goes: the slot that closing the connection drops is empty. */
  lemma ClosedShift(w: World, w': World, id: nat)
    requires Inv(w) && SlotsOwn(w) && id in w.wire && w.wire[id].heading.Outbound? && w.wire[id].heading.conn.ClientConn?
    requires w' == DoClientReceive(w, id)
    ensures Shift(w, w', OnWire(id), OnWire(id)) && Carried(w', OnWire(id)).None?
  {
    var conn := w.wire[id].heading.conn;
    assert Carried(w, OnWire(id)) == Some(w.wire[id]);
    ReplyAwaited(w, id);
    Bindings.ClientReceiveShape(w, id);
    if Carried(w, InSlot(conn)).Some? {
      OneClient(w, InSlot(conn), OnWire(id));
      assert false;
    }
    ClosedCarried(w, w', id, conn);
    SameShift(w, w', OnWire(id), OnWire(id));
  }

  lemma ClosedCarried(w: World, w': World, id: nat, conn: Conn)
    requires w'.ms == Closed(w.ms, conn) && w'.wire == w.wire - {id} && w'.fsSlots == w.fsSlots
    requires Carried(w, InSlot(conn)).None?
    ensures Carried(w', OnWire(id)).None? && forall z: Carrier :: z != OnWire(id) ==> Carried(w', z) == Carried(w, z)
  {
  }

  // Serving

  /** Frame `id`, of session `s` or opening session `s`, was answered by `t` in the same
      conversation. */
  ghost predicate AnsweredBy(w: World, w': World, id: nat, s: nat, t: Transit) {
    && MayServe(w, id) && Answers(w, w', id, t) && AgreeOff(w, w', s)
    && (s == w.ms.nextId || SidOf(w.wire[id].frame) == Some(s)) && ConvOf(w', t) == ConvOf(w, w.wire[id])
    && (w.wire[id].heading.conn.FileServerConn? && ConvOf(w, w.wire[id]).Some? ==> t.heading.conn.ClientConn?)
  }

  lemma AnswerShift(w: World, w': World, id: nat, s: nat, t: Transit)
    requires Inv(w) && AnsweredBy(w, w', id, s, t)
    ensures var x, y := OnWire(id), InSlot(w.wire[id].heading.conn);
      && Shift(w, w', x, y) && Carried(w', y) == Some(t) && ConvAt(w', y) == ConvAt(w, x)
      && ServesBut(w, w', ConvAt(w, y))
  {
    var x, y := OnWire(id), InSlot(w.wire[id].heading.conn);
    AnswersCarried(w, w', id, t);
    forall z: Carrier | z != y && z != x
      ensures ConvAt(w', z) == ConvAt(w, z)
    {
      AnswersOther(w, w', id, t, z);
      if Carried(w, z).Some? {
        NoOther(w, id, s, z);
        assert TransitOk(w, Carried(w, z).value);
        OffStays(w, w', s, Carried(w, z).value);
      }
    }
    ShiftMoves(w, w', x, y);
  }

  lemma AnswersOther(w: World, w': World, id: nat, t: Transit, z: Carrier)
    requires MayServe(w, id) && Answers(w, w', id, t) && z != OnWire(id) && z != InSlot(w.wire[id].heading.conn)
    ensures Carried(w', z) == Carried(w, z)
  {
  }

  lemma InitAnswered(w: World, id: nat)
    requires Inv(w) && MayServe(w, id) && w.wire[id].frame.SyInitRequest? && w.ms.registry != []
    ensures exists t :: AnsweredBy(w, DoServe(w, id), id, w.ms.nextId, t)
  {
    RequestFromClient(w, id);
    var s := Session(w.wire[id].heading.conn, w.ms.registry[0], w.wire[id].frame.repo, Initialising, [], []);
    ServeInitShape(w, id, s);
    InsertAnswered(w, DoServe(w, id), id, s, Transit(Outbound(s.fileserver), SyInit(w.ms.nextId, s.repo)));
  }

  lemma ConnectAnswered(w: World, id: nat)
    requires Inv(w) && MayServe(w, id) && w.wire[id].frame.SyConnect? && w.wire[id].frame.uri in w.ms.uris
    ensures exists t :: AnsweredBy(w, DoServe(w, id), id, w.ms.nextId, t)
  {
    RequestFromClient(w, id);
    var place := w.ms.uris[w.wire[id].frame.uri];
    var s := Session(w.wire[id].heading.conn, place.fileserver, place.repo, Connecting, [], []);
    ServeConnectShape(w, id, s);
    InsertAnswered(w, DoServe(w, id), id, s, Transit(Outbound(s.client), SyConnectOk(w.ms.nextId)));
  }

  lemma InsertAnswered(w: World, w': World, id: nat, session: Session, t: Transit)
    requires Inv(w) && Inserted(w, w', id, session, t)
    ensures AnsweredBy(w, w', id, w.ms.nextId, t)
  {
    InsertedTransit(w, w', id, session, t);
    InsertedRecords(w, w', id, session, t);
  }

  lemma SessionAnswered(w: World, id: nat)
    requires Inv(w) && MayServe(w, id) && ReadsSession(w.wire[id].frame)
    ensures exists t :: AnsweredBy(w, DoServe(w, id), id, w.wire[id].frame.sid, t)
  {
    RecordFound(w, id);
    OutcomeFrame(w, id);
    OutcomeState(w, id);
    var ms' := Handle(w.ms, w.wire[id].heading.conn, w.wire[id].frame);
    ServedFields(w, id, ms');
    SessionAnsweredBy(w, DoServe(w, id), id, Outcome(w, id).0, Outcome(w, id).1);
  }

  lemma SessionAnsweredBy(w: World, w': World, id: nat, s: Session, t: Transit)
    requires Inv(w) && MayServe(w, id) && SidOf(w.wire[id].frame).Some? && w.wire[id].frame.sid in w.ms.sessions
    requires Answers(w, w', id, t) && w'.clients == w.clients && w'.latest == w.latest
    requires w'.ms.sessions == w.ms.sessions[w.wire[id].frame.sid := s] && SidOf(t.frame) == Some(w.wire[id].frame.sid)
    requires ConvOf(w, w.wire[id]) == Some(s.client) && HeadsRight(t, s.client, s.fileserver)
    requires OpOf(t.frame) == OpOf(w.wire[id].frame) && !IsRequest(t.frame)
    requires !IsRequest(w.wire[id].frame) ==> t.frame.SyInitOk? || t.frame.SyStatusOk? || t.frame == w.wire[id].frame
    ensures AnsweredBy(w, w', id, w.wire[id].frame.sid, t)
  {
    assert Carried(w, OnWire(id)) == Some(w.wire[id]);
    ConvOwner(w, OnWire(id));
  }

  lemma OtherAnswered(w: World, id: nat, s: nat)
    requires Inv(w) && MayServe(w, id)
    requires w.wire[id].frame.FsRegister? || w.wire[id].frame.SyCleanup?
    requires s == if w.wire[id].frame.SyCleanup? then w.wire[id].frame.sid else w.ms.nextId
    ensures exists t :: AnsweredBy(w, DoServe(w, id), id, s, t)
  {
    var from, f, w' := w.wire[id].heading.conn, w.wire[id].frame, DoServe(w, id);
    ServedFields(w, id, Handle(w.ms, from, f));
    var t := Transit(Outbound(from), if f.SyCleanup? then SyCleanupOk else FsRegisterOk);
    if f.SyCleanup? {
      CleanupTransit(w, w', id);
    } else {
      RegisterTransit(w, id);
    }
    assert AnsweredBy(w, w', id, s, t);
  }

  /** The server drops two kinds of request and answers every other frame. */
  predicate Drops(w: World, id: nat)
    requires MayServe(w, id)
  {
    || (w.wire[id].frame.SyInitRequest? && w.ms.registry == [])
    || (w.wire[id].frame.SyConnect? && w.wire[id].frame.uri !in w.ms.uris)
  }

  lemma ServeAnswers(w: World, id: nat)
    requires Inv(w) && MayServe(w, id) && !Drops(w, id)
    ensures exists s, t :: AnsweredBy(w, DoServe(w, id), id, s, t)
  {
    var f := w.wire[id].frame;
    assert Carried(w, OnWire(id)) == Some(w.wire[id]);
    assert TransitOk(w, w.wire[id]);
    if ReadsSession(f) {
      SessionAnswered(w, id);
    } else if f.SyInitRequest? {
      InitAnswered(w, id);
    } else if f.SyConnect? {
      ConnectAnswered(w, id);
    } else if f.SyCleanup? {
      OtherAnswered(w, id, f.sid);
    } else {
      OtherAnswered(w, id, w.ms.nextId);
    }
  }

  lemma RecordedNone(w: World, from: Conn, f: Frame)
    requires Place(w.ms, f).None? && !f.FsInitOk?
    ensures Recorded(w, from, f, w.ms) == w
  {
  }

  lemma DropIs(w: World, id: nat)
    requires Inv(w) && MayServe(w, id) && Drops(w, id)
    ensures DoServe(w, id) == Consume(w, id)
  {
    var from, f := w.wire[id].heading.conn, w.wire[id].frame;
    ServeIs(w, id, from, f, w.ms);
    RecordedNone(Consume(w, id), from, f);
  }

  lemma DropServes(w: World, id: nat)
    requires Inv(w) && MayServe(w, id) && Drops(w, id)
    ensures Shift(w, DoServe(w, id), OnWire(id), OnWire(id))
    ensures ServesBut(w, DoServe(w, id), Some(w.wire[id].heading.conn))
  {
    DropIs(w, id);
    RequestFromClient(w, id);
    var w', x := Consume(w, id), OnWire(id);
    assert ConvAt(w, x) == ConvOf(w, w.wire[id]);
    SameShift(w, w', x, x);
    ShiftDrops(w, w', x);
  }

  lemma ServeServes(w: World, id: nat)
    requires Inv(w) && SlotsOwn(w)
    ensures ServesBut(w, DoServe(w, id), LostBy(w, Serve(id))) && SlotsOwn(DoServe(w, id))
  {
    if MayServe(w, id) {
      var w', from := DoServe(w, id), w.wire[id].heading.conn;
      if Drops(w, id) {
        DropServes(w, id);
        ShiftOwns(w, w', OnWire(id), OnWire(id));
      } else {
        ServeAnswers(w, id);
        var s, t :| AnsweredBy(w, w', id, s, t);
        AnswerShift(w, w', id, s, t);
        assert Carried(w, OnWire(id)) == Some(w.wire[id]);
        ShiftOwns(w, w', OnWire(id), InSlot(from));
      }
    }
  }

  lemma ShiftOwns(w: World, w': World, x: Carrier, y: Carrier)
    requires SlotsOwn(w) && Shift(w, w', x, y)
    requires y.InSlot? && y.conn.ClientConn? && Carried(w', y).Some? ==> ConvAt(w', y) == Some(y.conn)
    ensures SlotsOwn(w')
  {
    forall conn: Conn | conn.ClientConn? && Carried(w', InSlot(conn)).Some?
      ensures ConvAt(w', InSlot(conn)) == Some(conn)
    {
      if InSlot(conn) != y {
        assert Carried(w, InSlot(conn)).Some?;
      }
    }
  }

  // A request

  lemma AskCarried(w: World, w': World, k: nat, f: Frame, y: Carrier)
    requires MayAsk(w, k, f) && w' == DoAsk(w, k, f) && y == OnWire(w.nextWire) && w.nextWire !in w.wire
    ensures Carried(w', y) == Some(Transit(Inbound(ClientConn(k, w.nextConn)), f)) && Carried(w, y).None?
    ensures forall z: Carrier :: z != y ==> Carried(w', z) == Carried(w, z)
    ensures w'.ms == w.ms && w'.nextConn == w.nextConn + 1
    ensures k in w'.clients && w'.clients[k].Waiting? && w'.clients[k].conn == ClientConn(k, w.nextConn)
    ensures forall j :: j in w'.clients && j != k ==> j in w.clients && w'.clients[j] == w.clients[j]
  {
  }

  lemma AskServes(w: World, k: nat, f: Frame)
    requires Inv(w) && MayAsk(w, k, f)
    ensures Shift(w, DoAsk(w, k, f), OnWire(w.nextWire), OnWire(w.nextWire))
    ensures forall c: Conn :: Serves(DoAsk(w, k, f), c) <==> Serves(w, c) || c == ClientConn(k, w.nextConn)
  {
    var w', y := DoAsk(w, k, f), OnWire(w.nextWire);
    AskCarried(w, w', k, f, y);
    forall z: Carrier | z != y
      ensures ConvAt(w', z) == ConvAt(w, z)
    {
      if Carried(w, z).Some? {
        SameConv(w, w', Carried(w, z).value);
      }
    }
    assert ConvAt(w', y) == Some(ClientConn(k, w.nextConn));
    AskAdds(w, w', y, ClientConn(k, w.nextConn));
  }

  lemma AskAdds(w: World, w': World, y: Carrier, conn: Conn)
    requires ConvAt(w', y) == Some(conn) && ConvAt(w, y) == None
    requires forall z: Carrier :: z != y ==> ConvAt(w', z) == ConvAt(w, z)
    ensures forall c: Conn :: Serves(w', c) <==> Serves(w, c) || c == conn
  {
    forall c: Conn
      ensures Serves(w', c) <==> Serves(w, c) || c == conn
    {
      if Serves(w', c) {
        var z: Carrier :| ConvAt(w', z) == Some(c);
        assert z != y ==> ConvAt(w, z) == Some(c);
      }
      if Serves(w, c) {
        var z: Carrier :| ConvAt(w, z) == Some(c);
        assert ConvAt(w', z) == Some(c);
      }
    }
  }

  // All runs

  /** A waiting client's frame is in flight exactly if its connection is not lost. */
  ghost predicate Flow(w: World, lost: set<Conn>) {
    && SlotsOwn(w)
    && (forall conn :: conn in lost && conn.ClientConn? ==> conn.n < w.nextConn)
    && (forall k :: k in w.clients && w.clients[k].Waiting? ==> (Serves(w, w.clients[k].conn) <==> w.clients[k].conn !in lost))
  }

  function With(lost: set<Conn>, conn: Option<Conn>): set<Conn> {
    lost + if conn.Some? then {conn.value} else {}
  }

  lemma ServesFlow(w: World, w': World, lost: set<Conn>, conn: Option<Conn>)
    requires Inv(w) && Flow(w, lost) && SlotsOwn(w') && ServesBut(w, w', conn)
    requires w'.clients == w.clients && w'.nextConn == w.nextConn
    requires conn.Some? && conn.value.ClientConn? ==> conn.value.n < w.nextConn
    ensures Flow(w', With(lost, conn))
  {
  }

  /** What a frame serves was asked for. */
  lemma ConvBelow(w: World, x: Carrier)
    requires Inv(w) && ConvAt(w, x).Some? && ConvAt(w, x).value.ClientConn?
    ensures ConvAt(w, x).value.n < w.nextConn
  {
    var conn := ConvAt(w, x).value;
    assert TransitOk(w, Carried(w, x).value);
    assert ClientOk(w, conn.client, w.clients[conn.client]);
  }

  lemma LostBelow(w: World, step: Step)
    requires Inv(w)
    ensures LostBy(w, step).Some? && LostBy(w, step).value.ClientConn? ==> LostBy(w, step).value.n < w.nextConn
  {
    match step
    case Register(n) => LostBelowAt(w, InFsSlot(FileServerConn(n)));
    case Serve(id) =>
      if MayServe(w, id) {
        if Drops(w, id) {
          RequestFromClient(w, id);
          assert ConvAt(w, OnWire(id)) == Some(w.wire[id].heading.conn);
          LostBelowAt(w, OnWire(id));
        } else {
          LostBelowAt(w, InSlot(w.wire[id].heading.conn));
        }
      }
    case FsReceive(id, sums) =>
      if MayRead(w, id) {
        LostBelowAt(w, InFsSlot(w.wire[id].heading.conn));
      }
    case _ =>
  }

  lemma LostBelowAt(w: World, x: Carrier)
    requires Inv(w)
    ensures ConvAt(w, x).Some? && ConvAt(w, x).value.ClientConn? ==> ConvAt(w, x).value.n < w.nextConn
  {
    if ConvAt(w, x).Some? && ConvAt(w, x).value.ClientConn? {
      ConvBelow(w, x);
    }
  }

  lemma AskFlow(w: World, lost: set<Conn>, k: nat, f: Frame)
    requires Inv(w) && Flow(w, lost)
    ensures Flow(DoAsk(w, k, f), lost)
  {
    if MayAsk(w, k, f) {
      var w', y := DoAsk(w, k, f), OnWire(w.nextWire);
      AskServes(w, k, f);
      AskCarried(w, w', k, f, y);
      ShiftOwns(w, w', y, y);
      forall j | j in w'.clients && w'.clients[j].Waiting?
        ensures Serves(w', w'.clients[j].conn) <==> w'.clients[j].conn !in lost
      {
        if j != k {
          assert ClientOk(w, j, w.clients[j]);
        }
      }
    }
  }

  lemma ClientFlow(w: World, lost: set<Conn>, id: nat)
    requires Inv(w) && Flow(w, lost)
    ensures Flow(DoClientReceive(w, id), lost)
  {
    if id in w.wire && w.wire[id].heading.Outbound? && w.wire[id].heading.conn.ClientConn? {
      var w', conn := DoClientReceive(w, id), w.wire[id].heading.conn;
      ReplyAwaited(w, id);
      ClientReceiveServes(w, id);
      ClosedShift(w, w', id);
      ShiftOwns(w, w', OnWire(id), OnWire(id));
      forall j | j in w'.clients && w'.clients[j].Waiting?
        ensures Serves(w', w'.clients[j].conn) <==> w'.clients[j].conn !in lost
      {
        assert ClientOk(w, j, w.clients[j]);
      }
    }
  }

  lemma ServeFields(w: World, id: nat)
    requires Inv(w)
    ensures DoServe(w, id).clients == w.clients && DoServe(w, id).nextConn == w.nextConn
  {
    if MayServe(w, id) {
      var from, f := w.wire[id].heading.conn, w.wire[id].frame;
      FrameServed(w, id);
      ServeIs(w, id, from, f, Handle(w.ms, from, f));
      RecordedFields(Consume(w, id), from, f, Handle(w.ms, from, f));
    }
  }

  lemma FrameServed(w: World, id: nat)
    requires Inv(w) && MayServe(w, id)
    ensures Served(w.ms, w.wire[id].frame)
  {
    if ReadsSession(w.wire[id].frame) {
      RecordFound(w, id);
    }
  }

  lemma ServeFlow(w: World, lost: set<Conn>, id: nat)
    requires Inv(w) && Flow(w, lost)
    ensures Flow(DoServe(w, id), With(lost, LostBy(w, Serve(id))))
  {
    LostBelow(w, Serve(id));
    ServeServes(w, id);
    ServeFields(w, id);
    ServesFlow(w, DoServe(w, id), lost, LostBy(w, Serve(id)));
  }

  lemma FlushFlow(w: World, lost: set<Conn>, on: Conn)
    requires Inv(w) && Flow(w, lost)
    ensures Flow(DoFlush(w, on), lost)
  {
    if on in w.ms.writable {
      FlushServes(w, on);
      FlushShift(w, on);
      ShiftOwns(w, DoFlush(w, on), InSlot(on), OnWire(w.nextWire));
      ServesFlow(w, DoFlush(w, on), lost, None);
    }
  }

  lemma TakenFields(w: World, id: nat, conn: Conn, reply: Option<Frame>)
    ensures var w' := Taken(w, id, conn, reply);
      w'.ms == w.ms && w'.clients == w.clients && w'.nextConn == w.nextConn
  {
  }

  /** The server's slots are not touched. */
  lemma FsReceiveFields(w: World, id: nat, sums: seq<FileSum>)
    ensures var w' := DoFsReceive(w, id, sums);
      w'.ms == w.ms && w'.clients == w.clients && w'.nextConn == w.nextConn
  {
    if id in w.wire && w.wire[id].heading.Outbound? && w.wire[id].heading.conn.FileServerConn? {
      TakenFields(w, id, w.wire[id].heading.conn, FsReply(w.wire[id].frame, sums));
    }
  }

  lemma FsReceiveFlow(w: World, lost: set<Conn>, id: nat, sums: seq<FileSum>)
    requires Inv(w) && Flow(w, lost)
    ensures Flow(DoFsReceive(w, id, sums), With(lost, LostBy(w, FsReceive(id, sums))))
  {
    LostBelow(w, FsReceive(id, sums));
    FsReceiveServes(w, id, sums);
    FsReceiveFields(w, id, sums);
    SameSlotsOwn(w, DoFsReceive(w, id, sums));
    ServesFlow(w, DoFsReceive(w, id, sums), lost, LostBy(w, FsReceive(id, sums)));
  }

  lemma SameSlotsOwn(w: World, w': World)
    requires SlotsOwn(w) && w'.ms == w.ms
    ensures SlotsOwn(w')
  {
    forall conn: Conn | conn.ClientConn? && Carried(w', InSlot(conn)).Some?
      ensures ConvAt(w', InSlot(conn)) == Some(conn)
    {
      assert Carried(w, InSlot(conn)) == Carried(w', InSlot(conn));
    }
  }

  lemma FsFlushFlow(w: World, lost: set<Conn>, conn: Conn)
    requires Inv(w) && Flow(w, lost)
    ensures Flow(DoFsFlush(w, conn), lost)
  {
    FsFlushServes(w, conn);
    SameSlotsOwn(w, DoFsFlush(w, conn));
    ServesFlow(w, DoFsFlush(w, conn), lost, None);
  }

  lemma ApplyFlow(w: World, lost: set<Conn>, step: Step)
    requires Inv(w) && Flow(w, lost)
    ensures Flow(Apply(w, step), With(lost, LostBy(w, step)))
  {
    LostBelow(w, step);
    match step
    case Register(n) =>
      RegisterServes(w, n);
      ShiftOwns(w, Apply(w, step), InFsSlot(FileServerConn(n)), InFsSlot(FileServerConn(n)));
      ServesFlow(w, Apply(w, step), lost, LostBy(w, step));
    case Ask(k, f) => AskFlow(w, lost, k, f);
    case Serve(id) => ServeFlow(w, lost, id);
    case Flush(conn) => FlushFlow(w, lost, conn);
    case FsReceive(id, sums) => FsReceiveFlow(w, lost, id, sums);
    case FsFlush(conn) => FsFlushFlow(w, lost, conn);
    case ClientReceive(id) => ClientFlow(w, lost, id);
  }

  lemma {:induction false} RunFlow(clients: set<nat>, steps: seq<Step>)
    ensures Flow(Run(Init(clients), steps), LostIn(clients, steps))
  {
    if steps != [] {
      var before := steps[..|steps| - 1];
      RunInv(clients, before);
      RunFlow(clients, before);
      ApplyFlow(Run(Init(clients), before), LostIn(clients, before), steps[|steps| - 1]);
    }
  }

  /** In every run a waiting client has exactly one frame in flight, its request or what
      became of it, unless some step lost it; then it has none and waits for ever. */
  lemma RunReplies(clients: set<nat>, steps: seq<Step>, k: nat)
    requires var w := Run(Init(clients), steps); k in w.clients && w.clients[k].Waiting?
    ensures var w := Run(Init(clients), steps);
      var conn := w.clients[k].conn;
      && ((exists x: Carrier :: ConvAt(w, x) == Some(conn)) <==> conn !in LostIn(clients, steps))
      && forall x: Carrier, y: Carrier :: ConvAt(w, x) == Some(conn) && ConvAt(w, y) == Some(conn) ==> x == y
  {
    RunFlow(clients, steps);
    RunInv(clients, steps);
  }

  // The way to the reply

  /** How far a frame is from the client that waits for its reply. */
  function Stage(x: Carrier, t: Transit): nat {
    match x
    case InFsSlot(conn) => 4
    case InSlot(conn) => if t.heading.conn.ClientConn? then 2 else 6
    case OnWire(id) =>
      if t.heading.Inbound? then if t.heading.conn.ClientConn? then 7 else 3
      else if t.heading.conn.ClientConn? then 1 else 5
  }

  /** The step that takes the frame on. */
  function Onward(x: Carrier, t: Transit): Step {
    match x
    case InFsSlot(conn) => FsFlush(conn)
    case InSlot(conn) => Flush(conn)
    case OnWire(id) =>
      if t.heading.Inbound? then Serve(id)
      else if t.heading.conn.ClientConn? then ClientReceive(id) else FsReceive(id, [])
  }

  /** The frame in `x` serves `conn` and is not a request that the server would drop. */
  ghost predicate Underway(w: World, x: Carrier, conn: Conn) {
    ConvAt(w, x) == Some(conn) && conn.ClientConn? && (x.OnWire? && MayServe(w, x.id) ==> !Drops(w, x.id))
  }

  /** A frame that serves `conn` is at a lower stage than before. */
  ghost predicate Nearer(w: World, x: Carrier, w': World, y: Carrier, conn: Conn)
    requires Carried(w, x).Some?
  {
    Underway(w', y, conn) && Stage(y, Carried(w', y).value) < Stage(x, Carried(w, x).value)
  }

  lemma AdvanceServe(w: World, id: nat, conn: Conn)
    requires Inv(w) && MayServe(w, id) && Underway(w, OnWire(id), conn)
    ensures Nearer(w, OnWire(id), DoServe(w, id), InSlot(w.wire[id].heading.conn), conn)
  {
    ServeAnswers(w, id);
    var s, t :| AnsweredBy(w, DoServe(w, id), id, s, t);
    AnswerShift(w, DoServe(w, id), id, s, t);
    assert Carried(w, OnWire(id)) == Some(w.wire[id]);
  }

  lemma AdvanceFlush(w: World, on: Conn, conn: Conn)
    requires Inv(w) && Underway(w, InSlot(on), conn)
    ensures Nearer(w, InSlot(on), DoFlush(w, on), OnWire(w.nextWire), conn)
  {
    FlushShift(w, on);
    FlushFields(w, on);
  }

  lemma AdvanceFsReceive(w: World, id: nat, conn: Conn)
    requires Inv(w) && Underway(w, OnWire(id), conn) && w.wire[id].heading.Outbound? && w.wire[id].heading.conn.FileServerConn?
    ensures Nearer(w, OnWire(id), DoFsReceive(w, id, []), InFsSlot(w.wire[id].heading.conn), conn)
  {
    assert Carried(w, OnWire(id)) == Some(w.wire[id]);
    assert TransitOk(w, w.wire[id]);
    FsReceiveShift(w, id, []);
  }

  lemma AdvanceFsFlush(w: World, on: Conn, conn: Conn)
    requires Inv(w) && Underway(w, InFsSlot(on), conn)
    ensures Nearer(w, InFsSlot(on), DoFsFlush(w, on), OnWire(w.nextWire), conn)
  {
    var w' := DoFsFlush(w, on);
    assert Carried(w', OnWire(w.nextWire)) == Carried(w, InFsSlot(on));
    SameConv(w, w', Carried(w, InFsSlot(on)).value);
  }

  lemma Delivered(w: World, id: nat, conn: Conn)
    requires Inv(w) && Underway(w, OnWire(id), conn) && w.wire[id].heading.Outbound? && w.wire[id].heading.conn.ClientConn?
    ensures var w' := DoClientReceive(w, id);
      conn.client in w'.clients && w'.clients[conn.client].Idle?
  {
    ReplyAwaited(w, id);
  }

  lemma Advance(w: World, x: Carrier, conn: Conn)
    requires Inv(w) && Underway(w, x, conn)
    ensures var w' := Apply(w, Onward(x, Carried(w, x).value));
      || (conn.client in w'.clients && w'.clients[conn.client].Idle?)
      || (exists y: Carrier :: Nearer(w, x, w', y, conn))
  {
    match x
    case InSlot(on) => AdvanceFlush(w, on, conn);
    case InFsSlot(on) => AdvanceFsFlush(w, on, conn);
    case OnWire(id) => AdvanceWire(w, id, conn);
  }

  lemma AdvanceWire(w: World, id: nat, conn: Conn)
    requires Inv(w) && Underway(w, OnWire(id), conn)
    ensures var w' := Apply(w, Onward(OnWire(id), w.wire[id]));
      || (conn.client in w'.clients && w'.clients[conn.client].Idle?)
      || (exists y: Carrier :: Nearer(w, OnWire(id), w', y, conn))
  {
    if w.wire[id].heading.Inbound? {
      AdvanceServe(w, id, conn);
    } else if w.wire[id].heading.conn.ClientConn? {
      Delivered(w, id, conn);
    } else {
      AdvanceFsReceive(w, id, conn);
    }
  }

  ghost predicate FinishedIn(w: World, more: seq<Step>, k: nat) {
    var w' := Run(w, more);
    k in w'.clients && w'.clients[k].Idle?
  }

  lemma {:induction false} RunOn(w: World, step: Step, more: seq<Step>)
    ensures Run(w, [step] + more) == Run(Apply(w, step), more)
    decreases |more|
  {
    if more == [] {
      assert [step] + more == [step] && [step][..0] == [];
    } else {
      assert ([step] + more)[..|more|] == [step] + more[..|more| - 1];
      RunOn(w, step, more[..|more| - 1]);
    }
  }

  /** One step more before a run that finishes. */
  lemma FinishedOn(w: World, step: Step, more: seq<Step>, k: nat)
    requires FinishedIn(Apply(w, step), more, k)
    ensures FinishedIn(w, [step] + more, k)
  {
    RunOn(w, step, more);
  }

  /** The steps that bring the client its reply, at most seven. */
  lemma {:induction false} Reaches(w: World, x: Carrier, conn: Conn) returns (more: seq<Step>)
    requires Inv(w) && Underway(w, x, conn)
    ensures |more| <= Stage(x, Carried(w, x).value) && FinishedIn(w, more, conn.client)
    decreases Stage(x, Carried(w, x).value), 1
  {
    var step := Onward(x, Carried(w, x).value);
    Advance(w, x, conn);
    ApplyKeeps(w, step);
    more := After(w, x, conn, step, Apply(w, step));
    FinishedOn(w, step, more, conn.client);
    more := [step] + more;
  }

  lemma {:induction false} After(w: World, x: Carrier, conn: Conn, step: Step, w': World) returns (more: seq<Step>)
    requires Underway(w, x, conn) && Inv(w')
    requires || (conn.client in w'.clients && w'.clients[conn.client].Idle?)
             || (exists y: Carrier :: Nearer(w, x, w', y, conn))
    ensures |more| < Stage(x, Carried(w, x).value) && FinishedIn(w', more, conn.client)
    decreases Stage(x, Carried(w, x).value), 0
  {
    if conn.client in w'.clients && w'.clients[conn.client].Idle? {
      more := [];
    } else {
      var y: Carrier :| Nearer(w, x, w', y, conn);
      more := Reaches(w', y, conn);
    }
  }

  /** From every reachable state, a waiting client whose frame was not lost can still get
      its reply within seven steps, unless the frame is a request that the server would
      drop now. */
  lemma ReplyInReach(clients: set<nat>, steps: seq<Step>, k: nat)
    requires var w := Run(Init(clients), steps);
      && k in w.clients && w.clients[k].Waiting? && w.clients[k].conn !in LostIn(clients, steps)
      && forall id :: MayServe(w, id) && w.wire[id].heading.conn == w.clients[k].conn ==> !Drops(w, id)
    ensures exists more :: |more| <= 7 && FinishedIn(Run(Init(clients), steps), more, k)
  {
    RunReplies(clients, steps, k);
    RunInv(clients, steps);
    var w := Run(Init(clients), steps);
    var conn := w.clients[k].conn;
    assert ClientOk(w, k, w.clients[k]);
    var x: Carrier :| ConvAt(w, x) == Some(conn);
    if x.OnWire? && MayServe(w, x.id) && Drops(w, x.id) {
      RequestFromClient(w, x.id);
      assert false;
    }
    var more := Reaches(w, x, conn);
  }
}
