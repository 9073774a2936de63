/** Every step of the session protocol keeps its invariant. */
module SessionSafety {
  import opened Bytes
  import opened Checksums
  import opened Metadata
  import opened Sessions

  // Frames that a step leaves alone

  ghost predicate StaysOk(w: World, w': World, t: Transit) {
    TransitOk(w', t) && ConvOf(w', t) == ConvOf(w, t)
  }

  /** The two states agree on clients and on every session but `s`. */
  ghost predicate AgreeOff(w: World, w': World, s: nat) {
    && w'.clients == w.clients
    && (forall sid :: sid != s ==> (sid in w'.ms.sessions <==> sid in w.ms.sessions))
    && (forall sid :: sid != s && sid in w.ms.sessions ==> w'.ms.sessions[sid] == w.ms.sessions[sid])
    && (forall sid :: sid != s && sid in w.latest ==> sid in w'.latest && w'.latest[sid] == w.latest[sid])
  }

  lemma OffStays(w: World, w': World, s: nat, t: Transit)
    requires TransitOk(w, t) && AgreeOff(w, w', s) && SidOf(t.frame) != Some(s)
    ensures StaysOk(w, w', t)
  {
  }

  /** A frame stays in order while its client, its session and the session's latest
      request do. */
  lemma StaysIf(w: World, w': World, t: Transit)
    requires TransitOk(w, t) && w'.ms.sessions == w.ms.sessions
    requires ConvOf(w, t).Some? && ConvOf(w, t).value.ClientConn? ==>
      var k := ConvOf(w, t).value.client;
      k in w.clients ==> k in w'.clients && w'.clients[k] == w.clients[k]
    requires SidOf(t.frame).Some? && t.frame.sid in w.latest ==>
      t.frame.sid in w'.latest && w'.latest[t.frame.sid] == w.latest[t.frame.sid]
    ensures StaysOk(w, w', t)
  {
  }

  /** Frames that serve requests of one client are one frame. */
  lemma OneClient(w: World, x: Carrier, y: Carrier)
    requires Inv(w) && Carried(w, x).Some? && Carried(w, y).Some?
    requires ConvOf(w, Carried(w, x).value).Some? && ConvOf(w, Carried(w, y).value).Some?
    requires ConvOf(w, Carried(w, x).value).value.ClientConn? && ConvOf(w, Carried(w, y).value).value.ClientConn?
    requires ConvOf(w, Carried(w, x).value).value.client == ConvOf(w, Carried(w, y).value).value.client
    ensures x == y
  {
    assert TransitOk(w, Carried(w, x).value) && TransitOk(w, Carried(w, y).value);
  }

  /** The owner of a frame's session is the client whose request it serves. */
  lemma ConvOwner(w: World, x: Carrier)
    requires Inv(w) && Carried(w, x).Some? && SidOf(Carried(w, x).value.frame).Some?
    ensures var t := Carried(w, x).value;
      && ConvOf(w, t).Some? && ConvOf(w, t).value.ClientConn?
      && t.frame.sid in w.ms.sessions && t.frame.sid in w.owner
      && ConvOf(w, t).value.client == w.owner[t.frame.sid]
  {
    var t := Carried(w, x).value;
    assert TransitOk(w, t);
    var conn := ConvOf(w, t).value;
    assert ClientOk(w, conn.client, w.clients[conn.client]);
  }

  /** A session has at most one frame in flight. */
  lemma OneSession(w: World, x: Carrier, y: Carrier, s: nat)
    requires Inv(w) && Carried(w, x).Some? && Carried(w, y).Some?
    requires SidOf(Carried(w, x).value.frame) == Some(s) == SidOf(Carried(w, y).value.frame)
    ensures x == y
  {
    ConvOwner(w, x);
    ConvOwner(w, y);
    OneClient(w, x, y);
  }

  // Steps as moves of one frame

  /** The frame in `gone` disappears, a frame may appear in `y`, all others stay. */
  lemma Resettled(w: World, w': World, gone: Option<Carrier>, y: Carrier)
    requires TransitsOk(w) && OneEach(w)
    requires forall z: Carrier :: z != y && Carried(w', z).Some? ==> Some(z) != gone && Carried(w', z) == Carried(w, z)
    requires forall z: Carrier :: Some(z) != gone && Carried(w, z).Some? ==> StaysOk(w, w', Carried(w, z).value)
    requires Carried(w', y).Some? ==> TransitOk(w', Carried(w', y).value)
    requires forall z: Carrier ::
      (Some(z) != gone && Carried(w, z).Some? && Carried(w', y).Some? && ConvOf(w, Carried(w, z).value).Some?)
      ==> ConvOf(w, Carried(w, z).value) != ConvOf(w', Carried(w', y).value)
    ensures TransitsOk(w') && OneEach(w')
  {
    forall z: Carrier | Carried(w', z).Some?
      ensures TransitOk(w', Carried(w', z).value)
    {
      if z != y {
        assert StaysOk(w, w', Carried(w, z).value);
      }
    }
    forall z: Carrier, v: Carrier | Carried(w', z).Some? && Carried(w', v).Some?
      && ConvOf(w', Carried(w', z).value).Some?
      && ConvOf(w', Carried(w', z).value) == ConvOf(w', Carried(w', v).value)
      ensures z == v
    {
      if z != y {
        assert StaysOk(w, w', Carried(w, z).value);
      }
      if v != y {
        assert StaysOk(w, w', Carried(w, v).value);
      }
    }
  }

  /** A frame moves on without a change of records, clients or history. */
  lemma Moved(w: World, w': World, x: Carrier, y: Carrier)
    requires Inv(w) && Carried(w, x).Some?
    requires w'.clients == w.clients && w'.ms.sessions == w.ms.sessions && w'.latest == w.latest
    requires forall z: Carrier :: z != y && Carried(w', z).Some? ==> z != x && Carried(w', z) == Carried(w, z)
    requires Carried(w', y).Some? ==>
      && TransitOk(w', Carried(w', y).value)
      && ConvOf(w', Carried(w', y).value) == ConvOf(w, Carried(w, x).value)
    ensures TransitsOk(w') && OneEach(w')
  {
    forall z: Carrier | z != x && Carried(w, z).Some?
      ensures StaysOk(w, w', Carried(w, z).value)
    {
      assert TransitOk(w, Carried(w, z).value);
    }
    Resettled(w, w', Some(x), y);
  }

  lemma ClientsStay(w: World, w': World)
    requires ClientsOk(w) && w'.clients == w.clients && w'.nextConn == w.nextConn
    requires w'.owner == w.owner && w'.latest == w.latest && w.ms.sessions.Keys <= w'.ms.sessions.Keys
    ensures ClientsOk(w')
  {
    forall k | k in w'.clients
      ensures ClientOk(w', k, w'.clients[k])
    {
      assert ClientOk(w, k, w.clients[k]);
    }
  }

  /** Records, clients and history are the same. */
  ghost predicate SameBooks(w: World, w': World) {
    && w'.clients == w.clients && w'.nextConn == w.nextConn && w'.owner == w.owner && w'.latest == w.latest
    && w'.ms.sessions == w.ms.sessions && w'.ms.uris == w.ms.uris && w'.ms.registry == w.ms.registry
    && w'.ms.nextId == w.ms.nextId && w'.crashed == w.crashed && w'.stray == w.stray
  }

  /** A carried frame goes to another carrier as it is. */
  lemma CarriedOn(w: World, w': World, x: Carrier, y: Carrier)
    requires Inv(w) && Carried(w, x).Some? && SameBooks(w, w')
    requires Carried(w', y) == Carried(w, x)
    requires forall z: Carrier :: z != y && Carried(w', z).Some? ==> z != x && Carried(w', z) == Carried(w, z)
    ensures TransitsOk(w') && OneEach(w') && ClientsOk(w')
  {
    assert TransitOk(w, Carried(w, x).value);
    Moved(w, w', x, y);
    ClientsStay(w, w');
  }

  lemma FlushKeeps(w: World, on: Conn)
    requires Inv(w)
    ensures Inv(DoFlush(w, on))
  {
    var w' := DoFlush(w, on);
    if on in w.ms.writable {
      assert Carried(w', OnWire(w.nextWire)) == Carried(w, InSlot(on));
      CarriedOn(w, w', InSlot(on), OnWire(w.nextWire));
    }
  }

  lemma FsFlushKeeps(w: World, conn: Conn)
    requires Inv(w)
    ensures Inv(DoFsFlush(w, conn))
  {
    var w' := DoFsFlush(w, conn);
    if conn in w.fsSlots {
      CarriedOn(w, w', InFsSlot(conn), OnWire(w.nextWire));
    }
  }

  /** The file server's answer serves the same request. */
  lemma FsReplyOk(w: World, t: Transit, sums: seq<FileSum>)
    requires Inv(w) && TransitOk(w, t) && t.heading.Outbound? && t.heading.conn.FileServerConn?
    requires FsReply(t.frame, sums).Some?
    ensures var t' := Transit(Inbound(t.heading.conn), FsReply(t.frame, sums).value);
      TransitOk(w, t') && ConvOf(w, t') == ConvOf(w, t)
  {
  }

  lemma FsAnsweredKeeps(w: World, w': World, id: nat, sums: seq<FileSum>)
    requires Inv(w)
    requires id in w.wire && w.wire[id].heading.Outbound? && w.wire[id].heading.conn.FileServerConn?
    requires FsReply(w.wire[id].frame, sums).Some?
    requires w' == w.(wire := w.wire - {id},
                      fsSlots := w.fsSlots[w.wire[id].heading.conn := FsReply(w.wire[id].frame, sums).value])
    ensures Inv(w')
  {
    var t, x, y := w.wire[id], OnWire(id), InFsSlot(w.wire[id].heading.conn);
    var t' := Transit(Inbound(t.heading.conn), FsReply(t.frame, sums).value);
    assert Carried(w, x) == Some(t) && Carried(w', y) == Some(t');
    assert StaysOk(w, w', t') && ConvOf(w, t') == ConvOf(w, t) by {
      FsReplyOk(w, t, sums);
    }
    Moved(w, w', x, y);
    ClientsStay(w, w');
  }

  /** A frame that is dropped. */
  lemma DroppedKeeps(w: World, id: nat)
    requires Inv(w) && id in w.wire
    ensures Inv(Consume(w, id))
  {
    var w' := Consume(w, id);
    Moved(w, w', OnWire(id), OnWire(id));
    ClientsStay(w, w');
  }

  lemma FsReceiveKeeps(w: World, id: nat, sums: seq<FileSum>)
    requires Inv(w)
    ensures Inv(DoFsReceive(w, id, sums))
  {
    if id in w.wire && w.wire[id].heading.Outbound? && w.wire[id].heading.conn.FileServerConn? {
      if FsReply(w.wire[id].frame, sums).None? {
        DroppedKeeps(w, id);
      } else {
        FsAnsweredKeeps(w, DoFsReceive(w, id, sums), id, sums);
      }
    }
  }

  lemma RegisterKeeps(w: World, n: nat)
    requires Inv(w)
    ensures Inv(Apply(w, Register(n)))
  {
    var w' := Apply(w, Register(n));
    forall z: Carrier | Carried(w, z).Some?
      ensures StaysOk(w, w', Carried(w, z).value)
    {
      assert TransitOk(w, Carried(w, z).value);
    }
    Resettled(w, w', None, InFsSlot(FileServerConn(n)));
    ClientsStay(w, w');
  }

  // A client asks

  predicate MayAsk(w: World, k: nat, f: Frame) {
    && k in w.clients && w.clients[k].Idle? && IsRequest(f)
    && (SidOf(f).Some? ==> f.sid in w.clients[k].held)
  }

  /** No frame in flight serves an idle client or one of its sessions. */
  lemma IdleIsQuiet(w: World, z: Carrier, k: nat)
    requires Inv(w) && Carried(w, z).Some? && k in w.clients && w.clients[k].Idle?
    ensures var t := Carried(w, z).value;
      && (ConvOf(w, t).Some? && ConvOf(w, t).value.ClientConn? ==> ConvOf(w, t).value.client != k)
      && (SidOf(t.frame).Some? ==> t.frame.sid !in w.clients[k].held)
  {
    var t := Carried(w, z).value;
    assert TransitOk(w, t);
    if SidOf(t.frame).Some? {
      ConvOwner(w, z);
      assert ClientOk(w, k, w.clients[k]);
    }
  }

  /** What asking changes: the client, and the latest request of its session. */
  ghost predicate Asked(w: World, w': World, k: nat) {
    && w'.ms == w.ms && w'.owner == w.owner && w.nextConn <= w'.nextConn
    && k in w.clients && (forall j :: j in w.clients && j != k ==> j in w'.clients && w'.clients[j] == w.clients[j])
    && (forall sid :: sid in w.latest && sid !in w.clients[k].held ==> sid in w'.latest && w'.latest[sid] == w.latest[sid])
  }

  lemma AskShape(w: World, k: nat, f: Frame)
    requires MayAsk(w, k, f)
    ensures Asked(w, DoAsk(w, k, f), k)
  {
  }

  lemma AskStays(w: World, w': World, k: nat, z: Carrier)
    requires Inv(w) && Carried(w, z).Some? && k in w.clients && w.clients[k].Idle? && Asked(w, w', k)
    ensures StaysOk(w, w', Carried(w, z).value)
  {
    assert TransitOk(w, Carried(w, z).value);
    IdleIsQuiet(w, z, k);
    StaysIf(w, w', Carried(w, z).value);
  }

  lemma AskOther(w: World, w': World, k: nat, j: nat)
    requires Inv(w) && k in w.clients && j in w.clients && j != k && Asked(w, w', k)
    ensures ClientOk(w', j, w.clients[j])
  {
    assert ClientOk(w, k, w.clients[k]);
    assert ClientOk(w, j, w.clients[j]);
  }

  lemma RequestOp(f: Frame)
    requires IsRequest(f)
    ensures OpOf(f).Some? && (SidOf(f).None? <==> OpOf(f).value in {InitOp, ConnectOp})
    ensures OpOf(f) == Some(CleanupOp) <==> f.SyCleanup?
  {
  }

  lemma AskOwn(w: World, k: nat, f: Frame)
    requires Inv(w) && MayAsk(w, k, f)
    ensures ClientOk(DoAsk(w, k, f), k, DoAsk(w, k, f).clients[k])
  {
    RequestOp(f);
    AskClient(w, k, f);
    AskLatest(w, k, f);
    AskingOk(w, DoAsk(w, k, f), k, f, DoAsk(w, k, f).clients[k]);
  }

  lemma AskClient(w: World, k: nat, f: Frame)
    requires MayAsk(w, k, f) && OpOf(f).Some?
    ensures var w', held := DoAsk(w, k, f), w.clients[k].held;
      k in w'.clients && w'.clients[k] ==
           Waiting(if f.SyCleanup? then held - {f.sid} else held, ClientConn(k, w.nextConn), OpOf(f).value, SidOf(f))
  {
  }

  lemma AskLatest(w: World, k: nat, f: Frame)
    requires MayAsk(w, k, f)
    ensures var w' := DoAsk(w, k, f);
      && w'.ms == w.ms && w'.owner == w.owner && w'.nextConn == w.nextConn + 1
      && (SidOf(f).Some? ==> f.sid in w'.latest && w'.latest[f.sid] == ClientConn(k, w.nextConn))
  {
  }

  lemma AskingOk(w: World, w': World, k: nat, f: Frame, c: Client)
    requires Inv(w) && MayAsk(w, k, f)
    requires w'.ms == w.ms && w'.owner == w.owner && w'.nextConn == w.nextConn + 1
    requires var held := w.clients[k].held;
      c == Waiting(if f.SyCleanup? then held - {f.sid} else held, ClientConn(k, w.nextConn), OpOf(f).value, SidOf(f))
    requires SidOf(f).Some? ==> f.sid in w'.latest && w'.latest[f.sid] == ClientConn(k, w.nextConn)
    ensures ClientOk(w', k, c)
  {
    RequestOp(f);
    assert ClientOk(w, k, w.clients[k]);
  }

  lemma AskClients(w: World, k: nat, f: Frame)
    requires Inv(w) && MayAsk(w, k, f)
    ensures ClientsOk(DoAsk(w, k, f))
  {
    AskOwn(w, k, f);
    AskShape(w, k, f);
    forall j | j in w.clients && j != k
      ensures ClientOk(DoAsk(w, k, f), j, w.clients[j])
    {
      AskOther(w, DoAsk(w, k, f), k, j);
    }
  }

  lemma AskNew(w: World, k: nat, f: Frame)
    requires Inv(w) && MayAsk(w, k, f)
    ensures TransitOk(DoAsk(w, k, f), Transit(Inbound(ClientConn(k, w.nextConn)), f))
    ensures ConvOf(DoAsk(w, k, f), Transit(Inbound(ClientConn(k, w.nextConn)), f)) == Some(ClientConn(k, w.nextConn))
  {
    RequestOp(f);
    assert ClientOk(w, k, w.clients[k]);
  }

  lemma AskWire(w: World, k: nat, f: Frame)
    requires MayAsk(w, k, f)
    ensures var w' := DoAsk(w, k, f);
      && Carried(w', OnWire(w.nextWire)) == Some(Transit(Inbound(ClientConn(k, w.nextConn)), f))
      && forall z: Carrier :: z != OnWire(w.nextWire) && Carried(w', z).Some? ==> Carried(w', z) == Carried(w, z)
  {
  }

  lemma AskTransits(w: World, k: nat, f: Frame)
    requires Inv(w) && MayAsk(w, k, f)
    ensures TransitsOk(DoAsk(w, k, f)) && OneEach(DoAsk(w, k, f))
  {
    AskNew(w, k, f);
    AskShape(w, k, f);
    AskWire(w, k, f);
    AskedTransits(w, DoAsk(w, k, f), k, Transit(Inbound(ClientConn(k, w.nextConn)), f));
  }

  lemma AskedTransits(w: World, w': World, k: nat, t: Transit)
    requires Inv(w) && k in w.clients && w.clients[k].Idle? && Asked(w, w', k)
    requires Carried(w', OnWire(w.nextWire)) == Some(t) && TransitOk(w', t)
    requires ConvOf(w', t).Some? && ConvOf(w', t).value.ClientConn? && ConvOf(w', t).value.client == k
    requires forall z: Carrier :: z != OnWire(w.nextWire) && Carried(w', z).Some? ==> Carried(w', z) == Carried(w, z)
    ensures TransitsOk(w') && OneEach(w')
  {
    forall z: Carrier | Carried(w, z).Some?
      ensures StaysOk(w, w', Carried(w, z).value)
      ensures ConvOf(w, Carried(w, z).value).Some? ==> ConvOf(w, Carried(w, z).value) != ConvOf(w', t)
    {
      AskStays(w, w', k, z);
      IdleIsQuiet(w, z, k);
    }
    Resettled(w, w', None, OnWire(w.nextWire));
  }

  lemma AskKeeps(w: World, k: nat, f: Frame)
    requires Inv(w)
    ensures Inv(DoAsk(w, k, f))
  {
    if MayAsk(w, k, f) {
      AskClients(w, k, f);
      AskTransits(w, k, f);
      AskRecords(w, k, f);
    }
  }

  lemma AskRecords(w: World, k: nat, f: Frame)
    requires RecordsOk(w) && ClientsOk(w) && MayAsk(w, k, f)
    ensures RecordsOk(DoAsk(w, k, f))
  {
    assert ClientOk(w, k, w.clients[k]);
    AskHistory(w, k, f);
    RecordsStay(w, DoAsk(w, k, f), w.clients[k].held);
  }

  lemma AskHistory(w: World, k: nat, f: Frame)
    requires MayAsk(w, k, f)
    ensures var w' := DoAsk(w, k, f);
      && w'.ms == w.ms && w'.owner == w.owner && w'.latest.Keys <= w.latest.Keys + w.clients[k].held
      && w'.fsSlots == w.fsSlots && w'.crashed == w.crashed && w'.stray == w.stray
      && w'.wire.Keys <= w.wire.Keys + {w.nextWire} && w'.nextWire == w.nextWire + 1
  {
  }

  lemma RecordsStay(w: World, w': World, held: set<nat>)
    requires RecordsOk(w) && forall sid :: sid in held ==> sid in w.owner
    requires w'.ms == w.ms && w'.owner == w.owner && w'.latest.Keys <= w.latest.Keys + held
    requires w'.fsSlots == w.fsSlots && w'.crashed == w.crashed && w'.stray == w.stray
    requires w'.wire.Keys <= w.wire.Keys + {w.nextWire} && w'.nextWire == w.nextWire + 1
    ensures RecordsOk(w')
  {
  }

  // A client gets its reply

  /** What arrives at a client is the reply that it waits for. */
  lemma ReplyAwaited(w: World, id: nat)
    requires Inv(w) && id in w.wire && w.wire[id].heading.Outbound? && w.wire[id].heading.conn.ClientConn?
    ensures var conn := w.wire[id].heading.conn;
      && ConvOf(w, w.wire[id]) == Some(conn) && conn.client in w.clients
      && w.clients[conn.client].Waiting? && w.clients[conn.client].conn == conn
      && IsReplyTo(w.clients[conn.client].op, w.wire[id].frame)
  {
    var t := w.wire[id];
    assert Carried(w, OnWire(id)) == Some(t);
    assert TransitOk(w, t);
  }

  lemma WithoutSubset(conns: seq<Conn>, conn: Conn)
    ensures forall i :: 0 <= i < |Without(conns, conn)| ==> Without(conns, conn)[i] in conns
  {
  }

  lemma ReceiveStays(w: World, id: nat, z: Carrier)
    requires Inv(w) && id in w.wire && w.wire[id].heading.Outbound? && w.wire[id].heading.conn.ClientConn?
    requires z != OnWire(id) && Carried(w, z).Some?
    ensures StaysOk(w, DoClientReceive(w, id), Carried(w, z).value)
  {
    var t := Carried(w, z).value;
    assert Carried(w, OnWire(id)) == Some(w.wire[id]);
    assert TransitOk(w, t);
    ReplyAwaited(w, id);
    if ConvOf(w, t).Some? && ConvOf(w, t).value.ClientConn? && ConvOf(w, t).value.client == w.wire[id].heading.conn.client {
      OneClient(w, z, OnWire(id));
      assert false;
    }
    StaysIf(w, DoClientReceive(w, id), t);
  }

  lemma ReceiveClients(w: World, id: nat)
    requires Inv(w) && id in w.wire && w.wire[id].heading.Outbound? && w.wire[id].heading.conn.ClientConn?
    ensures ClientsOk(DoClientReceive(w, id))
  {
    var w', k := DoClientReceive(w, id), w.wire[id].heading.conn.client;
    ReplyAwaited(w, id);
    assert Carried(w, OnWire(id)) == Some(w.wire[id]);
    if SidOf(w.wire[id].frame).Some? {
      ConvOwner(w, OnWire(id));
    }
    forall j | j in w'.clients
      ensures ClientOk(w', j, w'.clients[j])
    {
      assert ClientOk(w, j, w.clients[j]);
    }
  }

  lemma ReceiveTransits(w: World, id: nat)
    requires Inv(w) && id in w.wire && w.wire[id].heading.Outbound? && w.wire[id].heading.conn.ClientConn?
    ensures TransitsOk(DoClientReceive(w, id)) && OneEach(DoClientReceive(w, id))
  {
    var w', x := DoClientReceive(w, id), OnWire(id);
    ReplyAwaited(w, id);
    forall z: Carrier | z != x && Carried(w, z).Some?
      ensures StaysOk(w, w', Carried(w, z).value)
    {
      ReceiveStays(w, id, z);
    }
    Resettled(w, w', Some(x), x);
  }

  lemma ClientReceiveKeeps(w: World, id: nat)
    requires Inv(w)
    ensures Inv(DoClientReceive(w, id))
  {
    if id in w.wire && w.wire[id].heading.Outbound? && w.wire[id].heading.conn.ClientConn? {
      ReplyAwaited(w, id);
      ReceiveClients(w, id);
      ReceiveTransits(w, id);
      WithoutSubset(w.ms.registry, w.wire[id].heading.conn);
    }
  }
}
