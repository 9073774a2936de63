/** The metadata server's handlers keep the invariant of the session protocol. */
module ServeSafety {
  import opened Bytes
  import opened Checksums
  import opened Metadata
  import opened Sessions
  import opened SessionSafety

  predicate MayServe(w: World, id: nat) {
    id in w.wire && w.wire[id].heading.Inbound?
  }

  /** Besides the frame being served none belongs to session `s`. */
  lemma NoOther(w: World, id: nat, s: nat, z: Carrier)
    requires Inv(w) && MayServe(w, id)
    requires s == w.ms.nextId || SidOf(w.wire[id].frame) == Some(s)
    requires z != OnWire(id) && Carried(w, z).Some?
    ensures SidOf(Carried(w, z).value.frame) != Some(s)
  {
    if SidOf(Carried(w, z).value.frame) == Some(s) {
      assert Carried(w, OnWire(id)) == Some(w.wire[id]);
      ConvOwner(w, z);
      OneSession(w, z, OnWire(id), s);
      assert false;
    }
  }

  /** `w'` is `w` after the frame `id` was consumed and the slot of its connection was
      filled with `t`. */
  ghost predicate Answers(w: World, w': World, id: nat, t: Transit)
    requires MayServe(w, id)
  {
    var from := w.wire[id].heading.conn;
    && w'.wire == w.wire - {id} && w'.fsSlots == w.fsSlots && t.heading.Outbound?
    && w'.ms.slots == w.ms.slots[from := Slot(Some(t.heading.conn), t.frame)]
    && w'.ms.writable == w.ms.writable + {from}
  }

  lemma AnswersCarried(w: World, w': World, id: nat, t: Transit)
    requires MayServe(w, id) && Answers(w, w', id, t)
    ensures var x, y := OnWire(id), InSlot(w.wire[id].heading.conn);
      && Carried(w, x) == Some(w.wire[id]) && Carried(w', y) == Some(t)
      && forall z: Carrier :: z != y && Carried(w', z).Some? ==> z != x && Carried(w', z) == Carried(w, z)
  {
  }

  /** A handler that touches only session `s` and answers in the same conversation. */
  lemma Answered(w: World, w': World, id: nat, s: nat, t: Transit)
    requires Inv(w) && MayServe(w, id) && Answers(w, w', id, t) && AgreeOff(w, w', s)
    requires s == w.ms.nextId || SidOf(w.wire[id].frame) == Some(s)
    requires TransitOk(w', t) && ConvOf(w', t) == ConvOf(w, w.wire[id])
    ensures TransitsOk(w') && OneEach(w')
  {
    var x, y := OnWire(id), InSlot(w.wire[id].heading.conn);
    AnswersCarried(w, w', id, t);
    forall z: Carrier | z != x && Carried(w, z).Some?
      ensures StaysOk(w, w', Carried(w, z).value)
    {
      NoOther(w, id, s, z);
      assert TransitOk(w, Carried(w, z).value);
      OffStays(w, w', s, Carried(w, z).value);
    }
    Resettled(w, w', Some(x), y);
  }

  /** Clients notice neither a new session nor a change of a record. */
  lemma ClientsServed(w: World, w': World)
    requires Inv(w) && w'.clients == w.clients && w'.nextConn == w.nextConn
    requires forall sid :: sid in w.owner ==> sid in w'.owner && w'.owner[sid] == w.owner[sid]
    requires forall sid :: sid in w.latest ==> sid in w'.latest && w'.latest[sid] == w.latest[sid]
    requires w.ms.sessions.Keys <= w'.ms.sessions.Keys
    ensures ClientsOk(w')
  {
    forall k | k in w'.clients
      ensures ClientOk(w', k, w'.clients[k])
    {
      assert ClientOk(w, k, w.clients[k]);
    }
  }

  // New sessions

  /** A session was inserted for the client connection that asked, and `t` answers. */
  ghost predicate Inserted(w: World, w': World, id: nat, session: Session, t: Transit) {
    && MayServe(w, id) && Answers(w, w', id, t)
    && session.client == w.wire[id].heading.conn && session.client.ClientConn? && session.fileserver.FileServerConn?
    && (if w.wire[id].frame.SyInitRequest?
        then t == Transit(Outbound(session.fileserver), SyInit(w.ms.nextId, session.repo))
        else w.wire[id].frame.SyConnect? && t == Transit(Outbound(session.client), SyConnectOk(w.ms.nextId)))
    && w'.clients == w.clients && w'.nextConn == w.nextConn && w'.nextWire == w.nextWire
    && w'.owner == w.owner[w.ms.nextId := session.client.client]
    && w'.latest == w.latest[w.ms.nextId := session.client]
    && w'.ms.sessions == w.ms.sessions[w.ms.nextId := session] && w'.ms.nextId == w.ms.nextId + 1
    && w'.ms.uris == w.ms.uris && w'.ms.registry == w.ms.registry
    && w'.crashed == w.crashed && w'.stray == w.stray
  }

  lemma InsertedTransit(w: World, w': World, id: nat, session: Session, t: Transit)
    requires Inv(w) && Inserted(w, w', id, session, t)
    ensures TransitOk(w', t) && ConvOf(w', t) == ConvOf(w, w.wire[id])
  {
    assert Carried(w, OnWire(id)) == Some(w.wire[id]);
    assert TransitOk(w, w.wire[id]);
    assert ClientOk(w, session.client.client, w.clients[session.client.client]);
  }

  lemma InsertedKeeps(w: World, w': World, id: nat, session: Session, t: Transit)
    requires Inv(w) && Inserted(w, w', id, session, t)
    ensures Inv(w')
  {
    InsertedTransit(w, w', id, session, t);
    InsertedRecords(w, w', id, session, t);
    Answered(w, w', id, w.ms.nextId, t);
    ClientsServed(w, w');
  }

  lemma InsertedRecords(w: World, w': World, id: nat, session: Session, t: Transit)
    requires RecordsOk(w) && Inserted(w, w', id, session, t)
    ensures RecordsOk(w') && w.ms.nextId !in w.ms.sessions && w.ms.nextId !in w.owner && w.ms.nextId !in w.latest
  {
  }

  lemma ServeInitShape(w: World, id: nat, session: Session)
    requires MayServe(w, id) && w.wire[id].frame.SyInitRequest? && w.ms.registry != []
    requires w.wire[id].heading.conn.ClientConn? && w.ms.registry[0].FileServerConn?
    requires session == Session(w.wire[id].heading.conn, w.ms.registry[0], w.wire[id].frame.repo, Initialising, [], [])
    ensures Inserted(w, DoServe(w, id), id, session,
                     Transit(Outbound(session.fileserver), SyInit(w.ms.nextId, session.repo)))
  {
  }

  lemma ServeInitKeeps(w: World, id: nat)
    requires Inv(w) && MayServe(w, id) && w.wire[id].frame.SyInitRequest?
    ensures Inv(DoServe(w, id))
  {
    RequestFromClient(w, id);
    if w.ms.registry == [] {
      DroppedServe(w, id);
    } else {
      var session := Session(w.wire[id].heading.conn, w.ms.registry[0], w.wire[id].frame.repo, Initialising, [], []);
      ServeInitShape(w, id, session);
      InsertedKeeps(w, DoServe(w, id), id, session,
                    Transit(Outbound(session.fileserver), SyInit(w.ms.nextId, session.repo)));
    }
  }

  /** A request that the server drops. */
  lemma DroppedServe(w: World, id: nat)
    requires Inv(w) && MayServe(w, id) && Served(w.ms, w.wire[id].frame) && !w.wire[id].frame.FsInitOk?
    requires Handle(w.ms, w.wire[id].heading.conn, w.wire[id].frame) == w.ms
    ensures Inv(DoServe(w, id))
  {
    DroppedKeeps(w, id);
    assert DoServe(w, id) == Consume(w, id);
  }

  lemma RequestFromClient(w: World, id: nat)
    requires Inv(w) && MayServe(w, id) && IsRequest(w.wire[id].frame)
    ensures w.wire[id].heading.conn.ClientConn? && ConvOf(w, w.wire[id]) == Some(w.wire[id].heading.conn)
  {
    assert Carried(w, OnWire(id)) == Some(w.wire[id]);
    assert TransitOk(w, w.wire[id]);
  }

  lemma ServeConnectShape(w: World, id: nat, session: Session)
    requires MayServe(w, id) && w.wire[id].frame.SyConnect? && w.wire[id].frame.uri in w.ms.uris
    requires w.wire[id].heading.conn.ClientConn? && w.ms.uris[w.wire[id].frame.uri].fileserver.FileServerConn?
    requires var place := w.ms.uris[w.wire[id].frame.uri];
      session == Session(w.wire[id].heading.conn, place.fileserver, place.repo, Connecting, [], [])
    ensures Inserted(w, DoServe(w, id), id, session, Transit(Outbound(session.client), SyConnectOk(w.ms.nextId)))
  {
  }

  lemma ServeConnectKeeps(w: World, id: nat)
    requires Inv(w) && MayServe(w, id) && w.wire[id].frame.SyConnect?
    ensures Inv(DoServe(w, id))
  {
    RequestFromClient(w, id);
    var uri := w.wire[id].frame.uri;
    if uri !in w.ms.uris {
      DroppedServe(w, id);
    } else {
      var place := w.ms.uris[uri];
      var session := Session(w.wire[id].heading.conn, place.fileserver, place.repo, Connecting, [], []);
      ServeConnectShape(w, id, session);
      InsertedKeeps(w, DoServe(w, id), id, session, Transit(Outbound(session.client), SyConnectOk(w.ms.nextId)));
    }
  }

  // Existing sessions

  /** The record of the frame's session changed in its client connection, state or lists;
      `t` answers in the same conversation. */
  ghost predicate Changed(w: World, w': World, id: nat, session: Session, t: Transit) {
    && MayServe(w, id) && Answers(w, w', id, t) && SidOf(w.wire[id].frame).Some? && w.wire[id].frame.sid in w.ms.sessions
    && var sid := w.wire[id].frame.sid;
    && SidOf(t.frame) == Some(sid) && OpOf(t.frame) == OpOf(w.wire[id].frame)
    && Some(session.client) == ConvOf(w, w.wire[id]) && session.fileserver == w.ms.sessions[sid].fileserver
    && !IsRequest(t.frame) && HeadsRight(t, session.client, session.fileserver)
    && w'.clients == w.clients && w'.nextConn == w.nextConn && w'.nextWire == w.nextWire
    && w'.owner == w.owner && w'.latest == w.latest
    && w'.ms.sessions == w.ms.sessions[sid := session]
    && w'.ms.nextId >= w.ms.nextId && w'.ms.registry == w.ms.registry
    && (forall uri :: uri in w'.ms.uris ==> w'.ms.uris[uri].fileserver.FileServerConn?)
    && w'.crashed == w.crashed && w'.stray == w.stray
  }

  lemma ChangedTransit(w: World, w': World, id: nat, session: Session, t: Transit)
    requires Inv(w) && Changed(w, w', id, session, t)
    ensures TransitOk(w', t) && ConvOf(w', t) == ConvOf(w, w.wire[id])
    ensures session.client.ClientConn? && session.client.client == w.owner[w.wire[id].frame.sid]
  {
    assert Carried(w, OnWire(id)) == Some(w.wire[id]);
    assert TransitOk(w, w.wire[id]);
    ConvOwner(w, OnWire(id));
  }

  lemma ChangedKeeps(w: World, w': World, id: nat, session: Session, t: Transit)
    requires Inv(w) && Changed(w, w', id, session, t)
    ensures Inv(w')
  {
    ChangedTransit(w, w', id, session, t);
    Answered(w, w', id, w.wire[id].frame.sid, t);
    ClientsServed(w, w');
  }

  /** A frame of a session finds the session's record. */
  lemma RecordFound(w: World, id: nat)
    requires Inv(w) && MayServe(w, id) && SidOf(w.wire[id].frame).Some?
    ensures Served(w.ms, w.wire[id].frame) && w.wire[id].frame.sid in w.ms.sessions
    ensures w.wire[id].frame.sid < w.ms.nextId
    ensures var conn, s := w.wire[id].heading.conn, w.ms.sessions[w.wire[id].frame.sid];
      && s.fileserver.FileServerConn?
      && if IsRequest(w.wire[id].frame) then ConvOf(w, w.wire[id]) == Some(conn) && conn.ClientConn?
         else conn == s.fileserver && ConvOf(w, w.wire[id]) == Some(s.client)
  {
    assert Carried(w, OnWire(id)) == Some(w.wire[id]);
    assert TransitOk(w, w.wire[id]);
    ConvOwner(w, OnWire(id));
  }

  /** The record and the answer that the handler of a session's frame leaves. */
  function Outcome(w: World, id: nat): (Session, Transit)
    requires MayServe(w, id) && ReadsSession(w.wire[id].frame) && w.wire[id].frame.sid in w.ms.sessions
  {
    var from, f := w.wire[id].heading.conn, w.wire[id].frame;
    var s := w.ms.sessions[f.sid];
    if f.SyStatusRequest? then
      (s.(state := StatusAsked, files := ClientRows(f.sums), client := from),
       Transit(Outbound(s.fileserver), SyStatus(f.sid, s.repo)))
    else if f.SyUploadRequest? then
      (s.(client := from), Transit(Outbound(s.fileserver), SyUpload(f.sid, s.repo)))
    else if f.SyDownloadRequest? then
      (s.(client := from), Transit(Outbound(s.fileserver), SyDownload(f.sid, s.repo, s.diff)))
    else if f.FsInitOk? then
      (s.(state := Initialised), Transit(Outbound(s.client), SyInitOk(f.sid, w.ms.nextId)))
    else if f.FsStatusOk? then
      var client := ClientSums(s.files);
      (s.(files := Join(f.sums, client), diff := DiffOf(f.sums, client)),
       Transit(Outbound(s.client), SyStatusOk(f.sid, DiffOf(f.sums, client))))
    else (s, Transit(Outbound(s.client), f))
  }

  /** The answer belongs to the operation and heads where it should. */
  lemma OutcomeFrame(w: World, id: nat)
    requires MayServe(w, id) && ReadsSession(w.wire[id].frame) && w.wire[id].frame.sid in w.ms.sessions
    ensures var f := w.wire[id].frame;
      var (s, t) := Outcome(w, id);
      && SidOf(t.frame) == Some(f.sid) && OpOf(t.frame) == OpOf(f) && !IsRequest(t.frame)
      && HeadsRight(t, s.client, s.fileserver) && t.heading.Outbound?
      && s.fileserver == w.ms.sessions[f.sid].fileserver
      && s.client == if IsRequest(f) then w.wire[id].heading.conn else w.ms.sessions[f.sid].client
  {
  }

  /** The handler writes that record and fills its slot with that answer. */
  lemma OutcomeState(w: World, id: nat)
    requires MayServe(w, id) && ReadsSession(w.wire[id].frame) && w.wire[id].frame.sid in w.ms.sessions
    ensures var f, ms' := w.wire[id].frame, Handle(w.ms, w.wire[id].heading.conn, w.wire[id].frame);
      var (s, t) := Outcome(w, id);
      && ms' == Fill(Update(w.ms, f.sid, s), w.wire[id].heading.conn, t.heading.conn, t.frame)
                  .(uris := ms'.uris, nextId := ms'.nextId)
      && (if f.FsInitOk? then
            ms'.uris == w.ms.uris[w.ms.nextId := Location(s.fileserver, s.repo)] && ms'.nextId == w.ms.nextId + 1
          else ms'.uris == w.ms.uris && ms'.nextId == w.ms.nextId)
  {
    var f := w.wire[id].frame;
    assert w.ms.sessions[f.sid := w.ms.sessions[f.sid]] == w.ms.sessions;
  }

  lemma RecordedFields(w: World, from: Conn, f: Frame, ms: MsState)
    ensures var w' := Recorded(w, from, f, ms);
      && w'.ms == ms && w'.wire == w.wire && w'.fsSlots == w.fsSlots && w'.nextWire == w.nextWire
      && w'.clients == w.clients && w'.nextConn == w.nextConn && w'.crashed == w.crashed && w'.stray == w.stray
  {
  }

  lemma RecordedOwners(w: World, from: Conn, f: Frame, ms: MsState)
    requires !f.SyInitRequest? && !f.SyConnect?
    ensures var w' := Recorded(w, from, f, ms);
      w'.owner == w.owner && w'.latest == w.latest
  {
  }

  lemma ServeIs(w: World, id: nat, from: Conn, f: Frame, ms': MsState)
    requires MayServe(w, id) && from == w.wire[id].heading.conn && f == w.wire[id].frame && Served(w.ms, f)
    requires Handle(w.ms, from, f) == ms'
    ensures DoServe(w, id) == Recorded(Consume(w, id), from, f, ms')
  {
  }

  /** Serving a frame that inserts no session leaves clients and history alone. */
  lemma ServedFields(w: World, id: nat, ms': MsState)
    requires MayServe(w, id) && Served(w.ms, w.wire[id].frame)
    requires !w.wire[id].frame.SyInitRequest? && !w.wire[id].frame.SyConnect?
    requires ms' == Handle(w.ms, w.wire[id].heading.conn, w.wire[id].frame)
    ensures var w' := DoServe(w, id);
      && w'.ms == ms' && w'.wire == w.wire - {id} && w'.fsSlots == w.fsSlots && w'.nextWire == w.nextWire
      && w'.clients == w.clients && w'.nextConn == w.nextConn && w'.owner == w.owner && w'.latest == w.latest
      && w'.crashed == w.crashed && w'.stray == w.stray
  {
    var from, f := w.wire[id].heading.conn, w.wire[id].frame;
    ServeIs(w, id, from, f, ms');
    RecordedFields(Consume(w, id), from, f, ms');
    RecordedOwners(Consume(w, id), from, f, ms');
  }

  lemma SessionServed(w: World, w': World, id: nat, s: Session, t: Transit)
    requires Inv(w) && MayServe(w, id) && SidOf(w.wire[id].frame).Some? && w.wire[id].frame.sid in w.ms.sessions
    requires var f, old_ := w.wire[id].frame, w.ms.sessions[w.wire[id].frame.sid];
      && SidOf(t.frame) == Some(f.sid) && OpOf(t.frame) == OpOf(f) && !IsRequest(t.frame) && t.heading.Outbound?
      && HeadsRight(t, s.client, s.fileserver) && s.fileserver == old_.fileserver
      && ConvOf(w, w.wire[id]) == Some(s.client)
    requires w'.wire == w.wire - {id} && w'.fsSlots == w.fsSlots && w'.nextWire == w.nextWire
    requires w'.clients == w.clients && w'.nextConn == w.nextConn && w'.owner == w.owner && w'.latest == w.latest
    requires w'.crashed == w.crashed && w'.stray == w.stray
    requires w'.ms == Fill(Update(w.ms, w.wire[id].frame.sid, s), w.wire[id].heading.conn, t.heading.conn, t.frame)
                        .(uris := w'.ms.uris, nextId := w'.ms.nextId)
    requires w'.ms.nextId >= w.ms.nextId
    requires w'.ms.uris == w.ms.uris || w'.ms.uris == w.ms.uris[w.ms.nextId := Location(s.fileserver, s.repo)]
    ensures Inv(w')
  {
    ChangedKeeps(w, w', id, s, t);
  }

  lemma ServeSessionKeeps(w: World, id: nat)
    requires Inv(w) && MayServe(w, id) && ReadsSession(w.wire[id].frame)
    ensures Inv(DoServe(w, id))
  {
    RecordFound(w, id);
    OutcomeFrame(w, id);
    OutcomeState(w, id);
    var ms' := Handle(w.ms, w.wire[id].heading.conn, w.wire[id].frame);
    ServedFields(w, id, ms');
    SessionServed(w, DoServe(w, id), id, Outcome(w, id).0, Outcome(w, id).1);
  }

  // Cleanup and registration

  lemma CleanupTransit(w: World, w': World, id: nat)
    requires Inv(w) && MayServe(w, id) && w.wire[id].frame.SyCleanup?
    requires w'.clients == w.clients
    ensures var from := w.wire[id].heading.conn;
      var t := Transit(Outbound(from), SyCleanupOk);
      TransitOk(w', t) && ConvOf(w', t) == ConvOf(w, w.wire[id])
  {
    assert Carried(w, OnWire(id)) == Some(w.wire[id]);
    assert TransitOk(w, w.wire[id]);
  }

  /** Nobody holds a session that is being cleaned up. */
  lemma CleanupClients(w: World, w': World, id: nat)
    requires Inv(w) && MayServe(w, id) && w.wire[id].frame.SyCleanup?
    requires w'.clients == w.clients && w'.nextConn == w.nextConn && w'.owner == w.owner && w'.latest == w.latest
    requires w'.ms.sessions == w.ms.sessions - {w.wire[id].frame.sid}
    ensures ClientsOk(w')
  {
    assert Carried(w, OnWire(id)) == Some(w.wire[id]);
    assert TransitOk(w, w.wire[id]);
    var k := w.wire[id].heading.conn.client;
    assert ClientOk(w, k, w.clients[k]);
    forall j | j in w'.clients
      ensures ClientOk(w', j, w'.clients[j])
    {
      assert ClientOk(w, j, w.clients[j]);
    }
  }

  lemma ServeCleanupKeeps(w: World, id: nat)
    requires Inv(w) && MayServe(w, id) && w.wire[id].frame.SyCleanup?
    ensures Inv(DoServe(w, id))
  {
    var from, ms' := w.wire[id].heading.conn, Handle(w.ms, w.wire[id].heading.conn, w.wire[id].frame);
    var w' := DoServe(w, id);
    ServedFields(w, id, ms');
    CleanupTransit(w, w', id);
    CleanupClients(w, w', id);
    Answered(w, w', id, w.wire[id].frame.sid, Transit(Outbound(from), SyCleanupOk));
  }

  lemma RegisterTransit(w: World, id: nat)
    requires Inv(w) && MayServe(w, id) && w.wire[id].frame.FsRegister?
    ensures w.wire[id].heading.conn.FileServerConn? && ConvOf(w, w.wire[id]) == None
  {
    assert Carried(w, OnWire(id)) == Some(w.wire[id]);
    assert TransitOk(w, w.wire[id]);
  }

  lemma ServeRegisterKeeps(w: World, id: nat)
    requires Inv(w) && MayServe(w, id) && w.wire[id].frame.FsRegister?
    ensures Inv(DoServe(w, id))
  {
    var from, ms' := w.wire[id].heading.conn, Handle(w.ms, w.wire[id].heading.conn, w.wire[id].frame);
    var w' := DoServe(w, id);
    ServedFields(w, id, ms');
    RegisterTransit(w, id);
    Answered(w, w', id, w.ms.nextId, Transit(Outbound(from), FsRegisterOk));
    ClientsServed(w, w');
  }

  lemma ServeKeeps(w: World, id: nat)
    requires Inv(w)
    ensures Inv(DoServe(w, id))
  {
    if MayServe(w, id) {
      var f := w.wire[id].frame;
      if ReadsSession(f) {
        ServeSessionKeeps(w, id);
      } else if f.SyInitRequest? {
        ServeInitKeeps(w, id);
      } else if f.SyConnect? {
        ServeConnectKeeps(w, id);
      } else if f.SyCleanup? {
        ServeCleanupKeeps(w, id);
      } else if f.FsRegister? {
        ServeRegisterKeeps(w, id);
      } else {
        DroppedServe(w, id);
      }
    }
  }
}
