/** Sessions and addresses stay bound to one file server and repository. */
module Bindings {
  import opened Bytes
  import opened Checksums
  import opened Metadata
  import opened Sessions
  import opened ServeSafety
  import SessionSafety
  import opened SessionTheorems

  /** A frame of a running SY_INIT names a session that was not opened by an address. */
  predicate InitOk(w: World, f: Frame) {
    f.SyInit? || f.FsInitOk? ==> f.sid < w.ms.nextId && f.sid !in w.via
  }

  ghost predicate InitsOk(w: World) {
    && (forall id :: id in w.wire ==> InitOk(w, w.wire[id].frame))
    && (forall conn :: conn in w.ms.slots ==> InitOk(w, w.ms.slots[conn].frame))
    && (forall conn :: conn in w.fsSlots ==> InitOk(w, w.fsSlots[conn]))
  }

  /** A session record shows the file server and repository that the session was bound to
      when it was inserted. */
  ghost predicate RecordsBound(w: World) {
    forall sid :: sid in w.ms.sessions ==>
      sid in w.bound && w.bound[sid] == Location(w.ms.sessions[sid].fileserver, w.ms.sessions[sid].repo)
  }

  /** An address shows those of the SY_INIT session that made it. */
  ghost predicate AddressesBound(w: World) {
    forall uri :: uri in w.ms.uris ==>
      && uri in w.origin && w.origin[uri] in w.bound && w.origin[uri] !in w.via
      && w.ms.uris[uri] == w.bound[w.origin[uri]]
  }

  /** A session opened by SY_CONNECT is bound to what its address shows. */
  ghost predicate ConnectsBound(w: World) {
    forall sid :: sid in w.via ==> sid in w.bound && w.via[sid] in w.ms.uris && w.bound[sid] == w.ms.uris[w.via[sid]]
  }

  ghost predicate BindingsOk(w: World) {
    RecordsBound(w) && AddressesBound(w) && ConnectsBound(w)
  }

  ghost predicate IdsBelow(w: World) {
    && (forall sid :: sid in w.bound ==> sid < w.ms.nextId)
    && (forall uri :: uri in w.ms.uris ==> uri < w.ms.nextId)
  }

  ghost predicate BindInv(w: World) {
    InitsOk(w) && BindingsOk(w) && IdsBelow(w)
  }

  /** Nothing was inserted or removed. */
  predicate SameHistory(w: World, w': World) {
    && w'.bound == w.bound && w'.via == w.via && w'.origin == w.origin
    && w'.ms.sessions == w.ms.sessions && w'.ms.uris == w.ms.uris && w'.ms.nextId == w.ms.nextId
  }

  lemma AskKeeps(w: World, k: nat, f: Frame)
    requires InitsOk(w)
    ensures SameHistory(w, DoAsk(w, k, f)) && InitsOk(DoAsk(w, k, f))
  {
  }

  /** Every frame of `w'` was in `w` or is `f`. */
  ghost predicate FramesFrom(w: World, w': World, f: Frame) {
    && (forall id :: id in w'.wire ==> (id in w.wire && w'.wire[id] == w.wire[id]) || w'.wire[id].frame == f)
    && (forall conn :: conn in w'.ms.slots ==> conn in w.ms.slots && w'.ms.slots[conn].frame == w.ms.slots[conn].frame)
    && (forall conn :: conn in w'.fsSlots ==>
          (conn in w.fsSlots && w'.fsSlots[conn] == w.fsSlots[conn]) || w'.fsSlots[conn] == f)
  }

  lemma FramesKept(w: World, w': World, f: Frame)
    requires InitsOk(w) && SameHistory(w, w') && FramesFrom(w, w', f) && InitOk(w, f)
    ensures InitsOk(w')
  {
  }

  lemma FlushFrames(w: World, on: Conn)
    requires on in w.ms.writable && on in w.ms.slots && w.ms.slots[on].target.Some?
    ensures SameHistory(w, DoFlush(w, on)) && FramesFrom(w, DoFlush(w, on), w.ms.slots[on].frame)
  {
  }

  lemma FlushKeeps(w: World, on: Conn)
    requires InitsOk(w)
    ensures SameHistory(w, DoFlush(w, on)) && InitsOk(DoFlush(w, on))
  {
    if on in w.ms.writable && on in w.ms.slots && w.ms.slots[on].target.Some? {
      FlushFrames(w, on);
      FramesKept(w, DoFlush(w, on), w.ms.slots[on].frame);
    } else if on in w.ms.writable {
      FramesKept(w, w.(crashed := true), FsRegister);
      assert DoFlush(w, on) == w.(crashed := true);
    } else {
      assert DoFlush(w, on) == w;
    }
  }

  function ReplyOr(f: Frame, sums: seq<FileSum>): Frame {
    if FsReply(f, sums).None? then FsRegister else FsReply(f, sums).value
  }

  lemma TakenFrames(w: World, id: nat, conn: Conn, reply: Option<Frame>, f: Frame)
    requires f == if reply.None? then FsRegister else reply.value
    ensures SameHistory(w, Taken(w, id, conn, reply)) && FramesFrom(w, Taken(w, id, conn, reply), f)
  {
  }

  lemma FsReceiveFrames(w: World, id: nat, sums: seq<FileSum>, reply: Frame)
    requires id in w.wire && w.wire[id].heading.Outbound? && w.wire[id].heading.conn.FileServerConn?
    requires reply == ReplyOr(w.wire[id].frame, sums)
    ensures SameHistory(w, DoFsReceive(w, id, sums)) && FramesFrom(w, DoFsReceive(w, id, sums), reply)
  {
    TakenFrames(w, id, w.wire[id].heading.conn, FsReply(w.wire[id].frame, sums), reply);
  }

  lemma FsReceiveKeeps(w: World, id: nat, sums: seq<FileSum>)
    requires InitsOk(w)
    ensures SameHistory(w, DoFsReceive(w, id, sums)) && InitsOk(DoFsReceive(w, id, sums))
  {
    if id in w.wire && w.wire[id].heading.Outbound? && w.wire[id].heading.conn.FileServerConn? {
      var reply := ReplyOr(w.wire[id].frame, sums);
      FsReceiveFrames(w, id, sums, reply);
      FramesKept(w, DoFsReceive(w, id, sums), reply);
    }
  }

  lemma FsFlushKeeps(w: World, conn: Conn)
    requires InitsOk(w)
    ensures SameHistory(w, DoFsFlush(w, conn)) && InitsOk(DoFsFlush(w, conn))
  {
  }

  /** A frame was taken from the wire, and connections may have closed. */
  predicate Dropped(w: World, w': World) {
    && w'.wire.Keys <= w.wire.Keys && (forall id :: id in w'.wire ==> w'.wire[id] == w.wire[id])
    && w'.ms.slots.Keys <= w.ms.slots.Keys
    && (forall conn :: conn in w'.ms.slots ==> w'.ms.slots[conn] == w.ms.slots[conn])
    && w'.fsSlots == w.fsSlots
  }

  lemma ClosedDrops(w: World, w': World, id: nat, conn: Conn)
    requires w'.ms == Closed(w.ms, conn) && w'.wire == w.wire - {id} && w'.fsSlots == w.fsSlots
    ensures Dropped(w, w')
  {
  }

  lemma ClientReceiveShape(w: World, id: nat)
    requires id in w.wire && w.wire[id].heading.Outbound? && w.wire[id].heading.conn.ClientConn?
    requires var conn := w.wire[id].heading.conn;
      && conn.client in w.clients && w.clients[conn.client].Waiting? && w.clients[conn.client].conn == conn
      && IsReplyTo(w.clients[conn.client].op, w.wire[id].frame)
    ensures var w' := DoClientReceive(w, id);
      && w'.ms == Closed(w.ms, w.wire[id].heading.conn) && w'.wire == w.wire - {id} && w'.fsSlots == w.fsSlots
      && SameHistory(w, w')
  {
  }

  lemma ClientReceiveKeeps(w: World, id: nat)
    requires Inv(w) && InitsOk(w)
    ensures SameHistory(w, DoClientReceive(w, id)) && InitsOk(DoClientReceive(w, id))
  {
    if id in w.wire && w.wire[id].heading.Outbound? && w.wire[id].heading.conn.ClientConn? {
      SessionSafety.ReplyAwaited(w, id);
      ClientReceiveShape(w, id);
      ClosedDrops(w, DoClientReceive(w, id), id, w.wire[id].heading.conn);
      assert FramesFrom(w, DoClientReceive(w, id), FsRegister);
      FramesKept(w, DoClientReceive(w, id), FsRegister);
    }
  }

  lemma RegisterKeeps(w: World, n: nat)
    requires InitsOk(w)
    ensures SameHistory(w, Apply(w, Register(n))) && InitsOk(Apply(w, Register(n)))
  {
  }

  /** Entries, once made, never change, and none is removed. */
  ghost predicate Frozen(w: World, w': World) {
    && (forall sid :: sid in w.bound ==> sid in w'.bound && w'.bound[sid] == w.bound[sid])
    && (forall sid :: sid in w.bound ==> (sid in w'.via <==> sid in w.via))
    && (forall uri :: uri in w.ms.uris ==> uri in w'.ms.uris && w'.ms.uris[uri] == w.ms.uris[uri])
  }

  lemma SameKeeps(w: World, w': World)
    requires BindInv(w) && SameHistory(w, w') && InitsOk(w')
    ensures BindInv(w') && Frozen(w, w')
  {
  }

  // Serving

  /** The frames left after the server answered `id` with `t`. */
  lemma AnswerInits(w: World, w': World, id: nat, t: Transit)
    requires InitsOk(w) && MayServe(w, id) && Answers(w, w', id, t) && InitOk(w', t.frame)
    requires w.ms.nextId <= w'.ms.nextId
    requires forall sid :: sid < w.ms.nextId ==> (sid in w'.via <==> sid in w.via)
    ensures InitsOk(w')
  {
  }

  lemma ServedHistory(w: World, id: nat)
    requires MayServe(w, id) && Served(w.ms, w.wire[id].frame)
    requires !w.wire[id].frame.SyInitRequest? && !w.wire[id].frame.SyConnect?
    ensures var w' := DoServe(w, id);
      && w'.bound == w.bound && w'.via == w.via
      && w'.origin == if w.wire[id].frame.FsInitOk? then w.origin[w.ms.nextId := w.wire[id].frame.sid] else w.origin
  {
  }

  /** A record changed, but not in its binding. */
  lemma ChangedBinds(w: World, w': World, sid: nat, s: Session)
    requires BindingsOk(w) && IdsBelow(w) && sid in w.ms.sessions
    requires s.fileserver == w.ms.sessions[sid].fileserver && s.repo == w.ms.sessions[sid].repo
    requires w'.ms.sessions == w.ms.sessions[sid := s] && w'.bound == w.bound && w'.via == w.via
    requires w'.ms.uris == w.ms.uris && w'.ms.nextId == w.ms.nextId && w'.origin == w.origin
    ensures BindingsOk(w') && IdsBelow(w') && Frozen(w, w')
  {
  }

  /** A session that SY_INIT opened got its address. */
  lemma AddressBinds(w: World, w': World, sid: nat)
    requires BindingsOk(w) && IdsBelow(w) && sid in w.ms.sessions && sid !in w.via
    requires w'.ms.sessions == w.ms.sessions && w'.bound == w.bound && w'.via == w.via
    requires w'.ms.uris == w.ms.uris[w.ms.nextId := w.bound[sid]] && w'.ms.nextId == w.ms.nextId + 1
    requires w'.origin == w.origin[w.ms.nextId := sid]
    ensures BindingsOk(w') && IdsBelow(w') && Frozen(w, w')
  {
  }

  lemma ServeSessionBinds(w: World, id: nat)
    requires Inv(w) && BindInv(w) && MayServe(w, id) && ReadsSession(w.wire[id].frame)
    ensures BindInv(DoServe(w, id)) && Frozen(w, DoServe(w, id))
  {
    RecordFound(w, id);
    OutcomeState(w, id);
    var ms' := Handle(w.ms, w.wire[id].heading.conn, w.wire[id].frame);
    ServedFields(w, id, ms');
    ServedHistory(w, id);
    SessionBinds(w, DoServe(w, id), id, Outcome(w, id).0, Outcome(w, id).1);
  }

  lemma SessionBinds(w: World, w': World, id: nat, s: Session, t: Transit)
    requires BindInv(w) && MayServe(w, id) && SidOf(w.wire[id].frame).Some? && w.wire[id].frame.sid in w.ms.sessions
    requires Answers(w, w', id, t) && !t.frame.SyInit? && !t.frame.FsInitOk?
    requires var f, old_ := w.wire[id].frame, w.ms.sessions[w.wire[id].frame.sid];
      && s.fileserver == old_.fileserver && s.repo == old_.repo && w'.ms.sessions == w.ms.sessions[f.sid := s]
      && w'.bound == w.bound && w'.via == w.via
      && (if f.FsInitOk? then
            && w'.ms.uris == w.ms.uris[w.ms.nextId := Location(s.fileserver, s.repo)] && w'.ms.nextId == w.ms.nextId + 1
            && w'.origin == w.origin[w.ms.nextId := f.sid]
          else w'.ms.uris == w.ms.uris && w'.ms.nextId == w.ms.nextId && w'.origin == w.origin)
    ensures BindInv(w') && Frozen(w, w')
  {
    var sid := w.wire[id].frame.sid;
    AnswerInits(w, w', id, t);
    var v := w.(ms := w.ms.(sessions := w'.ms.sessions));
    ChangedBinds(w, v, sid, s);
    if w.wire[id].frame.FsInitOk? {
      AddressBinds(v, w', sid);
    } else {
      ChangedBinds(w, w', sid, s);
    }
  }

  /** A session was inserted, possibly by way of an address. */
  lemma InsertBinds(w: World, w': World, s: Session, place: Location, uri: Option<nat>)
    requires BindingsOk(w) && IdsBelow(w) && place == Location(s.fileserver, s.repo)
    requires w'.ms.sessions == w.ms.sessions[w.ms.nextId := s] && w'.ms.nextId == w.ms.nextId + 1
    requires w'.bound == w.bound[w.ms.nextId := place] && w'.ms.uris == w.ms.uris && w'.origin == w.origin
    requires uri.Some? ==> uri.value in w.ms.uris && w.ms.uris[uri.value] == place
    requires w'.via == if uri.Some? then w.via[w.ms.nextId := uri.value] else w.via
    ensures BindingsOk(w') && IdsBelow(w') && Frozen(w, w')
  {
    InsertConnects(w, w', s, place, uri);
    InsertAddresses(w, w', s, place, uri);
  }

  lemma InsertAddresses(w: World, w': World, s: Session, place: Location, uri: Option<nat>)
    requires BindingsOk(w) && IdsBelow(w) && place == Location(s.fileserver, s.repo)
    requires w'.ms.sessions == w.ms.sessions[w.ms.nextId := s] && w'.ms.nextId == w.ms.nextId + 1
    requires w'.bound == w.bound[w.ms.nextId := place] && w'.ms.uris == w.ms.uris && w'.origin == w.origin
    requires uri.Some? ==> uri.value in w.ms.uris && w.ms.uris[uri.value] == place
    requires w'.via == if uri.Some? then w.via[w.ms.nextId := uri.value] else w.via
    ensures AddressesBound(w') && IdsBelow(w')
  {
  }

  lemma InsertConnects(w: World, w': World, s: Session, place: Location, uri: Option<nat>)
    requires ConnectsBound(w) && IdsBelow(w) && place == Location(s.fileserver, s.repo)
    requires w'.ms.sessions == w.ms.sessions[w.ms.nextId := s] && w'.ms.nextId == w.ms.nextId + 1
    requires w'.bound == w.bound[w.ms.nextId := place] && w'.ms.uris == w.ms.uris && w'.origin == w.origin
    requires uri.Some? ==> uri.value in w.ms.uris && w.ms.uris[uri.value] == place
    requires w'.via == if uri.Some? then w.via[w.ms.nextId := uri.value] else w.via
    ensures ConnectsBound(w')
  {
  }

  lemma RecordedBound(w: World, from: Conn, f: Frame, ms: MsState, place: Location)
    requires from.ClientConn? && (f.SyInitRequest? || f.SyConnect?)
    requires f.SyInitRequest? ==> w.ms.registry != [] && place == Location(w.ms.registry[0], f.repo)
    requires f.SyConnect? ==> f.uri in w.ms.uris && place == w.ms.uris[f.uri]
    ensures var w' := Recorded(w, from, f, ms);
      && w'.bound == w.bound[w.ms.nextId := place] && w'.origin == w.origin
      && w'.via == if f.SyConnect? then w.via[w.ms.nextId := f.uri] else w.via
  {
  }

  lemma InsertHistory(w: World, id: nat, f: Frame, place: Location)
    requires MayServe(w, id) && w.wire[id].heading.conn.ClientConn? && w.wire[id].frame == f
    requires f.SyInitRequest? || f.SyConnect?
    requires f.SyInitRequest? ==> w.ms.registry != [] && place == Location(w.ms.registry[0], f.repo)
    requires f.SyConnect? ==> f.uri in w.ms.uris && place == w.ms.uris[f.uri]
    ensures var w' := DoServe(w, id);
      && w'.bound == w.bound[w.ms.nextId := place] && w'.origin == w.origin
      && w'.via == if f.SyConnect? then w.via[w.ms.nextId := f.uri] else w.via
  {
    RecordedBound(Consume(w, id), w.wire[id].heading.conn, f, Handle(w.ms, w.wire[id].heading.conn, f), place);
  }

  lemma InsertedBinds(w: World, w': World, id: nat, s: Session, t: Transit)
    requires BindInv(w) && Inserted(w, w', id, s, t) && w'.origin == w.origin
    requires w'.bound == w.bound[w.ms.nextId := Location(s.fileserver, s.repo)]
    requires w'.via == if w.wire[id].frame.SyConnect? then w.via[w.ms.nextId := w.wire[id].frame.uri] else w.via
    requires var f := w.wire[id].frame;
      f.SyConnect? ==> f.uri in w.ms.uris && w.ms.uris[f.uri] == Location(s.fileserver, s.repo)
    ensures BindInv(w') && Frozen(w, w')
  {
    var f := w.wire[id].frame;
    InsertBinds(w, w', s, Location(s.fileserver, s.repo), if f.SyConnect? then Some(f.uri) else None);
    AnswerInits(w, w', id, t);
  }

  lemma ServeInitBinds(w: World, id: nat)
    requires Inv(w) && BindInv(w) && MayServe(w, id) && w.wire[id].frame.SyInitRequest?
    ensures BindInv(DoServe(w, id)) && Frozen(w, DoServe(w, id))
  {
    RequestFromClient(w, id);
    if w.ms.registry == [] {
      DroppedBinds(w, id);
    } else {
      var s := Session(w.wire[id].heading.conn, w.ms.registry[0], w.wire[id].frame.repo, Initialising, [], []);
      ServeInitShape(w, id, s);
      InsertHistory(w, id, w.wire[id].frame, Location(w.ms.registry[0], w.wire[id].frame.repo));
      InsertedBinds(w, DoServe(w, id), id, s, Transit(Outbound(s.fileserver), SyInit(w.ms.nextId, s.repo)));
    }
  }

  lemma ServeConnectBinds(w: World, id: nat)
    requires Inv(w) && BindInv(w) && MayServe(w, id) && w.wire[id].frame.SyConnect?
    ensures BindInv(DoServe(w, id)) && Frozen(w, DoServe(w, id))
  {
    RequestFromClient(w, id);
    var uri := w.wire[id].frame.uri;
    if uri !in w.ms.uris {
      DroppedBinds(w, id);
    } else {
      var place := w.ms.uris[uri];
      var s := Session(w.wire[id].heading.conn, place.fileserver, place.repo, Connecting, [], []);
      ServeConnectShape(w, id, s);
      InsertHistory(w, id, w.wire[id].frame, place);
      InsertedBinds(w, DoServe(w, id), id, s, Transit(Outbound(s.client), SyConnectOk(w.ms.nextId)));
    }
  }

  lemma DroppedBinds(w: World, id: nat)
    requires BindInv(w) && MayServe(w, id) && Served(w.ms, w.wire[id].frame) && !w.wire[id].frame.FsInitOk?
    requires Handle(w.ms, w.wire[id].heading.conn, w.wire[id].frame) == w.ms
    ensures BindInv(DoServe(w, id)) && Frozen(w, DoServe(w, id))
  {
    var w' := Consume(w, id);
    assert w.ms.nextId !in w.ms.sessions;
    assert DoServe(w, id) == w';
    FramesKept(w, w', FsRegister);
    SameKeeps(w, w');
  }

  /** Registrations and cleanups. */
  lemma ServeOtherBinds(w: World, id: nat)
    requires BindInv(w) && MayServe(w, id) && (w.wire[id].frame.FsRegister? || w.wire[id].frame.SyCleanup?)
    ensures BindInv(DoServe(w, id)) && Frozen(w, DoServe(w, id))
  {
    var from, f := w.wire[id].heading.conn, w.wire[id].frame;
    var w' := DoServe(w, id);
    ServedFields(w, id, Handle(w.ms, from, f));
    ServedHistory(w, id);
    AnswerInits(w, w', id, Transit(Outbound(from), if f.SyCleanup? then SyCleanupOk else FsRegisterOk));
  }

  lemma ApplyBinds(w: World, step: Step)
    requires Inv(w) && BindInv(w)
    ensures BindInv(Apply(w, step)) && Frozen(w, Apply(w, step))
  {
    match step
    case Register(n) => RegisterKeeps(w, n); SameKeeps(w, Apply(w, step));
    case Ask(k, f) => AskKeeps(w, k, f); SameKeeps(w, Apply(w, step));
    case Serve(id) => ServeBinds(w, id);
    case Flush(conn) => FlushKeeps(w, conn); SameKeeps(w, Apply(w, step));
    case FsReceive(id, sums) => FsReceiveKeeps(w, id, sums); SameKeeps(w, Apply(w, step));
    case FsFlush(conn) => FsFlushKeeps(w, conn); SameKeeps(w, Apply(w, step));
    case ClientReceive(id) => ClientReceiveKeeps(w, id); SameKeeps(w, Apply(w, step));
  }

  lemma ServeBinds(w: World, id: nat)
    requires Inv(w) && BindInv(w)
    ensures BindInv(DoServe(w, id)) && Frozen(w, DoServe(w, id))
  {
    if MayServe(w, id) {
      var f := w.wire[id].frame;
      if ReadsSession(f) {
        ServeSessionBinds(w, id);
      } else if f.SyInitRequest? {
        ServeInitBinds(w, id);
      } else if f.SyConnect? {
        ServeConnectBinds(w, id);
      } else if f.SyCleanup? || f.FsRegister? {
        ServeOtherBinds(w, id);
      } else {
        DroppedBinds(w, id);
      }
    }
  }

  /** Repository binding: in every reachable state records, addresses and connected
      sessions all show what their SY_INIT bound. */
  lemma {:induction false} RunBinds(clients: set<nat>, steps: seq<Step>)
    ensures BindInv(Run(Init(clients), steps))
  {
    if steps != [] {
      RunInv(clients, steps[..|steps| - 1]);
      RunBinds(clients, steps[..|steps| - 1]);
      ApplyBinds(Run(Init(clients), steps[..|steps| - 1]), steps[|steps| - 1]);
    }
  }

  lemma FrozenOnward(u: World, v: World, w: World)
    requires Frozen(u, v) && Frozen(v, w)
    ensures Frozen(u, w)
  {
  }

  /** What is bound stays bound: no later step of a run rebinds a session or an address. */
  lemma {:induction false} RunFrozen(clients: set<nat>, before: seq<Step>, after: seq<Step>)
    ensures Frozen(Run(Init(clients), before), Run(Init(clients), before + after))
    decreases |after|
  {
    if after == [] {
      assert before + after == before;
    } else {
      var steps, last := before + after[..|after| - 1], after[|after| - 1];
      assert before + after == steps + [last] && (steps + [last])[..|steps|] == steps;
      RunFrozen(clients, before, after[..|after| - 1]);
      RunInv(clients, steps);
      RunBinds(clients, steps);
      ApplyBinds(Run(Init(clients), steps), last);
      FrozenOnward(Run(Init(clients), before), Run(Init(clients), steps), Apply(Run(Init(clients), steps), last));
    }
  }

  /** So a session connected by an address has, for as long as it lives, the file server
      and repository name of the SY_INIT session that made the address. */
  lemma {:induction false} ConnectedLikeOrigin(clients: set<nat>, steps: seq<Step>, sid: nat)
    requires var w := Run(Init(clients), steps); sid in w.ms.sessions && sid in w.via
    ensures var w := Run(Init(clients), steps);
      && w.via[sid] in w.origin && var opener := w.origin[w.via[sid]];
      && opener in w.bound && opener !in w.via
      && w.bound[opener] == Location(w.ms.sessions[sid].fileserver, w.ms.sessions[sid].repo)
      && (opener in w.ms.sessions ==> (
            && w.ms.sessions[opener].fileserver == w.ms.sessions[sid].fileserver
            && w.ms.sessions[opener].repo == w.ms.sessions[sid].repo))
  {
    RunBinds(clients, steps);
  }

  // Which sessions have a record

  /** The session that a step ends: the server takes its SY_CLEANUP. */
  function EndedBy(w: World, step: Step): Option<nat> {
    if step.Serve? && MayServe(w, step.id) && w.wire[step.id].frame.SyCleanup? then Some(w.wire[step.id].frame.sid)
    else None
  }

  function EndedIn(clients: set<nat>, steps: seq<Step>): set<nat> {
    if steps == [] then {}
    else
      var before := steps[..|steps| - 1];
      var ended := EndedBy(Run(Init(clients), before), steps[|steps| - 1]);
      EndedIn(clients, before) + if ended.Some? then {ended.value} else {}
  }

  /** Every session ever opened has its record, except those that were ended. */
  ghost predicate Lives(w: World, ended: set<nat>) {
    && (forall sid :: sid in ended ==> sid < w.ms.nextId)
    && (forall sid :: sid in w.bound ==> (sid in w.ms.sessions <==> sid !in ended))
  }

  lemma InsertLives(w: World, w': World, ended: set<nat>, place: Location)
    requires BindInv(w) && Lives(w, ended) && w'.bound == w.bound[w.ms.nextId := place]
    requires w'.ms.sessions.Keys == w.ms.sessions.Keys + {w.ms.nextId} && w'.ms.nextId == w.ms.nextId + 1
    ensures Lives(w', ended)
  {
  }

  lemma OpenLives(w: World, id: nat, ended: set<nat>)
    requires Inv(w) && BindInv(w) && MayServe(w, id) && Lives(w, ended)
    requires w.wire[id].frame.SyInitRequest? || w.wire[id].frame.SyConnect?
    ensures Lives(DoServe(w, id), ended)
  {
    RequestFromClient(w, id);
    var from, f, w' := w.wire[id].heading.conn, w.wire[id].frame, DoServe(w, id);
    ServeIs(w, id, from, f, Handle(w.ms, from, f));
    if Place(w.ms, f).Some? {
      var place := Place(w.ms, f).value;
      InsertHistory(w, id, f, place);
      var s := Session(from, place.fileserver, place.repo, if f.SyInitRequest? then Initialising else Connecting, [], []);
      if f.SyInitRequest? {
        ServeInitShape(w, id, s);
      } else {
        ServeConnectShape(w, id, s);
      }
      InsertLives(w, w', ended, place);
    }
  }

  lemma ServeLives(w: World, id: nat, ended: set<nat>)
    requires Inv(w) && BindInv(w) && MayServe(w, id) && Lives(w, ended)
    ensures var gone := EndedBy(w, Serve(id));
      Lives(DoServe(w, id), ended + if gone.Some? then {gone.value} else {})
  {
    var from, f := w.wire[id].heading.conn, w.wire[id].frame;
    if f.SyInitRequest? || f.SyConnect? {
      OpenLives(w, id, ended);
    } else {
      if SidOf(f).Some? {
        RecordFound(w, id);
      }
      ServedFields(w, id, Handle(w.ms, from, f));
      ServedHistory(w, id);
      HandledKeys(w, from, f, Handle(w.ms, from, f));
    }
  }

  lemma HandledKeys(w: World, from: Conn, f: Frame, ms': MsState)
    requires Served(w.ms, f) && !f.SyInitRequest? && !f.SyConnect? && ms' == Handle(w.ms, from, f)
    ensures ms'.sessions.Keys == w.ms.sessions.Keys - (if f.SyCleanup? then {f.sid} else {}) && w.ms.nextId <= ms'.nextId
  {
  }

  /** In every run a session has its record from the request that opened it to the
      SY_CLEANUP that ends it. */
  lemma {:induction false} RunLives(clients: set<nat>, steps: seq<Step>)
    ensures Lives(Run(Init(clients), steps), EndedIn(clients, steps))
  {
    if steps != [] {
      var before, last := steps[..|steps| - 1], steps[|steps| - 1];
      var w := Run(Init(clients), before);
      RunInv(clients, before);
      RunBinds(clients, before);
      RunLives(clients, before);
      match last
      case Register(n) => RegisterKeeps(w, n);
      case Ask(k, f) => AskKeeps(w, k, f);
      case Serve(id) =>
        if MayServe(w, id) {
          ServeLives(w, id, EndedIn(clients, before));
        }
      case Flush(conn) => FlushKeeps(w, conn);
      case FsReceive(id, sums) => FsReceiveKeeps(w, id, sums);
      case FsFlush(conn) => FsFlushKeeps(w, conn);
      case ClientReceive(id) => ClientReceiveKeeps(w, id);
    }
  }

  // Which file server a session gets

  /** The file servers whose registration the server took, in order. */
  function RegisteredIn(clients: set<nat>, steps: seq<Step>): seq<Conn> {
    if steps == [] then []
    else
      var before, last := steps[..|steps| - 1], steps[|steps| - 1];
      var w := Run(Init(clients), before);
      RegisteredIn(clients, before) +
      if last.Serve? && MayServe(w, last.id) && w.wire[last.id].frame.FsRegister? then [w.wire[last.id].heading.conn]
      else []
  }

  lemma {:induction false} WithoutNone(conns: seq<Conn>, conn: Conn)
    requires forall i :: 0 <= i < |conns| ==> conns[i] != conn
    ensures Without(conns, conn) == conns
  {
    if conns != [] {
      WithoutNone(conns[1..], conn);
    }
  }

  /** CLOSED takes out the first registration of a connection and leaves the others in
      their order. */
  lemma {:induction false} WithoutFirst(conns: seq<Conn>, i: nat)
    requires i < |conns| && forall j :: 0 <= j < i ==> conns[j] != conns[i]
    ensures Without(conns, conns[i]) == conns[..i] + conns[i + 1..]
  {
    if i > 0 {
      WithoutFirst(conns[1..], i - 1);
      assert conns[1..][..i - 1] == conns[1..i] && conns[1..][i..] == conns[i + 1..];
      assert conns[..i] == [conns[0]] + conns[1..i];
    }
  }

  /** CLOSED forgets the connection and nothing else. */
  lemma ClosedLaw(ms: MsState, conn: Conn)
    ensures var ms' := Closed(ms, conn);
      && ms'.slots.Keys == ms.slots.Keys - {conn} && (forall c :: c in ms'.slots ==> ms'.slots[c] == ms.slots[c])
      && ms'.writable == ms.writable - {conn}
      && ms'.sessions == ms.sessions && ms'.uris == ms.uris && ms'.nextId == ms.nextId
  {
  }

  /** The state that each handler leaves in the record of its session. */
  lemma StateLaw(ms: MsState, from: Conn, f: Frame, sid: nat)
    requires Served(ms, f)
    requires if f.SyInitRequest? || f.SyConnect? then sid == ms.nextId else SidOf(f) == Some(sid)
    ensures var after := Handle(ms, from, f).sessions;
      && (f.SyInitRequest? && ms.registry != [] ==> sid in after && after[sid].state == Initialising)
      && (f.SyConnect? && f.uri in ms.uris ==> sid in after && after[sid].state == Connecting)
      && (f.FsInitOk? ==> after[sid].state == Initialised)
      && (f.SyStatusRequest? ==> after[sid].state == StatusAsked)
      && (f.FsStatusOk? || f.SyUploadRequest? || f.SyDownloadRequest? ==> after[sid].state == ms.sessions[sid].state)
      && (f.SyCleanup? ==> sid !in after)
  {
  }

  /** A client that gets its reply is idle again, and holds the session it was given. */
  lemma ReplyTaken(w: World, id: nat)
    requires Inv(w) && id in w.wire && w.wire[id].heading.Outbound? && w.wire[id].heading.conn.ClientConn?
    ensures var f, k, w' := w.wire[id].frame, w.wire[id].heading.conn.client, DoClientReceive(w, id);
      && k in w.clients && k in w'.clients && w'.clients[k].Idle? && id !in w'.wire
      && w'.clients[k].held == w.clients[k].held + (if f.SyInitOk? || f.SyConnectOk? then {f.sid} else {})
  {
    SessionSafety.ReplyAwaited(w, id);
  }

  lemma SameRegistry(w: World, step: Step)
    requires Inv(w) && !step.Serve? && !step.ClientReceive?
    ensures Apply(w, step).ms.registry == w.ms.registry
  {
    if step.FsReceive? && step.id in w.wire {
      var reply := FsReply(w.wire[step.id].frame, step.sums);
      assert Taken(w, step.id, w.wire[step.id].heading.conn, reply).ms == w.ms;
    }
  }

  lemma ClosedRegistry(w: World, id: nat)
    requires Inv(w)
    ensures DoClientReceive(w, id).ms.registry == w.ms.registry
  {
    if id in w.wire && w.wire[id].heading.Outbound? && w.wire[id].heading.conn.ClientConn? {
      SessionSafety.ReplyAwaited(w, id);
      ClientReceiveShape(w, id);
      WithoutNone(w.ms.registry, w.wire[id].heading.conn);
    }
  }

  lemma HandledRegistry(ms: MsState, from: Conn, f: Frame, ms': MsState)
    requires Served(ms, f) && ms' == Handle(ms, from, f)
    ensures ms'.registry == if f.FsRegister? then ms.registry + [from] else ms.registry
  {
  }

  lemma ServeRegistry(w: World, id: nat)
    requires Inv(w) && MayServe(w, id)
    ensures DoServe(w, id).ms.registry ==
            if w.wire[id].frame.FsRegister? then w.ms.registry + [w.wire[id].heading.conn] else w.ms.registry
  {
    var from, f := w.wire[id].heading.conn, w.wire[id].frame;
    if ReadsSession(f) {
      RecordFound(w, id);
    }
    ServeIs(w, id, from, f, Handle(w.ms, from, f));
    HandledRegistry(w.ms, from, f, Handle(w.ms, from, f));
  }

  /** The registry is the list of the registrations, so every SY_INIT binds its session to
      the file server that registered first. */
  lemma {:induction false} RunRegistry(clients: set<nat>, steps: seq<Step>)
    ensures Run(Init(clients), steps).ms.registry == RegisteredIn(clients, steps)
  {
    if steps != [] {
      var before, last := steps[..|steps| - 1], steps[|steps| - 1];
      var w := Run(Init(clients), before);
      RunInv(clients, before);
      RunRegistry(clients, before);
      if last.ClientReceive? {
        ClosedRegistry(w, last.id);
      } else if !last.Serve? {
        SameRegistry(w, last);
      } else if MayServe(w, last.id) {
        ServeRegistry(w, last.id);
      }
    }
  }
}
