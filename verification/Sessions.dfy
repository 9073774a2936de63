/** Clients, metadata server and file servers together.  Each client is sequential:
    it opens a connection, sends one request and waits for the reply to it.  Frames
    between them may be reordered and delayed at will. */
module Sessions {
  import opened Bytes
  import opened Checksums
  import opened Metadata

  datatype Op = InitOp | ConnectOp | StatusOp | UploadOp | DownloadOp | CleanupOp

  /** The requests of a client; the operation that every other frame belongs to. */
  predicate IsRequest(f: Frame) {
    f.SyInitRequest? || f.SyConnect? || f.SyStatusRequest? || f.SyUploadRequest? || f.SyDownloadRequest? || f.SyCleanup?
  }

  function OpOf(f: Frame): Option<Op> {
    if f.SyInitRequest? || f.SyInit? || f.FsInitOk? || f.SyInitOk? then Some(InitOp)
    else if f.SyConnect? || f.SyConnectOk? then Some(ConnectOp)
    else if f.SyStatusRequest? || f.SyStatus? || f.FsStatusOk? || f.SyStatusOk? then Some(StatusOp)
    else if f.SyUploadRequest? || f.SyUpload? || f.FsUploadReady? then Some(UploadOp)
    else if f.SyDownloadRequest? || f.SyDownload? || f.FsDownloadReady? then Some(DownloadOp)
    else if f.SyCleanup? || f.SyCleanupOk? then Some(CleanupOp)
    else None
  }

  /** The reply whose type the polling loop of an operation waits for. */
  predicate IsReplyTo(op: Op, f: Frame) {
    match op
    case InitOp => f.SyInitOk?
    case ConnectOp => f.SyConnectOk?
    case StatusOp => f.SyStatusOk?
    case UploadOp => f.FsUploadReady?
    case DownloadOp => f.FsDownloadReady?
    case CleanupOp => f.SyCleanupOk?
  }

  /** A client holds the sessions it was given and did not clean up. */
  datatype Client =
    | Idle(held: set<nat>)
    | Waiting(held: set<nat>, conn: Conn, op: Op, sid: Option<nat>)

  /** On its way from a party, or headed to one. */
  datatype Heading = Inbound(conn: Conn) | Outbound(conn: Conn)

  datatype Transit = Transit(heading: Heading, frame: Frame)

  /** The system.  History: which client owns a session, which connection made its latest
      request, where it is bound, which session made an address, and which address a
      session was connected by.  `crashed`: a handler used a missing record or target;
      `stray`: a client was sent something it does not wait for. */
  datatype World = World(
    ms: MsState, clients: map<nat, Client>, nextConn: nat,
    wire: map<nat, Transit>, nextWire: nat, fsSlots: map<Conn, Frame>,
    crashed: bool, stray: bool,
    owner: map<nat, nat>, latest: map<nat, Conn>,
    bound: map<nat, Location>, origin: map<nat, nat>, via: map<nat, nat>)

  datatype Step =
    | Register(n: nat)
    | Ask(client: nat, request: Frame)
    | Serve(id: nat)
    | Flush(conn: Conn)
    | FsReceive(id: nat, sums: seq<FileSum>)
    | FsFlush(conn: Conn)
    | ClientReceive(id: nat)

  function Init(clients: set<nat>): World {
    World(MsState([], map[], map[], map[], {}, 0), map k | k in clients :: Idle({}), 0,
          map[], 0, map[], false, false, map[], map[], map[], map[], map[])
  }

  function Emit(w: World, heading: Heading, frame: Frame): World {
    w.(wire := w.wire[w.nextWire := Transit(heading, frame)], nextWire := w.nextWire + 1)
  }

  function Consume(w: World, id: nat): World {
    w.(wire := w.wire - {id})
  }

  /** One of the `sy_` calls of an idle client. */
  function DoAsk(w: World, k: nat, f: Frame): World {
    if k !in w.clients || !w.clients[k].Idle? || !IsRequest(f) then w
    else
      var held, sid := w.clients[k].held, SidOf(f);
      if sid.Some? && sid.value !in held then w
      else
        var conn := ClientConn(k, w.nextConn);
        var rest := if f.SyCleanup? then held - {f.sid} else held;
        Emit(w, Inbound(conn), f).(
          clients := w.clients[k := Waiting(rest, conn, OpOf(f).value, sid)],
          nextConn := w.nextConn + 1,
          latest := if sid.Some? then w.latest[sid.value := conn] else w.latest)
  }

  /** Where the session that a client's request opens is bound: the first registered file
      server and the repository that the client names, or what its address shows. */
  function Place(ms: MsState, f: Frame): Option<Location> {
    if f.SyInitRequest? && ms.registry != [] then Some(Location(ms.registry[0], f.repo))
    else if f.SyConnect? && f.uri in ms.uris then Some(ms.uris[f.uri])
    else None
  }

  /** The history of what the server just inserted under its next id. */
  function Recorded(w: World, from: Conn, f: Frame, ms: MsState): World {
    var sid, place := w.ms.nextId, if from.ClientConn? then Place(w.ms, f) else None;
    w.(ms := ms,
       owner := if place.Some? then w.owner[sid := from.client] else w.owner,
       latest := if place.Some? then w.latest[sid := from] else w.latest,
       bound := if place.Some? then w.bound[sid := place.value] else w.bound,
       via := if place.Some? && f.SyConnect? then w.via[sid := f.uri] else w.via,
       origin := if f.FsInitOk? then w.origin[sid := f.sid] else w.origin)
  }

  function DoServe(w: World, id: nat): World {
    if id !in w.wire || !w.wire[id].heading.Inbound? then w
    else
      var from, f := w.wire[id].heading.conn, w.wire[id].frame;
      if !Served(w.ms, f) then w.(crashed := true)
      else Recorded(Consume(w, id), from, f, Handle(w.ms, from, f))
  }

  function DoFlush(w: World, on: Conn): World {
    if on !in w.ms.writable then w
    else if on !in w.ms.slots || w.ms.slots[on].target.None? then w.(crashed := true)
    else Emit(w, Outbound(w.ms.slots[on].target.value), w.ms.slots[on].frame).(ms := Written(w.ms, on))
  }

  /** The RECEIVE cases of `callback_fileserver`. */
  function FsReply(f: Frame, sums: seq<FileSum>): Option<Frame> {
    match f
    case SyInit(sid, repo) => Some(FsInitOk(sid))
    case SyStatus(sid, repo) => Some(FsStatusOk(sid, sums))
    case SyUpload(sid, repo) => Some(FsUploadReady(sid))
    case SyDownload(sid, repo, diff) => Some(FsDownloadReady(sid))
    case _ => None
  }

  /** The file server takes a frame and keeps its reply, if any, to write. */
  function Taken(w: World, id: nat, conn: Conn, reply: Option<Frame>): World {
    if reply.None? then Consume(w, id) else Consume(w, id).(fsSlots := w.fsSlots[conn := reply.value])
  }

  function DoFsReceive(w: World, id: nat, sums: seq<FileSum>): World {
    if id !in w.wire || !w.wire[id].heading.Outbound? || !w.wire[id].heading.conn.FileServerConn? then w
    else Taken(w, id, w.wire[id].heading.conn, FsReply(w.wire[id].frame, sums))
  }

  function DoFsFlush(w: World, conn: Conn): World {
    if conn !in w.fsSlots then w
    else Emit(w, Inbound(conn), w.fsSlots[conn]).(fsSlots := w.fsSlots - {conn})
  }

  /** The RECEIVE cases of `callback_client`: the awaited reply ends the call and closes
      the connection. */
  function DoClientReceive(w: World, id: nat): World {
    if id !in w.wire || !w.wire[id].heading.Outbound? || !w.wire[id].heading.conn.ClientConn? then w
    else
      var conn, f := w.wire[id].heading.conn, w.wire[id].frame;
      var k := conn.client;
      if k in w.clients && w.clients[k].Waiting? && w.clients[k].conn == conn && IsReplyTo(w.clients[k].op, f) then
        var held := w.clients[k].held + if f.SyInitOk? || f.SyConnectOk? then {f.sid} else {};
        Consume(w, id).(clients := w.clients[k := Idle(held)], ms := Closed(w.ms, conn))
      else Consume(w, id).(stray := true)
  }

  function Apply(w: World, step: Step): World {
    match step
    case Register(n) => w.(fsSlots := w.fsSlots[FileServerConn(n) := FsRegister])
    case Ask(k, f) => DoAsk(w, k, f)
    case Serve(id) => DoServe(w, id)
    case Flush(conn) => DoFlush(w, conn)
    case FsReceive(id, sums) => DoFsReceive(w, id, sums)
    case FsFlush(conn) => DoFsFlush(w, conn)
    case ClientReceive(id) => DoClientReceive(w, id)
  }

  function Run(w: World, steps: seq<Step>): World {
    if steps == [] then w else Apply(Run(w, steps[..|steps| - 1]), steps[|steps| - 1])
  }

  // Where frames are

  datatype Carrier = OnWire(id: nat) | InSlot(conn: Conn) | InFsSlot(conn: Conn)

  /** The frame that a carrier holds and where it goes. */
  function Carried(w: World, x: Carrier): Option<Transit> {
    match x
    case OnWire(id) => if id in w.wire then Some(w.wire[id]) else None
    case InSlot(conn) =>
      if conn in w.ms.writable && conn in w.ms.slots && w.ms.slots[conn].target.Some?
      then Some(Transit(Outbound(w.ms.slots[conn].target.value), w.ms.slots[conn].frame)) else None
    case InFsSlot(conn) => if conn in w.fsSlots then Some(Transit(Inbound(conn), w.fsSlots[conn])) else None
  }

  /** The client connection whose request a frame serves. */
  function ConvOf(w: World, t: Transit): Option<Conn> {
    if t.heading.Inbound? && t.heading.conn.ClientConn? then Some(t.heading.conn)
    else if SidOf(t.frame).Some? then
      if t.frame.sid in w.ms.sessions then Some(w.ms.sessions[t.frame.sid].client) else None
    else if t.frame.SyCleanupOk? && t.heading.Outbound? then Some(t.heading.conn)
    else None
  }

  /** A frame is where its kind belongs, given the client connection and the file
      server of its session. */
  predicate HeadsRight(t: Transit, conn: Conn, fileserver: Conn) {
    if IsRequest(t.frame) then t.heading == Inbound(conn)
    else if t.frame.SyInit? || t.frame.SyStatus? || t.frame.SyUpload? || t.frame.SyDownload? then
      t.heading == Outbound(fileserver)
    else if t.frame.FsInitOk? || t.frame.FsStatusOk? then t.heading == Inbound(fileserver)
    else if t.frame.FsUploadReady? || t.frame.FsDownloadReady? then
      t.heading == Inbound(fileserver) || t.heading == Outbound(conn)
    else t.heading == Outbound(conn)
  }

  /** Each frame in flight serves the one request that its client waits for; the record
      of its session is there and names the connection of the latest request. */
  predicate TransitOk(w: World, t: Transit) {
    if t.frame.FsRegister? then t.heading.Inbound? && t.heading.conn.FileServerConn?
    else if t.frame.FsRegisterOk? then t.heading.Outbound? && t.heading.conn.FileServerConn?
    else
      && ConvOf(w, t).Some?
      && var conn := ConvOf(w, t).value;
      && conn.ClientConn? && conn.client in w.clients && w.clients[conn.client].Waiting?
      && w.clients[conn.client].conn == conn && OpOf(t.frame) == Some(w.clients[conn.client].op)
      && match SidOf(t.frame)
         case None => HeadsRight(t, conn, conn)
         case Some(sid) =>
           && sid in w.ms.sessions && sid in w.latest && w.latest[sid] == conn
           && HeadsRight(t, conn, w.ms.sessions[sid].fileserver)
           && w.clients[conn.client].sid == (if w.clients[conn.client].op in {InitOp, ConnectOp} then None else Some(sid))
  }

  ghost predicate TransitsOk(w: World) {
    forall x: Carrier :: Carried(w, x).Some? ==> TransitOk(w, Carried(w, x).value)
  }

  /** At most one frame serves a request. */
  ghost predicate OneEach(w: World) {
    forall x: Carrier, y: Carrier ::
      (&& Carried(w, x).Some? && Carried(w, y).Some?
       && ConvOf(w, Carried(w, x).value).Some?
       && ConvOf(w, Carried(w, x).value) == ConvOf(w, Carried(w, y).value))
      ==> x == y
  }

  predicate ClientOk(w: World, k: nat, c: Client) {
    && (forall sid :: sid in c.held ==> sid in w.ms.sessions && sid in w.owner && w.owner[sid] == k)
    && (c.Waiting? ==>
          && c.conn.ClientConn? && c.conn.client == k && c.conn.n < w.nextConn
          && (c.sid.None? <==> c.op in {InitOp, ConnectOp})
          && (c.sid.Some? ==>
                && c.sid.value in w.owner && w.owner[c.sid.value] == k
                && c.sid.value in w.latest && w.latest[c.sid.value] == c.conn
                && (c.sid.value in c.held <==> c.op != CleanupOp)))
  }

  ghost predicate ClientsOk(w: World) {
    forall k :: k in w.clients ==> ClientOk(w, k, w.clients[k])
  }

  /** Records belong to their owners' connections; ids are below the counters. */
  ghost predicate RecordsOk(w: World) {
    && (forall sid :: sid in w.ms.sessions ==>
          && sid < w.ms.nextId && sid in w.owner && w.ms.sessions[sid].client.ClientConn?
          && w.ms.sessions[sid].client.client == w.owner[sid] && w.ms.sessions[sid].fileserver.FileServerConn?)
    && (forall sid :: sid in w.owner || sid in w.latest ==> sid < w.ms.nextId)
    && (forall uri :: uri in w.ms.uris ==> w.ms.uris[uri].fileserver.FileServerConn?)
    && (forall i :: 0 <= i < |w.ms.registry| ==> w.ms.registry[i].FileServerConn?)
    && (forall conn :: conn in w.ms.writable ==> conn in w.ms.slots && w.ms.slots[conn].target.Some?)
    && (forall conn :: conn in w.fsSlots ==> conn.FileServerConn?)
    && (forall id :: id in w.wire ==> id < w.nextWire)
    && !w.crashed && !w.stray
  }

  ghost predicate Inv(w: World) {
    RecordsOk(w) && ClientsOk(w) && TransitsOk(w) && OneEach(w)
  }

  lemma InitInv(clients: set<nat>)
    ensures Inv(Init(clients))
  {
  }
}
