/** The metadata server (APIs/ms/metadata_server.c): sessions, repository addresses
    and one write slot for each connection.  Database collections are maps, and fresh
    object ids are drawn from a counter. */
module Metadata {
  import opened Bytes
  import opened Checksums

  /** A websocket connection; a client opens one for each request. */
  datatype Conn = ClientConn(client: nat, n: nat) | FileServerConn(n: nat)

  /** The frames of the protocol, by direction: client to server, server to file server,
      file server to server, server to client.  The two READY frames are passed on as
      they are. */
  datatype Frame =
    | SyInitRequest(repo: string)
    | SyConnect(uri: nat)
    | SyStatusRequest(sid: nat, sums: seq<FileSum>)
    | SyUploadRequest(sid: nat)
    | SyDownloadRequest(sid: nat)
    | SyCleanup(sid: nat)
    | FsRegisterOk
    | SyInit(sid: nat, repo: string)
    | SyStatus(sid: nat, repo: string)
    | SyUpload(sid: nat, repo: string)
    | SyDownload(sid: nat, repo: string, diff: seq<DiffEntry>)
    | FsRegister
    | FsInitOk(sid: nat)
    | FsStatusOk(sid: nat, sums: seq<FileSum>)
    | FsUploadReady(sid: nat)
    | FsDownloadReady(sid: nat)
    | SyInitOk(sid: nat, uri: nat)
    | SyConnectOk(sid: nat)
    | SyStatusOk(sid: nat, diff: seq<DiffEntry>)
    | SyCleanupOk

  function SidOf(f: Frame): Option<nat> {
    if f.SyInitRequest? || f.SyConnect? || f.FsRegister? || f.FsRegisterOk? || f.SyCleanupOk? then None
    else Some(f.sid)
  }

  datatype SessionState = Initialising | Initialised | Connecting | StatusAsked

  /** A session record; `files` pairs file-server and client checksums. */
  datatype Session = Session(
    client: Conn, fileserver: Conn, repo: string, state: SessionState, files: seq<Row>, diff: seq<DiffEntry>)

  datatype Location = Location(fileserver: Conn, repo: string)

  /** What a connection will write when it becomes writable. */
  datatype Slot = Slot(target: Option<Conn>, frame: Frame)

  datatype MsState = MsState(
    registry: seq<Conn>, sessions: map<nat, Session>, uris: map<nat, Location>,
    slots: map<Conn, Slot>, writable: set<Conn>, nextId: nat)

  /** Sets target and data of the slot of connection `on` and asks to write. */
  function Fill(ms: MsState, on: Conn, target: Conn, frame: Frame): MsState {
    ms.(slots := ms.slots[on := Slot(Some(target), frame)], writable := ms.writable + {on})
  }

  function Insert(ms: MsState, session: Session): MsState {
    ms.(sessions := ms.sessions[ms.nextId := session], nextId := ms.nextId + 1)
  }

  function Update(ms: MsState, sid: nat, session: Session): MsState {
    ms.(sessions := ms.sessions[sid := session])
  }

  function ClientRows(sums: seq<FileSum>): seq<Row> {
    seq(|sums|, i requires 0 <= i < |sums| => Row(sums[i].name, "", sums[i].sum))
  }

  function ClientSums(rows: seq<Row>): seq<FileSum> {
    seq(|rows|, i requires 0 <= i < |rows| => FileSum(rows[i].name, rows[i].b))
  }

  /** Whether the handler of `f` reads a session record. */
  predicate ReadsSession(f: Frame) {
    f.FsInitOk? || f.SyStatusRequest? || f.FsStatusOk? || f.SyUploadRequest? || f.FsUploadReady?
    || f.SyDownloadRequest? || f.FsDownloadReady?
  }

  /** The record is there: otherwise `get_session` returns NULL, which no handler
      checks. */
  predicate Served(ms: MsState, f: Frame) {
    ReadsSession(f) ==> f.sid in ms.sessions
  }

  /** The RECEIVE cases of `callback_SDP`. */
  function Handle(ms: MsState, from: Conn, f: Frame): MsState
    requires Served(ms, f)
  {
    match f
    case FsRegister => Fill(ms.(registry := ms.registry + [from]), from, from, FsRegisterOk)
    case SyInitRequest(repo) =>
      if ms.registry == [] then ms
      else Fill(Insert(ms, Session(from, ms.registry[0], repo, Initialising, [], [])),
                from, ms.registry[0], SyInit(ms.nextId, repo))
    case FsInitOk(sid) =>
      var s := ms.sessions[sid];
      Fill(Update(ms, sid, s.(state := Initialised))
             .(uris := ms.uris[ms.nextId := Location(s.fileserver, s.repo)], nextId := ms.nextId + 1),
           from, s.client, SyInitOk(sid, ms.nextId))
    case SyConnect(uri) =>
      if uri !in ms.uris then ms
      else Fill(Insert(ms, Session(from, ms.uris[uri].fileserver, ms.uris[uri].repo, Connecting, [], [])),
                from, from, SyConnectOk(ms.nextId))
    case SyStatusRequest(sid, sums) =>
      var s := ms.sessions[sid];
      Fill(Update(ms, sid, s.(state := StatusAsked, files := ClientRows(sums), client := from)),
           from, s.fileserver, SyStatus(sid, s.repo))
    case FsStatusOk(sid, sums) =>
      var s := ms.sessions[sid];
      var client := ClientSums(s.files);
      Fill(Update(ms, sid, s.(files := Join(sums, client), diff := DiffOf(sums, client))),
           from, s.client, SyStatusOk(sid, DiffOf(sums, client)))
    case SyUploadRequest(sid) =>
      var s := ms.sessions[sid];
      Fill(Update(ms, sid, s.(client := from)), from, s.fileserver, SyUpload(sid, s.repo))
    case FsUploadReady(sid) => Fill(ms, from, ms.sessions[sid].client, f)
    case SyDownloadRequest(sid) =>
      var s := ms.sessions[sid];
      Fill(Update(ms, sid, s.(client := from)), from, s.fileserver, SyDownload(sid, s.repo, s.diff))
    case FsDownloadReady(sid) => Fill(ms, from, ms.sessions[sid].client, f)
    case SyCleanup(sid) => Fill(ms.(sessions := ms.sessions - {sid}), from, from, SyCleanupOk)
    case _ => ms
  }

  /** SERVER_WRITEABLE clears the target and leaves the data. */
  function Written(ms: MsState, on: Conn): MsState
    requires on in ms.slots
  {
    ms.(slots := ms.slots[on := ms.slots[on].(target := None)], writable := ms.writable - {on})
  }

  function Without(conns: seq<Conn>, conn: Conn): seq<Conn> {
    if conns == [] then []
    else if conns[0] == conn then conns[1..]
    else [conns[0]] + Without(conns[1..], conn)
  }

  /** CLOSED */
  function Closed(ms: MsState, conn: Conn): MsState {
    ms.(slots := ms.slots - {conn}, writable := ms.writable - {conn}, registry := Without(ms.registry, conn))
  }

  /** The session that a frame can change, if any. */
  function Touches(ms: MsState, f: Frame): Option<nat> {
    if f.SyInitRequest? || f.SyConnect? then Some(ms.nextId) else SidOf(f)
  }

  /** No handler touches the record of another session, and none rebinds one: a record
      keeps its file server and repository name. */
  lemma OthersKept(ms: MsState, from: Conn, f: Frame)
    requires Served(ms, f) && ms.nextId !in ms.sessions
    ensures var ms' := Handle(ms, from, f);
      forall s :: s in ms.sessions ==>
        && (Touches(ms, f) != Some(s) ==> s in ms'.sessions && ms'.sessions[s] == ms.sessions[s])
        && (s in ms'.sessions ==> (
              && ms'.sessions[s].fileserver == ms.sessions[s].fileserver
              && ms'.sessions[s].repo == ms.sessions[s].repo))
        && (!f.SyCleanup? ==> s in ms'.sessions)
  {
  }

  /** The server with its collections as mutable fields. */
  class MetadataServer {
    var registry: seq<Conn>
    var sessions: map<nat, Session>
    var uris: map<nat, Location>
    var slots: map<Conn, Slot>
    var writable: set<Conn>
    var nextId: nat

    function View(): MsState
      reads this
    {
      MsState(registry, sessions, uris, slots, writable, nextId)
    }

    /** Ids are handed out once. */
    ghost predicate Valid()
      reads this
    {
      forall id :: id in sessions || id in uris ==> id < nextId
    }

    constructor ()
      ensures Valid() && View() == MsState([], map[], map[], map[], {}, 0)
    {
      registry, sessions, uris, slots, writable, nextId := [], map[], map[], map[], {}, 0;
    }

    /** `insert_session` */
    method InsertSession(fileserver: Conn, client: Conn, repo: string, state: SessionState) returns (sid: nat)
      requires Valid()
      modifies this`sessions, this`nextId
      ensures Valid() && sid !in old(sessions) && sid !in old(uris) && sid == old(nextId)
      ensures View() == Insert(old(View()), Session(client, fileserver, repo, state, [], []))
    {
      sid := nextId;
      sessions := sessions[sid := Session(client, fileserver, repo, state, [], [])];
      nextId := nextId + 1;
    }

    /** `get_session` */
    method GetSession(sid: nat) returns (s: Option<Session>)
      ensures s == if sid in sessions then Some(sessions[sid]) else None
    {
      if sid !in sessions {
        return None;
      }
      return Some(sessions[sid]);
    }

    /** `update_session`: does nothing without a record. */
    method UpdateClient(sid: nat, client: Conn)
      modifies this`sessions
      ensures sessions == if sid in old(sessions) then old(sessions)[sid := old(sessions)[sid].(client := client)]
                          else old(sessions)
    {
      if sid in sessions {
        sessions := sessions[sid := sessions[sid].(client := client)];
      }
    }

    method UpdateState(sid: nat, state: SessionState)
      modifies this`sessions
      ensures sessions == if sid in old(sessions) then old(sessions)[sid := old(sessions)[sid].(state := state)]
                          else old(sessions)
    {
      if sid in sessions {
        sessions := sessions[sid := sessions[sid].(state := state)];
      }
    }

    method UpdateFiles(sid: nat, files: seq<Row>)
      modifies this`sessions
      ensures sessions == if sid in old(sessions) then old(sessions)[sid := old(sessions)[sid].(files := files)]
                          else old(sessions)
    {
      if sid in sessions {
        sessions := sessions[sid := sessions[sid].(files := files)];
      }
    }

    method UpdateDiff(sid: nat, diff: seq<DiffEntry>)
      modifies this`sessions
      ensures sessions == if sid in old(sessions) then old(sessions)[sid := old(sessions)[sid].(diff := diff)]
                          else old(sessions)
    {
      if sid in sessions {
        sessions := sessions[sid := sessions[sid].(diff := diff)];
      }
    }

    method FillSlot(on: Conn, target: Conn, frame: Frame)
      modifies this`slots, this`writable
      ensures View() == Fill(old(View()), on, target, frame)
    {
      slots := slots[on := Slot(Some(target), frame)];
      writable := writable + {on};
    }

    method HandleInit(from: Conn, repo: string)
      requires Valid()
      modifies this
      ensures Valid() && View() == Handle(old(View()), from, SyInitRequest(repo))
    {
      if registry == [] {
        return;
      }
      var sid := InsertSession(registry[0], from, repo, Initialising);
      FillSlot(from, registry[0], SyInit(sid, repo));
    }

    method HandleInitOk(from: Conn, sid: nat)
      requires Valid() && sid in sessions
      modifies this
      ensures Valid() && View() == Handle(old(View()), from, FsInitOk(sid))
    {
      var uri := nextId;
      nextId := nextId + 1;
      var s := GetSession(sid);
      uris := uris[uri := Location(s.value.fileserver, s.value.repo)];
      UpdateState(sid, Initialised);
      FillSlot(from, s.value.client, SyInitOk(sid, uri));
    }

    method HandleConnect(from: Conn, uri: nat)
      requires Valid()
      modifies this
      ensures Valid() && View() == Handle(old(View()), from, SyConnect(uri))
    {
      if uri !in uris {
        return;
      }
      var sid := InsertSession(uris[uri].fileserver, from, uris[uri].repo, Connecting);
      FillSlot(from, from, SyConnectOk(sid));
    }

    method HandleStatus(from: Conn, sid: nat, sums: seq<FileSum>)
      requires Valid() && sid in sessions
      modifies this
      ensures Valid() && View() == Handle(old(View()), from, SyStatusRequest(sid, sums))
    {
      var s := GetSession(sid);
      UpdateState(sid, StatusAsked);
      UpdateFiles(sid, ClientRows(sums));
      UpdateClient(sid, from);
      FillSlot(from, s.value.fileserver, SyStatus(sid, s.value.repo));
    }

    method HandleStatusOk(from: Conn, sid: nat, sums: seq<FileSum>)
      requires Valid() && sid in sessions
      modifies this
      ensures Valid() && View() == Handle(old(View()), from, FsStatusOk(sid, sums))
    {
      var s := GetSession(sid);
      var rows, diff := CompareLists(sums, ClientSums(s.value.files));
      UpdateFiles(sid, rows);
      UpdateDiff(sid, diff);
      FillSlot(from, s.value.client, SyStatusOk(sid, diff));
    }

    method HandleUpload(from: Conn, sid: nat)
      requires Valid() && sid in sessions
      modifies this
      ensures Valid() && View() == Handle(old(View()), from, SyUploadRequest(sid))
    {
      var s := GetSession(sid);
      UpdateClient(sid, from);
      FillSlot(from, s.value.fileserver, SyUpload(sid, s.value.repo));
    }

    method HandleDownload(from: Conn, sid: nat)
      requires Valid() && sid in sessions
      modifies this
      ensures Valid() && View() == Handle(old(View()), from, SyDownloadRequest(sid))
    {
      var s := GetSession(sid);
      UpdateClient(sid, from);
      FillSlot(from, s.value.fileserver, SyDownload(sid, s.value.repo, s.value.diff));
    }

    /** The two READY frames are passed on to the client. */
    method HandleReady(from: Conn, f: Frame)
      requires Valid() && (f.FsUploadReady? || f.FsDownloadReady?) && f.sid in sessions
      modifies this
      ensures Valid() && View() == Handle(old(View()), from, f)
    {
      var s := GetSession(f.sid);
      FillSlot(from, s.value.client, f);
    }

    /** RECEIVE */
    method Receive(from: Conn, f: Frame)
      requires Valid() && Served(View(), f)
      modifies this
      ensures Valid() && View() == Handle(old(View()), from, f)
    {
      match f
      case FsRegister =>
        registry := registry + [from];
        FillSlot(from, from, FsRegisterOk);
      case SyInitRequest(repo) => HandleInit(from, repo);
      case FsInitOk(sid) => HandleInitOk(from, sid);
      case SyConnect(uri) => HandleConnect(from, uri);
      case SyStatusRequest(sid, sums) => HandleStatus(from, sid, sums);
      case FsStatusOk(sid, sums) => HandleStatusOk(from, sid, sums);
      case SyUploadRequest(sid) => HandleUpload(from, sid);
      case FsUploadReady(sid) => HandleReady(from, f);
      case SyDownloadRequest(sid) => HandleDownload(from, sid);
      case FsDownloadReady(sid) => HandleReady(from, f);
      case SyCleanup(sid) =>
        sessions := sessions - {sid};
        FillSlot(from, from, SyCleanupOk);
      case _ =>
    }

    /** SERVER_WRITEABLE */
    method Writeable(on: Conn) returns (target: Option<Conn>, frame: Frame)
      requires on in slots
      modifies this`slots, this`writable
      ensures target == old(slots)[on].target && frame == old(slots)[on].frame
      ensures View() == Written(old(View()), on)
    {
      target, frame := slots[on].target, slots[on].frame;
      slots := slots[on := slots[on].(target := None)];
      writable := writable - {on};
    }

    /** CLOSED: the slot goes, and `delete_fileserver` removes the first entry. */
    method ConnectionClosed(conn: Conn)
      modifies this`slots, this`writable, this`registry
      ensures View() == Closed(old(View()), conn)
    {
      slots := slots - {conn};
      writable := writable - {conn};
      var i := 0;
      while i < |registry| && registry[i] != conn
        invariant i <= |registry|
        invariant Without(registry, conn) == registry[..i] + Without(registry[i..], conn)
      {
        assert registry[i..] == [registry[i]] + registry[i + 1..];
        i := i + 1;
      }
      if i < |registry| {
        registry := registry[..i] + registry[i + 1..];
      } else {
        assert registry[..i] == registry;
      }
    }
  }
}
