/** The answers to status requests, over all runs: what was asked, what the file server
    listed, and what the client and later downloads are told. */
module Statuses {
  import opened Bytes
  import opened Checksums
  import opened Metadata
  import opened Sessions
  import opened SessionSafety
  import opened ServeSafety
  import opened SessionTheorems
  import Bindings

  // History

  /** The sums of the client's request, those of the FS_STATUS_OK that came for it, and
      the list that the server then left for the client. */
  datatype Answer = Answer(asked: seq<FileSum>, listed: seq<FileSum>, diff: seq<DiffEntry>)

  /** The sums of the latest status request in each session, and the latest answer. */
  datatype History = History(asked: map<nat, seq<FileSum>>, answered: map<nat, Answer>)

  predicate AsksStatus(w: World, step: Step) {
    step.Ask? && step.request.SyStatusRequest? && MayAsk(w, step.client, step.request)
  }

  predicate AnswersStatus(w: World, step: Step) {
    && step.Serve? && MayServe(w, step.id) && w.wire[step.id].frame.FsStatusOk?
    && w.wire[step.id].heading.conn in Apply(w, step).ms.slots
    && Apply(w, step).ms.slots[w.wire[step.id].heading.conn].frame.SyStatusOk?
  }

  function Noted(w: World, h: History, step: Step): History {
    if AsksStatus(w, step) then
      h.(asked := h.asked[step.request.sid := step.request.sums])
    else if AnswersStatus(w, step) then
      var conn, f := w.wire[step.id].heading.conn, w.wire[step.id].frame;
      var asked := if f.sid in h.asked then h.asked[f.sid] else [];
      h.(answered := h.answered[f.sid := Answer(asked, f.sums, Apply(w, step).ms.slots[conn].frame.diff)])
    else h
  }

  function HistoryOf(clients: set<nat>, steps: seq<Step>): History {
    if steps == [] then History(map[], map[])
    else
      var before := steps[..|steps| - 1];
      Noted(Run(Init(clients), before), HistoryOf(clients, before), steps[|steps| - 1])
  }

  /** The diff of the latest answer in a session; a session starts with none. */
  function LastDiff(h: History, sid: nat): seq<DiffEntry> {
    if sid in h.answered then h.answered[sid].diff else []
  }

  // What is right

  /** The list is that of the two checksum lists joined, entry by entry. */
  ghost predicate Compares(a: Answer, rows: seq<Row>) {
    && IsOuterJoin(a.listed, a.asked, rows) && |a.diff| == |rows|
    && forall i :: 0 <= i < |rows| ==>
         && a.diff[i].name == rows[i].name
         && a.diff[i].status == (if rows[i].b == rows[i].a then Clean
                                 else if rows[i].b == "" then ClientLack
                                 else if rows[i].a == "" then FsLack
                                 else Dirty)
  }

  /** Every file of either side is listed once, with the status its sums call for. */
  ghost predicate RightEntries(a: Answer) {
    && ListedOnce(a.diff) && Listed(a.diff) == Names(a.listed) + Names(a.asked)
    && forall i :: 0 <= i < |a.diff| ==> EntryRight(a.listed, a.asked, a.diff[i])
  }

  ghost predicate RightAnswer(a: Answer) {
    && (exists rows :: Compares(a, rows))
    && (GoodList(a.listed) && GoodList(a.asked) ==> RightEntries(a))
  }

  /** The record keeps the names and sums of the client. */
  predicate Holds(files: seq<Row>, asked: seq<FileSum>) {
    && |files| == |asked|
    && forall i :: 0 <= i < |asked| ==> files[i].name == asked[i].name && files[i].b == asked[i].sum
  }

  /** A frame in flight tells what the history of its session says. */
  predicate FrameOk(w: World, h: History, f: Frame) {
    && (f.SyStatusRequest? ==> f.sid in h.asked && h.asked[f.sid] == f.sums)
    && (f.SyStatus? || f.FsStatusOk? ==>
          f.sid in w.ms.sessions && f.sid in h.asked && Holds(w.ms.sessions[f.sid].files, h.asked[f.sid]))
    && (f.SyStatusOk? ==>
          && f.sid in h.asked && f.sid in h.answered
          && h.answered[f.sid].asked == h.asked[f.sid] && h.answered[f.sid].diff == f.diff)
    && (f.SyDownload? ==> f.diff == LastDiff(h, f.sid))
    && (f.SyInit? || f.SyStatus? || f.SyUpload? || f.SyDownload? ==>
          f.sid in w.ms.sessions && f.repo == w.ms.sessions[f.sid].repo)
    && (f.SyInitOk? ==> f.uri in w.ms.uris && f.uri in w.origin && w.origin[f.uri] == f.sid)
  }

  /** Addresses stay, and stay those of their sessions. */
  ghost predicate AddressesStay(w: World, w': World) {
    forall uri :: uri in w.ms.uris && uri in w.origin ==>
      uri in w'.ms.uris && uri in w'.origin && w'.origin[uri] == w.origin[uri]
  }

  ghost predicate FramesOk(w: World, h: History) {
    forall x: Carrier :: Carried(w, x).Some? ==> FrameOk(w, h, Carried(w, x).value.frame)
  }

  ghost predicate RecordsRight(w: World, h: History) {
    && (forall sid :: sid in w.ms.sessions ==> w.ms.sessions[sid].diff == LastDiff(h, sid))
    && (forall sid :: sid in h.answered ==> sid < w.ms.nextId && RightAnswer(h.answered[sid]))
    && (forall uri :: uri in w.ms.uris ==> uri < w.ms.nextId)
  }

  ghost predicate StatusInv(w: World, h: History) {
    FramesOk(w, h) && RecordsRight(w, h)
  }

  // Steps

  /** The session's record and history are the same in both states. */
  predicate SameFor(w: World, h: History, w': World, h': History, sid: nat) {
    && (sid in w.ms.sessions ==> sid in w'.ms.sessions && w'.ms.sessions[sid] == w.ms.sessions[sid])
    && (sid in h'.asked <==> sid in h.asked) && (sid in h.asked ==> h'.asked[sid] == h.asked[sid])
    && (sid in h'.answered <==> sid in h.answered) && (sid in h.answered ==> h'.answered[sid] == h.answered[sid])
  }

  /** Besides the frame in `y` every frame was there, and is of a session that is the same. */
  lemma FramesStay(w: World, h: History, w': World, h': History, y: Carrier)
    requires FramesOk(w, h) && AddressesStay(w, w')
    requires forall z: Carrier :: z != y && Carried(w', z).Some? ==> Carried(w', z) == Carried(w, z)
    requires forall z: Carrier ::
      (z != y && Carried(w', z).Some? && SidOf(Carried(w', z).value.frame).Some?)
      ==> SameFor(w, h, w', h', Carried(w', z).value.frame.sid)
    requires Carried(w', y).Some? ==> FrameOk(w', h', Carried(w', y).value.frame)
    ensures FramesOk(w', h')
  {
    forall z: Carrier | Carried(w', z).Some?
      ensures FrameOk(w', h', Carried(w', z).value.frame)
    {
      if z != y {
        assert FrameOk(w, h, Carried(w, z).value.frame);
      }
    }
  }

  /** A step that moves a frame and leaves the sessions alone. */
  lemma MovedStays(w: World, h: History, w': World, y: Carrier)
    requires StatusInv(w, h) && w'.ms.sessions == w.ms.sessions && w'.ms.nextId == w.ms.nextId
    requires w'.ms.uris == w.ms.uris && w'.origin == w.origin
    requires forall z: Carrier :: z != y && Carried(w', z).Some? ==> Carried(w', z) == Carried(w, z)
    requires Carried(w', y).Some? ==> FrameOk(w', h, Carried(w', y).value.frame)
    ensures StatusInv(w', h)
  {
    FramesStay(w, h, w', h, y);
  }

  lemma FlushCarried(w: World, on: Conn)
    requires Carried(w, InSlot(on)).Some?
    ensures var w', y := DoFlush(w, on), OnWire(w.nextWire);
      && Carried(w', y) == Carried(w, InSlot(on)) && w'.ms.sessions == w.ms.sessions && w'.ms.nextId == w.ms.nextId
      && w'.ms.uris == w.ms.uris && w'.origin == w.origin
      && forall z: Carrier :: z != y && Carried(w', z).Some? ==> Carried(w', z) == Carried(w, z)
  {
  }

  lemma FlushKeeps(w: World, h: History, on: Conn)
    requires Inv(w) && StatusInv(w, h)
    ensures StatusInv(DoFlush(w, on), h)
  {
    if on in w.ms.writable {
      assert FrameOk(w, h, Carried(w, InSlot(on)).value.frame);
      FlushCarried(w, on);
      MovedStays(w, h, DoFlush(w, on), OnWire(w.nextWire));
    }
  }

  lemma FsFlushKeeps(w: World, h: History, conn: Conn)
    requires StatusInv(w, h)
    ensures StatusInv(DoFsFlush(w, conn), h)
  {
    var w' := DoFsFlush(w, conn);
    if conn in w.fsSlots {
      assert Carried(w', OnWire(w.nextWire)) == Carried(w, InFsSlot(conn));
      MovedStays(w, h, w', OnWire(w.nextWire));
    }
  }

  /** What the file server answers, and where it waits. */
  lemma FsReceiveCarried(w: World, id: nat, sums: seq<FileSum>)
    requires id in w.wire && w.wire[id].heading.Outbound? && w.wire[id].heading.conn.FileServerConn?
    requires FsReply(w.wire[id].frame, sums).Some?
    ensures var w', y := DoFsReceive(w, id, sums), InFsSlot(w.wire[id].heading.conn);
      && Carried(w', y) == Some(Transit(Inbound(w.wire[id].heading.conn), FsReply(w.wire[id].frame, sums).value))
      && w'.ms == w.ms && w'.origin == w.origin
      && forall z: Carrier :: z != y && Carried(w', z).Some? ==> Carried(w', z) == Carried(w, z)
  {
  }

  lemma ConsumeKeeps(w: World, h: History, id: nat)
    requires StatusInv(w, h)
    ensures StatusInv(Consume(w, id), h)
  {
    MovedStays(w, h, Consume(w, id), OnWire(id));
  }

  lemma FsReceiveKeeps(w: World, h: History, id: nat, sums: seq<FileSum>)
    requires StatusInv(w, h)
    ensures StatusInv(DoFsReceive(w, id, sums), h)
  {
    if id in w.wire && w.wire[id].heading.Outbound? && w.wire[id].heading.conn.FileServerConn? {
      if FsReply(w.wire[id].frame, sums).Some? {
        assert Carried(w, OnWire(id)) == Some(w.wire[id]);
        assert FrameOk(w, h, w.wire[id].frame);
        FsReceiveCarried(w, id, sums);
        MovedStays(w, h, DoFsReceive(w, id, sums), InFsSlot(w.wire[id].heading.conn));
      } else {
        ConsumeKeeps(w, h, id);
      }
    }
  }

  lemma RegisterKeeps(w: World, h: History, n: nat)
    requires StatusInv(w, h)
    ensures StatusInv(Apply(w, Register(n)), h)
  {
    MovedStays(w, h, Apply(w, Register(n)), InFsSlot(FileServerConn(n)));
  }

  lemma DropsCarried(w: World, w': World)
    requires Bindings.Dropped(w, w') && w'.ms.writable <= w.ms.writable
    ensures forall z: Carrier :: Carried(w', z).Some? ==> Carried(w', z) == Carried(w, z)
  {
  }

  lemma ClientReceiveKeeps(w: World, h: History, id: nat)
    requires Inv(w) && StatusInv(w, h)
    ensures StatusInv(DoClientReceive(w, id), h)
  {
    if id in w.wire && w.wire[id].heading.Outbound? && w.wire[id].heading.conn.ClientConn? {
      var w', conn := DoClientReceive(w, id), w.wire[id].heading.conn;
      ReplyAwaited(w, id);
      Bindings.ClientReceiveShape(w, id);
      Bindings.ClosedDrops(w, w', id, conn);
      DropsCarried(w, w');
      MovedStays(w, h, w', OnWire(id));
    }
  }

  lemma AskNoted(w: World, h: History, k: nat, f: Frame)
    requires MayAsk(w, k, f)
    ensures var h' := Noted(w, h, Ask(k, f));
      h' == if f.SyStatusRequest? then h.(asked := h.asked[f.sid := f.sums]) else h
  {
  }

  lemma AskKeeps(w: World, h: History, k: nat, f: Frame)
    requires Inv(w) && StatusInv(w, h)
    ensures StatusInv(DoAsk(w, k, f), Noted(w, h, Ask(k, f)))
  {
    if MayAsk(w, k, f) {
      AskWire(w, k, f);
      AskLatest(w, k, f);
      AskNoted(w, h, k, f);
      AskedKeeps(w, h, DoAsk(w, k, f), Noted(w, h, Ask(k, f)), k, f);
    }
  }

  /** Frames of the asking client's sessions are not in flight. */
  lemma AskedSame(w: World, h: History, w': World, h': History, k: nat, f: Frame, z: Carrier)
    requires Inv(w) && MayAsk(w, k, f) && w'.ms == w.ms && Carried(w, z).Some? && SidOf(Carried(w, z).value.frame).Some?
    requires h' == if f.SyStatusRequest? then h.(asked := h.asked[f.sid := f.sums]) else h
    ensures SameFor(w, h, w', h', Carried(w, z).value.frame.sid)
  {
    IdleIsQuiet(w, z, k);
  }

  lemma AskedKeeps(w: World, h: History, w': World, h': History, k: nat, f: Frame)
    requires Inv(w) && StatusInv(w, h) && MayAsk(w, k, f) && w'.ms == w.ms && w'.origin == w.origin
    requires h' == if f.SyStatusRequest? then h.(asked := h.asked[f.sid := f.sums]) else h
    requires Carried(w', OnWire(w.nextWire)) == Some(Transit(Inbound(ClientConn(k, w.nextConn)), f))
    requires forall z: Carrier :: z != OnWire(w.nextWire) && Carried(w', z).Some? ==> Carried(w', z) == Carried(w, z)
    ensures StatusInv(w', h')
  {
    var y := OnWire(w.nextWire);
    forall z: Carrier | z != y && Carried(w', z).Some? && SidOf(Carried(w', z).value.frame).Some?
      ensures SameFor(w, h, w', h', Carried(w', z).value.frame.sid)
    {
      AskedSame(w, h, w', h', k, f, z);
    }
    FramesStay(w, h, w', h', y);
  }

  // Serving

  /** The server consumed frame `id` of session `s` and left `t` in the sender's slot. */
  lemma AnswerKeeps(w: World, h: History, w': World, h': History, id: nat, s: nat, t: Transit)
    requires Inv(w) && FramesOk(w, h) && MayServe(w, id) && Answers(w, w', id, t) && AddressesStay(w, w')
    requires s == w.ms.nextId || SidOf(w.wire[id].frame) == Some(s)
    requires forall sid :: sid != s ==> SameFor(w, h, w', h', sid)
    requires FrameOk(w', h', t.frame)
    ensures FramesOk(w', h')
  {
    var y := InSlot(w.wire[id].heading.conn);
    AnswersCarried(w, w', id, t);
    forall z: Carrier | z != y && Carried(w', z).Some? && SidOf(Carried(w', z).value.frame).Some?
      ensures SameFor(w, h, w', h', Carried(w', z).value.frame.sid)
    {
      NoOther(w, id, s, z);
    }
    FramesStay(w, h, w', h', y);
  }

  lemma NotAnswering(w: World, h: History, id: nat)
    requires MayServe(w, id) && !w.wire[id].frame.FsStatusOk?
    ensures Noted(w, h, Serve(id)) == h
  {
  }

  lemma InsertKeeps(w: World, h: History, w': World, id: nat, s: Session, t: Transit)
    requires Inv(w) && StatusInv(w, h) && Inserted(w, w', id, s, t) && s.diff == [] && w'.origin == w.origin
    ensures StatusInv(w', h)
  {
    assert w.ms.nextId !in w.ms.sessions;
    AnswerKeeps(w, h, w', h, id, w.ms.nextId, t);
  }

  lemma InitKeeps(w: World, h: History, id: nat)
    requires Inv(w) && StatusInv(w, h) && MayServe(w, id) && w.wire[id].frame.SyInitRequest?
    ensures StatusInv(DoServe(w, id), h)
  {
    RequestFromClient(w, id);
    if w.ms.registry == [] {
      ConsumeKeeps(w, h, id);
      assert DoServe(w, id) == Consume(w, id);
    } else {
      var s := Session(w.wire[id].heading.conn, w.ms.registry[0], w.wire[id].frame.repo, Initialising, [], []);
      ServeInitShape(w, id, s);
      Bindings.InsertHistory(w, id, w.wire[id].frame, Location(w.ms.registry[0], w.wire[id].frame.repo));
      InsertKeeps(w, h, DoServe(w, id), id, s, Transit(Outbound(s.fileserver), SyInit(w.ms.nextId, s.repo)));
    }
  }

  lemma ConnectKeeps(w: World, h: History, id: nat)
    requires Inv(w) && StatusInv(w, h) && MayServe(w, id) && w.wire[id].frame.SyConnect?
    ensures StatusInv(DoServe(w, id), h)
  {
    RequestFromClient(w, id);
    var uri := w.wire[id].frame.uri;
    if uri !in w.ms.uris {
      ConsumeKeeps(w, h, id);
      assert DoServe(w, id) == Consume(w, id);
    } else {
      var place := w.ms.uris[uri];
      var s := Session(w.wire[id].heading.conn, place.fileserver, place.repo, Connecting, [], []);
      ServeConnectShape(w, id, s);
      Bindings.InsertHistory(w, id, w.wire[id].frame, place);
      InsertKeeps(w, h, DoServe(w, id), id, s, Transit(Outbound(s.client), SyConnectOk(w.ms.nextId)));
    }
  }

  lemma OtherKeeps(w: World, h: History, id: nat)
    requires Inv(w) && StatusInv(w, h) && MayServe(w, id)
    requires w.wire[id].frame.FsRegister? || w.wire[id].frame.SyCleanup?
    ensures StatusInv(DoServe(w, id), h)
  {
    var from, f, w' := w.wire[id].heading.conn, w.wire[id].frame, DoServe(w, id);
    ServedFields(w, id, Handle(w.ms, from, f));
    Bindings.ServedHistory(w, id);
    AnswerKeeps(w, h, w', h, id, if f.SyCleanup? then f.sid else w.ms.nextId,
                Transit(Outbound(from), if f.SyCleanup? then SyCleanupOk else FsRegisterOk));
  }

  /** What serving a frame of session `sid` leaves: a new record, perhaps an address, and
      perhaps a note of its answer. */
  ghost predicate SessionStep(w: World, h: History, w': World, h': History, f: Frame, sid: nat, s: Session) {
    && sid in w.ms.sessions && sid < w.ms.nextId && w'.ms.sessions == w.ms.sessions[sid := s]
    && (if f.FsInitOk? then
          && w'.ms.uris == w.ms.uris[w.ms.nextId := Location(s.fileserver, s.repo)] && w'.ms.nextId == w.ms.nextId + 1
          && w'.origin == w.origin[w.ms.nextId := sid]
        else w'.ms.uris == w.ms.uris && w'.ms.nextId == w.ms.nextId && w'.origin == w.origin)
    && h'.asked == h.asked
    && (|| (h'.answered == h.answered && s.diff == w.ms.sessions[sid].diff)
        || (exists a :: h'.answered == h.answered[sid := a] && s.diff == a.diff && RightAnswer(a)))
  }

  lemma SessionRecords(w: World, h: History, w': World, h': History, f: Frame, sid: nat, s: Session)
    requires RecordsRight(w, h) && SessionStep(w, h, w', h', f, sid, s)
    ensures RecordsRight(w', h')
  {
  }

  lemma SessionOthers(w: World, h: History, w': World, h': History, f: Frame, sid: nat, s: Session)
    requires RecordsRight(w, h) && SessionStep(w, h, w', h', f, sid, s)
    ensures AddressesStay(w, w') && forall j :: j != sid ==> SameFor(w, h, w', h', j)
  {
  }

  /** A frame of session `f.sid` was served: `s` is the new record, `t` the answer. */
  lemma SessionKeeps(w: World, h: History, w': World, h': History, id: nat, s: Session, t: Transit)
    requires Inv(w) && StatusInv(w, h) && MayServe(w, id) && Answers(w, w', id, t) && SidOf(w.wire[id].frame).Some?
    requires SessionStep(w, h, w', h', w.wire[id].frame, w.wire[id].frame.sid, s)
    requires FrameOk(w', h', t.frame)
    ensures StatusInv(w', h')
  {
    SessionRecords(w, h, w', h', w.wire[id].frame, w.wire[id].frame.sid, s);
    SessionOthers(w, h, w', h', w.wire[id].frame, w.wire[id].frame.sid, s);
    AnswerKeeps(w, h, w', h', id, w.wire[id].frame.sid, t);
  }

  /** The comparison of the record's sums with those of the file server is right. */
  lemma ComparedRight(files: seq<Row>, asked: seq<FileSum>, listed: seq<FileSum>)
    requires Holds(files, asked)
    ensures ClientSums(files) == asked && RightAnswer(Answer(asked, listed, DiffOf(listed, asked)))
  {
    assert ClientSums(files) == asked;
    var a, rows := Answer(asked, listed, DiffOf(listed, asked)), Join(listed, asked);
    JoinExact(listed, asked, rows);
    assert Compares(a, rows);
    if GoodList(listed) && GoodList(asked) {
      DiffCorrect(listed, asked);
    }
  }

  lemma StatusOkKeeps(w: World, h: History, id: nat)
    requires Inv(w) && StatusInv(w, h) && MayServe(w, id) && w.wire[id].frame.FsStatusOk?
    ensures StatusInv(DoServe(w, id), Noted(w, h, Serve(id)))
  {
    RecordFound(w, id);
    OutcomeState(w, id);
    var f, from, w' := w.wire[id].frame, w.wire[id].heading.conn, DoServe(w, id);
    var (s, t) := Outcome(w, id);
    ServedFields(w, id, Handle(w.ms, from, f));
    Bindings.ServedHistory(w, id);
    assert Carried(w, OnWire(id)) == Some(w.wire[id]);
    assert FrameOk(w, h, f);
    ComparedRight(w.ms.sessions[f.sid].files, h.asked[f.sid], f.sums);
    var a := Answer(h.asked[f.sid], f.sums, DiffOf(f.sums, h.asked[f.sid]));
    assert AnswersStatus(w, Serve(id)) && Noted(w, h, Serve(id)) == h.(answered := h.answered[f.sid := a]);
    SessionKeeps(w, h, w', h.(answered := h.answered[f.sid := a]), id, s, t);
  }

  lemma SessionFrameKeeps(w: World, h: History, id: nat)
    requires Inv(w) && StatusInv(w, h) && MayServe(w, id)
    requires ReadsSession(w.wire[id].frame) && !w.wire[id].frame.FsStatusOk?
    ensures StatusInv(DoServe(w, id), h)
  {
    RecordFound(w, id);
    OutcomeState(w, id);
    var f, from, w' := w.wire[id].frame, w.wire[id].heading.conn, DoServe(w, id);
    var (s, t) := Outcome(w, id);
    ServedFields(w, id, Handle(w.ms, from, f));
    Bindings.ServedHistory(w, id);
    assert Carried(w, OnWire(id)) == Some(w.wire[id]);
    assert FrameOk(w, h, f);
    assert FrameOk(w', h, t.frame);
    SessionKeeps(w, h, w', h, id, s, t);
  }

  lemma ServeKeeps(w: World, h: History, id: nat)
    requires Inv(w) && StatusInv(w, h)
    ensures StatusInv(DoServe(w, id), Noted(w, h, Serve(id)))
  {
    if MayServe(w, id) {
      var f := w.wire[id].frame;
      if f.FsStatusOk? {
        StatusOkKeeps(w, h, id);
      } else {
        NotAnswering(w, h, id);
        if ReadsSession(f) {
          SessionFrameKeeps(w, h, id);
        } else if f.SyInitRequest? {
          InitKeeps(w, h, id);
        } else if f.SyConnect? {
          ConnectKeeps(w, h, id);
        } else if f.SyCleanup? || f.FsRegister? {
          OtherKeeps(w, h, id);
        } else {
          ConsumeKeeps(w, h, id);
          assert DoServe(w, id) == Consume(w, id);
        }
      }
    }
  }

  lemma ApplyKeeps(w: World, h: History, step: Step)
    requires Inv(w) && StatusInv(w, h)
    ensures StatusInv(Apply(w, step), Noted(w, h, step))
  {
    match step
    case Register(n) => RegisterKeeps(w, h, n);
    case Ask(k, f) => AskKeeps(w, h, k, f);
    case Serve(id) => ServeKeeps(w, h, id);
    case Flush(conn) => FlushKeeps(w, h, conn);
    case FsReceive(id, sums) => FsReceiveKeeps(w, h, id, sums);
    case FsFlush(conn) => FsFlushKeeps(w, h, conn);
    case ClientReceive(id) => ClientReceiveKeeps(w, h, id);
  }

  lemma {:induction false} RunKeeps(clients: set<nat>, steps: seq<Step>)
    ensures StatusInv(Run(Init(clients), steps), HistoryOf(clients, steps))
  {
    if steps != [] {
      var before := steps[..|steps| - 1];
      RunInv(clients, before);
      RunKeeps(clients, before);
      ApplyKeeps(Run(Init(clients), before), HistoryOf(clients, before), steps[|steps| - 1]);
    }
  }

  // The theorems

  /** Every status answer on its way to a client is the right comparison of the sums in
      that session's latest status request with the sums of the FS_STATUS_OK that it
      answers. */
  lemma StatusRight(clients: set<nat>, steps: seq<Step>, x: Carrier)
    requires var w := Run(Init(clients), steps);
      Carried(w, x).Some? && Carried(w, x).value.frame.SyStatusOk?
    ensures var w, h := Run(Init(clients), steps), HistoryOf(clients, steps);
      var f := Carried(w, x).value.frame;
      && f.sid in h.asked && f.sid in h.answered
      && var a := h.answered[f.sid];
      && a.asked == h.asked[f.sid] && a.diff == f.diff
      && (exists rows :: Compares(a, rows))
      && (GoodList(a.listed) && GoodList(a.asked) ==> RightEntries(a))
  {
    RunKeeps(clients, steps);
    var w, h := Run(Init(clients), steps), HistoryOf(clients, steps);
    assert FrameOk(w, h, Carried(w, x).value.frame);
  }

  /** A download that is passed on to the file server carries the list of the session's
      latest status answer, the one that the client was sent; without an answer it
      carries none. */
  lemma DownloadAsAnswered(clients: set<nat>, steps: seq<Step>, x: Carrier)
    requires var w := Run(Init(clients), steps);
      Carried(w, x).Some? && Carried(w, x).value.frame.SyDownload?
    ensures var w, h := Run(Init(clients), steps), HistoryOf(clients, steps);
      var f := Carried(w, x).value.frame;
      if f.sid in h.answered then f.diff == h.answered[f.sid].diff && RightAnswer(h.answered[f.sid]) else f.diff == []
  {
    RunKeeps(clients, steps);
    var w, h := Run(Init(clients), steps), HistoryOf(clients, steps);
    assert FrameOk(w, h, Carried(w, x).value.frame);
  }

  /** Every frame for a file server names the repository that its session was bound to. */
  lemma RepositoryNamed(clients: set<nat>, steps: seq<Step>, x: Carrier)
    requires var t := Carried(Run(Init(clients), steps), x);
      t.Some? && (t.value.frame.SyInit? || t.value.frame.SyStatus? || t.value.frame.SyUpload? || t.value.frame.SyDownload?)
    ensures var w := Run(Init(clients), steps);
      var t := Carried(w, x).value;
      && t.frame.sid in w.bound && t.frame.repo == w.bound[t.frame.sid].repo
      && t.heading == Outbound(w.bound[t.frame.sid].fileserver)
  {
    RunKeeps(clients, steps);
    RunInv(clients, steps);
    Bindings.RunBinds(clients, steps);
    var w, h := Run(Init(clients), steps), HistoryOf(clients, steps);
    assert FrameOk(w, h, Carried(w, x).value.frame);
    assert TransitOk(w, Carried(w, x).value);
  }

  /** The address that a client is told is its own session's, and shows what that session
      was bound to. */
  lemma AddressTold(clients: set<nat>, steps: seq<Step>, x: Carrier)
    requires var t := Carried(Run(Init(clients), steps), x); t.Some? && t.value.frame.SyInitOk?
    ensures var w := Run(Init(clients), steps);
      var f := Carried(w, x).value.frame;
      && f.uri in w.origin && w.origin[f.uri] == f.sid
      && f.uri in w.ms.uris && f.sid in w.bound && w.ms.uris[f.uri] == w.bound[f.sid]
  {
    RunKeeps(clients, steps);
    Bindings.RunBinds(clients, steps);
    var w, h := Run(Init(clients), steps), HistoryOf(clients, steps);
    assert FrameOk(w, h, Carried(w, x).value.frame);
  }
}
