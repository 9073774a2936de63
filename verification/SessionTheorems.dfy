/** What the session protocol guarantees in every interleaving. */
module SessionTheorems {
  import opened Metadata
  import opened Sessions
  import opened SessionSafety
  import opened ServeSafety

  lemma ApplyKeeps(w: World, step: Step)
    requires Inv(w)
    ensures Inv(Apply(w, step))
  {
    match step
    case Register(n) => RegisterKeeps(w, n);
    case Ask(k, f) => AskKeeps(w, k, f);
    case Serve(id) => ServeKeeps(w, id);
    case Flush(conn) => FlushKeeps(w, conn);
    case FsReceive(id, sums) => FsReceiveKeeps(w, id, sums);
    case FsFlush(conn) => FsFlushKeeps(w, conn);
    case ClientReceive(id) => ClientReceiveKeeps(w, id);
  }

  lemma {:induction false} RunInv(clients: set<nat>, steps: seq<Step>)
    ensures Inv(Run(Init(clients), steps))
  {
    if steps == [] {
      InitInv(clients);
    } else {
      RunInv(clients, steps[..|steps| - 1]);
      ApplyKeeps(Run(Init(clients), steps[..|steps| - 1]), steps[|steps| - 1]);
    }
  }

  /** The record of every frame's session exists as long as the frame is in flight. */
  ghost predicate RecordsFound(w: World) {
    forall x: Carrier :: Carried(w, x).Some? && SidOf(Carried(w, x).value.frame).Some?
      ==> Carried(w, x).value.frame.sid in w.ms.sessions
  }

  /** A frame headed to a client for a session goes to the connection in the session's
      record, which made the latest request in that session and waits for this reply. */
  ghost predicate Routed(w: World) {
    forall x: Carrier ::
      (Carried(w, x).Some? && SidOf(Carried(w, x).value.frame).Some?
       && Carried(w, x).value.heading.Outbound? && Carried(w, x).value.heading.conn.ClientConn?)
      ==> RoutedFrame(w, Carried(w, x).value.heading.conn, Carried(w, x).value.frame)
  }

  predicate RoutedFrame(w: World, conn: Conn, f: Frame)
    requires SidOf(f).Some? && conn.ClientConn?
  {
    && f.sid in w.ms.sessions && w.ms.sessions[f.sid].client == conn
    && f.sid in w.latest && w.latest[f.sid] == conn
    && conn.client in w.clients && w.clients[conn.client].Waiting?
    && w.clients[conn.client].conn == conn && IsReplyTo(w.clients[conn.client].op, f)
  }

  /** Session safety and reply routing, over all interleavings of sequential clients:
      `get_session` never misses a record, no write goes to a cleared target, and no
      client is sent anything but the reply it waits for. */
  lemma SessionsSafe(clients: set<nat>, steps: seq<Step>)
    ensures var w := Run(Init(clients), steps);
      !w.crashed && !w.stray && RecordsFound(w) && Routed(w)
  {
    RunInv(clients, steps);
    var w := Run(Init(clients), steps);
    forall x: Carrier | Carried(w, x).Some? && SidOf(Carried(w, x).value.frame).Some?
      ensures Carried(w, x).value.frame.sid in w.ms.sessions
      ensures Carried(w, x).value.heading.Outbound? && Carried(w, x).value.heading.conn.ClientConn?
        ==> RoutedFrame(w, Carried(w, x).value.heading.conn, Carried(w, x).value.frame)
    {
      assert TransitOk(w, Carried(w, x).value);
    }
  }
}
