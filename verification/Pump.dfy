/** The two byte queues between SCTP, DTLS and ICE, and the threads that fill and drain
    them (src/sctp.c, src/ice.c).  A BIO call takes two steps, a load and a store, so
    that it is the mutex that makes it atomic; `BIO_ctrl_pending` is read without it. */
module Pump {
  import opened Bytes

  const BUFFER_SIZE := 65536

  /** `sctp->outgoing_bio` and `dtls->outgoing_bio`. */
  datatype Which = Sctp | Dtls

  /** A queue, its mutex and the local buffers of its drainers.  History: `items` are the
      writes and `removed` the segments that reads took, in order; `held` gives the
      segment in the buffer of a thread, and `handed` those given on. */
  datatype Queue = Queue(
    holder: Option<nat>, bytes: seq<byte>, held: map<nat, nat>,
    items: seq<seq<byte>>, removed: seq<seq<byte>>, handed: seq<nat>)

  datatype Pc =
    // BIO_write, or SSL_do_handshake on the DTLS queue
    | WriteLock(q: Which) | WriteLoad(q: Which) | WriteStore(q: Which, copy: seq<byte>) | WriteUnlock(q: Which)
    // BIO_ctrl_pending and BIO_read
    | Pending(q: Which) | TakeLock(q: Which) | TakeLoad(q: Which) | TakeStore(q: Which, copy: seq<byte>)
    | TakeUnlock(q: Which) | Check(q: Which)
    // SSL_write
    | SealLock | SealLoad | SealStore(copy: seq<byte>) | SealUnlock
    // nice_agent_send
    | Send
    // SSL_do_handshake without the mutex
    | BareLoad | BareStore(copy: seq<byte>)
    | Ended

  /** `data` is what the thread writes; the ICE thread drains for ever. */
  datatype Thread = Thread(data: seq<byte>, loops: bool, pc: Pc)

  /** `writers` names the thread of each item of the SCTP queue; `recordAt` tells where in
      the DTLS queue's items the record of each handed segment is. */
  datatype World = World(sctp: Queue, dtls: Queue, threads: seq<Thread>, writers: seq<nat>, recordAt: seq<nat>) {
    function At(q: Which): Queue {
      if q.Sctp? then sctp else dtls
    }
  }

  datatype Step =
    | Go(i: nat)
    | Callback(data: seq<byte>)
    | IceThread
    | Handshake(flight: seq<byte>)
    | FirstHandshake(flight: seq<byte>)

  const EMPTY := Queue(None, [], map[], [], [], [])

  function Start(): World {
    World(EMPTY, EMPTY, [], [], [])
  }

  function Flat(parts: seq<seq<byte>>): seq<byte> {
    if parts == [] then [] else Flat(parts[..|parts| - 1]) + parts[|parts| - 1]
  }

  // One step of one thread

  /** What a step does to a queue. */
  datatype Act = Nothing | Lock | Unlock | Store(copy: seq<byte>, data: seq<byte>) | Take(copy: seq<byte>) | Hand

  function Stored(queue: Queue, copy: seq<byte>, data: seq<byte>): Queue {
    queue.(bytes := copy + data, items := queue.items + [data])
  }

  /** `BIO_read` returns -1 on an empty queue, and at most a buffer otherwise. */
  function Taken(queue: Queue, copy: seq<byte>, i: nat): Queue {
    if copy == [] then queue
    else
      var n := if |copy| < BUFFER_SIZE then |copy| else BUFFER_SIZE;
      queue.(bytes := copy[n..], removed := queue.removed + [copy[..n]], held := queue.held[i := |queue.removed|])
  }

  function HandedOver(queue: Queue, i: nat): Queue
    requires i in queue.held
  {
    queue.(held := queue.held - {i}, handed := queue.handed + [queue.held[i]])
  }

  function Done(queue: Queue, act: Act, i: nat): Queue {
    match act
    case Nothing => queue
    case Lock => if queue.holder.None? then queue.(holder := Some(i)) else queue
    case Unlock => queue.(holder := None)
    case Store(copy, data) => Stored(queue, copy, data)
    case Take(copy) => Taken(queue, copy, i)
    case Hand => if i in queue.held then HandedOver(queue, i) else queue
  }

  /** The thread has a segment for `SSL_write`. */
  predicate Sealable(queue: Queue, i: nat) {
    i in queue.held && queue.held[i] < |queue.removed|
  }

  /** What a thread at `pc` does to queue `q`.  `SSL_write` takes a segment from the SCTP
      queue and adds record number n, n = 0, 1, …, to the DTLS queue. */
  function Does(sctp: Queue, t: Thread, i: nat, q: Which, seal: (nat, seq<byte>) -> seq<byte>): Act {
    match t.pc
    case WriteLock(p) => if p == q then Lock else Nothing
    case WriteStore(p, copy) => if p == q then Store(copy, t.data) else Nothing
    case WriteUnlock(p) => if p == q then Unlock else Nothing
    case TakeLock(p) => if p == q then Lock else Nothing
    case TakeStore(p, copy) => if p == q then Take(copy) else Nothing
    case TakeUnlock(p) => if p == q then Unlock else Nothing
    case SealLock => if q.Dtls? then Lock else Nothing
    case SealStore(copy) =>
      if !Sealable(sctp, i) then Nothing
      else if q.Sctp? then Hand
      else Store(copy, seal(|sctp.handed|, sctp.removed[sctp.held[i]]))
    case SealUnlock => if q.Dtls? then Unlock else Nothing
    case Send => if q.Dtls? then Hand else Nothing
    case BareStore(copy) => if q.Dtls? then Store(copy, t.data) else Nothing
    case _ => Nothing
  }

  /** `sctp_data_ready_cb` drains the SCTP queue and then the DTLS queue. */
  function After(q: Which, loops: bool): Pc {
    if q.Sctp? || loops then Pending(Dtls) else Ended
  }

  /** Where a thread at `pc` goes; a locked mutex makes it wait. */
  function Next(w: World, t: Thread, i: nat): Pc {
    match t.pc
    case WriteLock(q) => if w.At(q).holder.None? then WriteLoad(q) else t.pc
    case WriteLoad(q) => WriteStore(q, w.At(q).bytes)
    case WriteStore(q, copy) => WriteUnlock(q)
    case WriteUnlock(q) => if q.Sctp? then Pending(Sctp) else Ended
    case Pending(q) => if w.At(q).bytes != [] then TakeLock(q) else After(q, t.loops)
    case TakeLock(q) => if w.At(q).holder.None? then TakeLoad(q) else t.pc
    case TakeLoad(q) => TakeStore(q, w.At(q).bytes)
    case TakeStore(q, copy) => TakeUnlock(q)
    case TakeUnlock(q) => Check(q)
    case Check(q) => if i !in w.At(q).held then After(q, t.loops) else if q.Sctp? then SealLock else Send
    case SealLock => if w.dtls.holder.None? then SealLoad else t.pc
    case SealLoad => SealStore(w.dtls.bytes)
    case SealStore(copy) => if Sealable(w.sctp, i) then SealUnlock else t.pc
    case SealUnlock => After(Sctp, t.loops)
    case Send => After(Dtls, t.loops)
    case BareLoad => BareStore(w.dtls.bytes)
    case BareStore(copy) => Ended
    case Ended => Ended
  }

  function Advance(w: World, i: nat, seal: (nat, seq<byte>) -> seq<byte>): World
    requires i < |w.threads|
  {
    var t := w.threads[i];
    World(Done(w.sctp, Does(w.sctp, t, i, Sctp, seal), i), Done(w.dtls, Does(w.sctp, t, i, Dtls, seal), i),
          w.threads[i := t.(pc := Next(w, t, i))],
          if t.pc.WriteStore? && t.pc.q.Sctp? then w.writers + [i] else w.writers,
          if t.pc.SealStore? && Sealable(w.sctp, i) then w.recordAt + [|w.dtls.items|] else w.recordAt)
  }

  function Apply(w: World, step: Step, seal: (nat, seq<byte>) -> seq<byte>): World {
    match step
    case Go(i) => if i < |w.threads| then Advance(w, i, seal) else w
    case Callback(data) => w.(threads := w.threads + [Thread(data, false, WriteLock(Sctp))])
    case IceThread => w.(threads := w.threads + [Thread([], true, Pending(Dtls))])
    case Handshake(flight) => w.(threads := w.threads + [Thread(flight, false, WriteLock(Dtls))])
    case FirstHandshake(flight) => w.(threads := w.threads + [Thread(flight, false, BareLoad)])
  }

  function Run(steps: seq<Step>, seal: (nat, seq<byte>) -> seq<byte>): World {
    if steps == [] then Start() else Apply(Run(steps[..|steps| - 1], seal), steps[|steps| - 1], seal)
  }

  // Invariants of one queue

  /** The bytes written are the segments in the order of removal and then what remains. */
  predicate Conserved(queue: Queue) {
    Flat(queue.items) == Flat(queue.removed) + queue.bytes
  }

  predicate Holds(queue: Queue, i: nat, k: nat) {
    i in queue.held && queue.held[i] == k
  }

  /** Each segment is in the buffer of one thread or was handed over once. */
  ghost predicate EachOnce(queue: Queue) {
    && (forall i :: i in queue.held ==> queue.held[i] < |queue.removed| && queue.held[i] !in queue.handed)
    && (forall i, j :: i in queue.held && j in queue.held && queue.held[i] == queue.held[j] ==> i == j)
    && (forall n :: 0 <= n < |queue.handed| ==> queue.handed[n] < |queue.removed|)
    && (forall n, m :: 0 <= n < m < |queue.handed| ==> queue.handed[n] != queue.handed[m])
    && (forall k: nat :: k < |queue.removed| ==> k in queue.handed || exists i: nat :: Holds(queue, i, k))
  }

  /** No segment is empty or larger than the buffer. */
  ghost predicate SegmentsFit(queue: Queue) {
    forall k :: 0 <= k < |queue.removed| ==> 0 < |queue.removed[k]| <= BUFFER_SIZE
  }

  /** The thread is between lock and unlock of a queue. */
  predicate Inside(pc: Pc, q: Which) {
    match pc
    case WriteLoad(p) => p == q
    case WriteStore(p, copy) => p == q
    case WriteUnlock(p) => p == q
    case TakeLoad(p) => p == q
    case TakeStore(p, copy) => p == q
    case TakeUnlock(p) => p == q
    case SealLoad => q.Dtls?
    case SealStore(copy) => q.Dtls?
    case SealUnlock => q.Dtls?
    case _ => false
  }

  /** Where a thread has a segment in its buffer, and where it may have one. */
  predicate MustHold(pc: Pc, q: Which) {
    if q.Sctp? then pc.SealLock? || pc.SealLoad? || pc.SealStore? else pc.Send?
  }

  predicate MayHold(pc: Pc, q: Which) {
    MustHold(pc, q) || ((pc.TakeUnlock? || pc.Check?) && pc.q == q)
  }

  predicate ThreadOk(queue: Queue, q: Which, i: nat, pc: Pc) {
    && (Inside(pc, q) <==> queue.holder == Some(i))
    && (i in queue.held ==> MayHold(pc, q))
    && (MustHold(pc, q) ==> i in queue.held)
  }

  ghost predicate ThreadsOk(w: World, q: Which) {
    && (forall i :: 0 <= i < |w.threads| ==> ThreadOk(w.At(q), q, i, w.threads[i].pc))
    && (forall i :: i in w.At(q).held ==> i < |w.threads|)
    && (w.At(q).holder.Some? ==> w.At(q).holder.value < |w.threads|)
  }

  /** What holds of a queue in every run: its mutex excludes, and no segment is lost. */
  ghost predicate Books(w: World, q: Which) {
    EachOnce(w.At(q)) && SegmentsFit(w.At(q)) && ThreadsOk(w, q)
  }

  // Lost updates

  /** What the thread loaded from a queue, if it is about to store. */
  function Loaded(pc: Pc, q: Which): Option<seq<byte>> {
    if (pc.WriteStore? || pc.TakeStore?) && pc.q == q then Some(pc.copy)
    else if (pc.SealStore? || pc.BareStore?) && q.Dtls? then Some(pc.copy)
    else None
  }

  /** The act overwrites the queue's bytes. */
  predicate Overwrites(act: Act) {
    act.Store? || (act.Take? && act.copy != [])
  }

  /** It does so from a copy that is no longer what the queue holds. */
  predicate Stale(queue: Queue, act: Act) {
    Overwrites(act) && act.copy != queue.bytes
  }

  predicate StaleStep(w: World, step: Step, q: Which, seal: (nat, seq<byte>) -> seq<byte>) {
    step.Go? && step.i < |w.threads| && Stale(w.At(q), Does(w.sctp, w.threads[step.i], step.i, q, seal))
  }

  predicate NeverStale(steps: seq<Step>, seal: (nat, seq<byte>) -> seq<byte>, q: Which) {
    steps == []
    || (NeverStale(steps[..|steps| - 1], seal, q)
        && !StaleStep(Run(steps[..|steps| - 1], seal), steps[|steps| - 1], q, seal))
  }

  predicate ConservedThroughout(steps: seq<Step>, seal: (nat, seq<byte>) -> seq<byte>, q: Which) {
    Conserved(Run(steps, seal).At(q)) && (steps == [] || ConservedThroughout(steps[..|steps| - 1], seal, q))
  }
}
