/** No byte is lost or doubled between the queues, for any number of threads. */
module PumpTheorems {
  import opened Bytes
  import opened Pump

  // One act on one queue

  lemma FlatMore(parts: seq<seq<byte>>, part: seq<byte>)
    ensures Flat(parts + [part]) == Flat(parts) + part
  {
    assert (parts + [part])[..|parts|] == parts;
  }

  /** A store loses nothing exactly if it stores over what was loaded. */
  lemma StoredConservesIff(queue: Queue, copy: seq<byte>, data: seq<byte>)
    requires Conserved(queue)
    ensures Conserved(Stored(queue, copy, data)) <==> copy == queue.bytes
  {
    FlatMore(queue.items, data);
    Cancel(Flat(queue.removed), queue.bytes, copy, data);
  }

  lemma Cancel(removed: seq<byte>, bytes: seq<byte>, copy: seq<byte>, data: seq<byte>)
    ensures removed + bytes + data == removed + (copy + data) <==> copy == bytes
  {
    var a, b := removed + bytes + data, removed + (copy + data);
    assert copy == bytes ==> a == b;
    assert a[|removed|..] == bytes + data && b[|removed|..] == copy + data;
    assert (bytes + data)[..|bytes|] == bytes && (copy + data)[..|copy|] == copy;
  }

  lemma TakenConservesIff(queue: Queue, copy: seq<byte>, i: nat)
    requires Conserved(queue)
    ensures Conserved(Taken(queue, copy, i)) <==> copy == [] || copy == queue.bytes
  {
    if copy != [] {
      var n := if |copy| < BUFFER_SIZE then |copy| else BUFFER_SIZE;
      FlatMore(queue.removed, copy[..n]);
      Cancel(Flat(queue.removed), queue.bytes, copy, []);
      Rejoin(Flat(queue.removed), copy, n, queue.bytes);
    }
  }

  lemma Rejoin(removed: seq<byte>, copy: seq<byte>, n: nat, bytes: seq<byte>)
    requires n <= |copy|
    ensures removed + copy[..n] + copy[n..] == removed + (copy + []) && removed + bytes + [] == removed + bytes
  {
    assert copy[..n] + copy[n..] == copy;
  }

  /** Any act on a queue that is conserved keeps it so exactly if it is not stale. */
  lemma DoneConservesIff(queue: Queue, act: Act, i: nat)
    requires Conserved(queue)
    ensures Conserved(Done(queue, act, i)) <==> !Stale(queue, act)
  {
    match act
    case Nothing =>
    case Lock =>
    case Unlock =>
    case Store(copy, data) => StoredConservesIff(queue, copy, data);
    case Take(copy) => TakenConservesIff(queue, copy, i);
    case Hand =>
  }

  lemma TakenOnce(queue: Queue, copy: seq<byte>, i: nat)
    requires EachOnce(queue) && copy != [] && i !in queue.held
    ensures EachOnce(Taken(queue, copy, i))
  {
    var new_ := Taken(queue, copy, i);
    forall k: nat | k < |new_.removed|
      ensures k in new_.handed || exists j: nat :: Holds(new_, j, k)
    {
      if k == |queue.removed| {
        assert Holds(new_, i, k);
      } else if k !in queue.handed {
        var j: nat :| Holds(queue, j, k);
        assert Holds(new_, j, k);
      }
    }
  }

  lemma HandedOnce(queue: Queue, i: nat)
    requires EachOnce(queue) && i in queue.held
    ensures EachOnce(HandedOver(queue, i))
  {
    var new_ := HandedOver(queue, i);
    forall k: nat | k < |new_.removed|
      ensures k in new_.handed || exists j: nat :: Holds(new_, j, k)
    {
      if k in queue.handed {
        assert k in new_.handed;
      } else {
        var j: nat :| Holds(queue, j, k);
        if j == i {
          assert new_.handed[|queue.handed|] == k;
        } else {
          assert Holds(new_, j, k);
        }
      }
    }
  }

  lemma SameSegments(queue: Queue, new_: Queue)
    requires EachOnce(queue)
    requires new_.held == queue.held && new_.handed == queue.handed && new_.removed == queue.removed
    ensures EachOnce(new_)
  {
    forall k: nat | k < |new_.removed|
      ensures k in new_.handed || exists j: nat :: Holds(new_, j, k)
    {
      if k !in queue.handed {
        var j: nat :| Holds(queue, j, k);
        assert Holds(new_, j, k);
      }
    }
  }

  lemma DoneOnce(queue: Queue, act: Act, i: nat)
    requires EachOnce(queue) && SegmentsFit(queue) && (act.Take? ==> i !in queue.held)
    ensures EachOnce(Done(queue, act, i)) && SegmentsFit(Done(queue, act, i))
  {
    match act
    case Take(copy) => if copy != [] { TakenOnce(queue, copy, i); }
    case Hand => if i in queue.held { HandedOnce(queue, i); }
    case _ => SameSegments(queue, Done(queue, act, i));
  }

  // One step

  /** The other threads notice nothing of an act of thread `i`. */
  lemma DoneUnnoticed(queue: Queue, q: Which, act: Act, i: nat, j: nat, pc: Pc)
    requires ThreadOk(queue, q, j, pc) && i != j && (act.Unlock? ==> queue.holder == Some(i))
    ensures ThreadOk(Done(queue, act, i), q, j, pc)
  {
  }

  /** The thread itself is in order where it goes. */
  lemma NextOk(w: World, i: nat, q: Which, seal: (nat, seq<byte>) -> seq<byte>)
    requires i < |w.threads| && ThreadOk(w.At(q), q, i, w.threads[i].pc)
    ensures var t := w.threads[i];
      ThreadOk(Done(w.At(q), Does(w.sctp, t, i, q, seal), i), q, i, Next(w, t, i))
  {
  }

  lemma ActAllowed(w: World, i: nat, q: Which, seal: (nat, seq<byte>) -> seq<byte>)
    requires i < |w.threads| && ThreadOk(w.At(q), q, i, w.threads[i].pc)
    ensures var act := Does(w.sctp, w.threads[i], i, q, seal);
      && (act.Take? ==> i !in w.At(q).held) && (act.Unlock? ==> w.At(q).holder == Some(i))
  {
  }

  lemma AdvanceBooks(w: World, i: nat, seal: (nat, seq<byte>) -> seq<byte>, q: Which)
    requires Books(w, q) && i < |w.threads|
    ensures Books(Advance(w, i, seal), q)
  {
    var w', act := Advance(w, i, seal), Does(w.sctp, w.threads[i], i, q, seal);
    assert ThreadOk(w.At(q), q, i, w.threads[i].pc);
    ActAllowed(w, i, q, seal);
    DoneOnce(w.At(q), act, i);
    NextOk(w, i, q, seal);
    ActThreads(w, w', q, act, i);
  }

  lemma ActThreads(w: World, w': World, q: Which, act: Act, i: nat)
    requires ThreadsOk(w, q) && i < |w.threads| && (act.Unlock? ==> w.At(q).holder == Some(i))
    requires w'.At(q) == Done(w.At(q), act, i) && |w'.threads| == |w.threads|
    requires forall j :: 0 <= j < |w.threads| && j != i ==> w'.threads[j] == w.threads[j]
    requires ThreadOk(w'.At(q), q, i, w'.threads[i].pc)
    ensures ThreadsOk(w', q)
  {
    forall j | 0 <= j < |w'.threads|
      ensures ThreadOk(w'.At(q), q, j, w'.threads[j].pc)
    {
      if j != i {
        DoneUnnoticed(w.At(q), q, act, i, j, w.threads[j].pc);
      }
    }
  }

  lemma SpawnedBooks(w: World, w': World, q: Which, t: Thread)
    requires Books(w, q) && w'.At(q) == w.At(q) && w'.threads == w.threads + [t]
    requires !Inside(t.pc, q) && !MustHold(t.pc, q)
    ensures Books(w', q)
  {
    forall j | 0 <= j < |w'.threads|
      ensures ThreadOk(w'.At(q), q, j, w'.threads[j].pc)
    {
      assert j < |w.threads| ==> ThreadOk(w.At(q), q, j, w.threads[j].pc);
    }
  }

  lemma ApplyBooks(w: World, step: Step, seal: (nat, seq<byte>) -> seq<byte>, q: Which)
    requires Books(w, q)
    ensures Books(Apply(w, step, seal), q)
  {
    match step
    case Go(i) => if i < |w.threads| { AdvanceBooks(w, i, seal, q); }
    case Callback(data) => SpawnedBooks(w, Apply(w, step, seal), q, Thread(data, false, WriteLock(Sctp)));
    case IceThread => SpawnedBooks(w, Apply(w, step, seal), q, Thread([], true, Pending(Dtls)));
    case Handshake(flight) => SpawnedBooks(w, Apply(w, step, seal), q, Thread(flight, false, WriteLock(Dtls)));
    case FirstHandshake(flight) => SpawnedBooks(w, Apply(w, step, seal), q, Thread(flight, false, BareLoad));
  }

  /** In every run, whatever the handshakes, each segment taken from a queue is non-empty,
      fits the buffer, and is in the buffer of one thread or was handed over once. */
  lemma {:induction false} RunBooks(steps: seq<Step>, seal: (nat, seq<byte>) -> seq<byte>, q: Which)
    ensures Books(Run(steps, seal), q)
  {
    if steps != [] {
      RunBooks(steps[..|steps| - 1], seal, q);
      ApplyBooks(Run(steps[..|steps| - 1], seal), steps[|steps| - 1], seal, q);
    }
  }

  // Conservation

  lemma StepConservesIff(w: World, step: Step, seal: (nat, seq<byte>) -> seq<byte>, q: Which)
    requires Conserved(w.At(q))
    ensures Conserved(Apply(w, step, seal).At(q)) <==> !StaleStep(w, step, q, seal)
  {
    if step.Go? && step.i < |w.threads| {
      DoneConservesIff(w.At(q), Does(w.sctp, w.threads[step.i], step.i, q, seal), step.i);
    }
  }

  /** Conservation, exactly.  In any run, with handshakes of both kinds, the bytes written
      to a queue are at every moment the removed segments in order and what remains, just
      when no thread ever stores over bytes that are not what it loaded. */
  lemma {:induction false} RunConservedIff(steps: seq<Step>, seal: (nat, seq<byte>) -> seq<byte>, q: Which)
    ensures ConservedThroughout(steps, seal, q) <==> NeverStale(steps, seal, q)
  {
    if steps != [] {
      var front := steps[..|steps| - 1];
      RunConservedIff(front, seal, q);
      if ConservedThroughout(front, seal, q) {
        StepConservesIff(Run(front, seal), steps[|steps| - 1], seal, q);
      }
    }
  }

  // When nothing is stale

  /** What each thread loaded and is about to store over is still there. */
  ghost predicate Fresh(w: World, q: Which) {
    forall i :: 0 <= i < |w.threads| && Loaded(w.threads[i].pc, q).Some? ==>
      Loaded(w.threads[i].pc, q).value == w.At(q).bytes
  }

  /** A handshake without the mutex is in its call only while nobody has the mutex, and
      no other such handshake is. */
  ghost predicate BareAlone(w: World) {
    forall i, j :: 0 <= i < |w.threads| && 0 <= j < |w.threads| && w.threads[i].pc.BareStore? ==>
      w.dtls.holder == None && (w.threads[j].pc.BareStore? ==> i == j)
  }

  /** The step treats a handshake without the mutex as if it had it: it begins only when
      the mutex is free, and finishes before anything else happens. */
  ghost predicate Excludes(w: World, step: Step) {
    && (forall j: nat :: j < |w.threads| && w.threads[j].pc.BareStore? ==> step == Go(j))
    && (step.Go? && step.i < |w.threads| && w.threads[step.i].pc.BareLoad? ==> w.dtls.holder == None)
  }

  ghost predicate AlwaysExcludes(steps: seq<Step>, seal: (nat, seq<byte>) -> seq<byte>) {
    steps == []
    || (AlwaysExcludes(steps[..|steps| - 1], seal)
        && Excludes(Run(steps[..|steps| - 1], seal), steps[|steps| - 1]))
  }

  /** Who overwrites a queue has loaded it, and has its mutex or needs none. */
  lemma OverwriterLoaded(w: World, i: nat, q: Which, seal: (nat, seq<byte>) -> seq<byte>)
    requires i < |w.threads|
    ensures var pc, act := w.threads[i].pc, Does(w.sctp, w.threads[i], i, q, seal);
      && (Overwrites(act) ==> Loaded(pc, q) == Some(act.copy))
      && (Loaded(pc, q).Some? ==> Inside(pc, q) || (q.Dtls? && pc.BareStore?))
      && (!Overwrites(act) ==> Done(w.At(q), act, i).bytes == w.At(q).bytes)
  {
  }

  lemma NextLoaded(w: World, i: nat, q: Which)
    requires i < |w.threads|
    ensures var t := w.threads[i];
      Loaded(Next(w, t, i), q).Some? ==>
        || (Loaded(Next(w, t, i), q).value == w.At(q).bytes && Loaded(t.pc, q).None?)
        || (Next(w, t, i) == t.pc && t.pc.SealStore? && !Sealable(w.sctp, i))
  {
  }

  lemma AdvanceFresh(w: World, i: nat, seal: (nat, seq<byte>) -> seq<byte>, q: Which)
    requires ThreadsOk(w, q) && Fresh(w, q) && i < |w.threads|
    requires q.Dtls? ==> BareAlone(w) && Excludes(w, Go(i))
    ensures Fresh(Advance(w, i, seal), q) && !StaleStep(w, Go(i), q, seal)
  {
    var w', act := Advance(w, i, seal), Does(w.sctp, w.threads[i], i, q, seal);
    OverwriterLoaded(w, i, q, seal);
    NextLoaded(w, i, q);
    forall j | 0 <= j < |w'.threads| && Loaded(w'.threads[j].pc, q).Some?
      ensures Loaded(w'.threads[j].pc, q).value == w'.At(q).bytes
    {
      if j != i {
        OtherFresh(w, i, j, seal, q);
      }
    }
  }

  /** A thread that loaded finds the queue as it was after a step of another. */
  lemma OtherFresh(w: World, i: nat, j: nat, seal: (nat, seq<byte>) -> seq<byte>, q: Which)
    requires ThreadsOk(w, q) && i < |w.threads| && j < |w.threads| && i != j && Loaded(w.threads[j].pc, q).Some?
    requires q.Dtls? ==> BareAlone(w) && Excludes(w, Go(i))
    ensures Advance(w, i, seal).At(q).bytes == w.At(q).bytes
  {
    OverwriterLoaded(w, i, q, seal);
    OverwriterLoaded(w, j, q, seal);
    assert ThreadOk(w.At(q), q, i, w.threads[i].pc) && ThreadOk(w.At(q), q, j, w.threads[j].pc);
  }

  lemma ApplyAlone(w: World, step: Step, seal: (nat, seq<byte>) -> seq<byte>)
    requires BareAlone(w) && Excludes(w, step)
    ensures BareAlone(Apply(w, step, seal))
  {
  }

  lemma ApplyFresh(w: World, step: Step, seal: (nat, seq<byte>) -> seq<byte>, q: Which)
    requires ThreadsOk(w, q) && Fresh(w, q) && (q.Dtls? ==> BareAlone(w) && Excludes(w, step))
    ensures Fresh(Apply(w, step, seal), q) && !StaleStep(w, step, q, seal)
  {
    if step.Go? && step.i < |w.threads| {
      AdvanceFresh(w, step.i, seal, q);
    }
  }

  lemma {:induction false} RunFresh(steps: seq<Step>, seal: (nat, seq<byte>) -> seq<byte>, q: Which)
    requires q.Dtls? ==> AlwaysExcludes(steps, seal)
    ensures Fresh(Run(steps, seal), q) && NeverStale(steps, seal, q) && (q.Dtls? ==> BareAlone(Run(steps, seal)))
  {
    if steps != [] {
      var front := steps[..|steps| - 1];
      RunFresh(front, seal, q);
      RunBooks(front, seal, q);
      ApplyFresh(Run(front, seal), steps[|steps| - 1], seal, q);
      if q.Dtls? {
        ApplyAlone(Run(front, seal), steps[|steps| - 1], seal);
      }
    }
  }

  /** Conservation, as a schedule: the SCTP queue is conserved in every run, and the DTLS
      queue in every run that treats the handshake without the mutex as if it had it. */
  lemma RunConserves(steps: seq<Step>, seal: (nat, seq<byte>) -> seq<byte>, q: Which)
    requires q.Dtls? ==> AlwaysExcludes(steps, seal)
    ensures ConservedThroughout(steps, seal, q)
  {
    RunFresh(steps, seal, q);
    RunConservedIff(steps, seal, q);
  }

  ghost predicate NoBare(w: World) {
    forall i :: 0 <= i < |w.threads| ==> !w.threads[i].pc.BareLoad? && !w.threads[i].pc.BareStore?
  }

  /** Which is so in particular if every handshake takes the mutex. */
  lemma {:induction false} MutexExcludes(steps: seq<Step>, seal: (nat, seq<byte>) -> seq<byte>)
    requires forall n :: 0 <= n < |steps| ==> !steps[n].FirstHandshake?
    ensures AlwaysExcludes(steps, seal) && NoBare(Run(steps, seal))
  {
    if steps != [] {
      var front, last := steps[..|steps| - 1], steps[|steps| - 1];
      assert forall n :: 0 <= n < |front| ==> front[n] == steps[n];
      MutexExcludes(front, seal);
      NoBareStep(Run(front, seal), last, seal);
    }
  }

  lemma NoBareStep(w: World, step: Step, seal: (nat, seq<byte>) -> seq<byte>)
    requires NoBare(w) && !step.FirstHandshake?
    ensures Excludes(w, step) && NoBare(Apply(w, step, seal))
  {
  }

  // A stale store has another store behind it

  predicate OverwriteStep(w: World, step: Step, q: Which, seal: (nat, seq<byte>) -> seq<byte>) {
    step.Go? && step.i < |w.threads| && Overwrites(Does(w.sctp, w.threads[step.i], step.i, q, seal))
  }

  /** After `steps`, none of the steps `more` overwrites the queue. */
  predicate Undisturbed(steps: seq<Step>, more: seq<Step>, seal: (nat, seq<byte>) -> seq<byte>, q: Which) {
    more == []
    || (Undisturbed(steps, more[..|more| - 1], seal, q)
        && !OverwriteStep(Run(steps + more[..|more| - 1], seal), more[|more| - 1], q, seal))
  }

  /** Then the queue's bytes stay, and so does a thread that does not move. */
  lemma {:induction false} CopyStays(steps: seq<Step>, more: seq<Step>, i: nat, seal: (nat,
      seq<byte>) -> seq<byte>, q: Which)
    requires i < |Run(steps, seal).threads| && Go(i) !in more && Undisturbed(steps, more, seal, q)
    ensures var w, v := Run(steps, seal), Run(steps + more, seal);
      v.At(q).bytes == w.At(q).bytes && i < |v.threads| && v.threads[i] == w.threads[i]
    decreases |more|
  {
    if more == [] {
      assert steps + more == steps;
    } else {
      var front, last := more[..|more| - 1], more[|more| - 1];
      assert last in more;
      CopyStays(steps, front, i, seal, q);
      StepLeaves(Run(steps + front, seal), last, i, seal, q);
      RunLast(steps, more, seal);
    }
  }

  lemma RunLast(steps: seq<Step>, more: seq<Step>, seal: (nat, seq<byte>) -> seq<byte>)
    requires more != []
    ensures Run(steps + more, seal) == Apply(Run(steps + more[..|more| - 1], seal), more[|more| - 1], seal)
  {
    LastOf(steps, more);
    RunSnoc(steps + more[..|more| - 1], more[|more| - 1], seal);
  }

  lemma LastOf(a: seq<Step>, b: seq<Step>)
    requires b != []
    ensures a + b == (a + b[..|b| - 1]) + [b[|b| - 1]]
  {
  }

  lemma RunSnoc(steps: seq<Step>, step: Step, seal: (nat, seq<byte>) -> seq<byte>)
    ensures Run(steps + [step], seal) == Apply(Run(steps, seal), step, seal)
  {
    assert (steps + [step])[..|steps|] == steps;
  }

  lemma StepLeaves(w: World, step: Step, i: nat, seal: (nat, seq<byte>) -> seq<byte>, q: Which)
    requires i < |w.threads| && step != Go(i) && !OverwriteStep(w, step, q, seal)
    ensures var v := Apply(w, step, seal);
      v.At(q).bytes == w.At(q).bytes && i < |v.threads| && v.threads[i] == w.threads[i]
  {
    if step.Go? && step.i < |w.threads| {
      OverwriterLoaded(w, step.i, q, seal);
    }
  }

  /** If a thread has just loaded a queue and its store, `more` steps later, is stale, then
      one of those steps overwrote the queue. */
  lemma StaleNeedsStore(steps: seq<Step>, more: seq<Step>, i: nat, seal: (nat, seq<byte>) -> seq<byte>, q: Which)
    requires var w := Run(steps, seal);
      i < |w.threads| && Loaded(w.threads[i].pc, q) == Some(w.At(q).bytes) && Go(i) !in more
    requires StaleStep(Run(steps + more, seal), Go(i), q, seal)
    ensures !Undisturbed(steps, more, seal, q)
  {
    if Undisturbed(steps, more, seal, q) {
      CopyStays(steps, more, i, seal, q);
      OverwriterLoaded(Run(steps + more, seal), i, q, seal);
      assert false;
    }
  }
}
