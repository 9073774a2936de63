/** What the pump writes, in which order, and when the order is kept. */
module PumpOrder {
  import opened Bytes
  import opened Pump
  import opened PumpTheorems

  // Every write once, every segment sealed once

  predicate BeforeWrite(pc: Pc) {
    (pc.WriteLock? || pc.WriteLoad? || pc.WriteStore?) && pc.q.Sctp?
  }

  /** The items of the SCTP queue are the data of different callbacks, each written once. */
  ghost predicate WritersOk(w: World) {
    && |w.writers| == |w.sctp.items|
    && (forall n :: 0 <= n < |w.writers| ==>
          && w.writers[n] < |w.threads| && w.sctp.items[n] == w.threads[w.writers[n]].data
          && !BeforeWrite(w.threads[w.writers[n]].pc))
    && (forall n, m :: 0 <= n < m < |w.writers| ==> w.writers[n] != w.writers[m])
  }

  /** The step of thread `i` is its write to the SCTP queue. */
  predicate WritesNow(pc: Pc) {
    pc.WriteStore? && pc.q.Sctp?
  }

  lemma AdvanceItems(w: World, i: nat, seal: (nat, seq<byte>) -> seq<byte>)
    requires i < |w.threads|
    ensures var t := w.threads[i];
      && Advance(w, i, seal).sctp.items == w.sctp.items + (if WritesNow(t.pc) then [t.data] else [])
      && (BeforeWrite(Next(w, t, i)) ==> BeforeWrite(t.pc) && !WritesNow(t.pc))
  {
  }

  lemma AdvanceWriters(w: World, i: nat, seal: (nat, seq<byte>) -> seq<byte>)
    requires WritersOk(w) && i < |w.threads|
    ensures WritersOk(Advance(w, i, seal))
  {
    AdvanceItems(w, i, seal);
  }

  /** Record n of the DTLS connection seals the n-th segment handed to `SSL_write`. */
  ghost predicate RecordsOk(w: World, seal: (nat, seq<byte>) -> seq<byte>) {
    && |w.recordAt| == |w.sctp.handed|
    && (forall n :: 0 <= n < |w.recordAt| ==>
          && w.recordAt[n] < |w.dtls.items| && w.sctp.handed[n] < |w.sctp.removed|
          && w.dtls.items[w.recordAt[n]] == seal(n, w.sctp.removed[w.sctp.handed[n]]))
    && (forall n, m :: 0 <= n < m < |w.recordAt| ==> w.recordAt[n] < w.recordAt[m])
  }

  lemma AdvanceRecords(w: World, i: nat, seal: (nat, seq<byte>) -> seq<byte>)
    requires RecordsOk(w, seal) && i < |w.threads|
    ensures RecordsOk(Advance(w, i, seal), seal)
  {
    if w.threads[i].pc.SealStore? && Sealable(w.sctp, i) {
      SealRecords(w, Advance(w, i, seal), i, seal);
    } else {
      NoSeal(w, i, seal);
      RecordsGrow(w, Advance(w, i, seal), seal);
    }
  }

  lemma SealRecords(w: World, w': World, i: nat, seal: (nat, seq<byte>) -> seq<byte>)
    requires RecordsOk(w, seal) && Sealable(w.sctp, i)
    requires w'.recordAt == w.recordAt + [|w.dtls.items|] && w'.sctp.handed == w.sctp.handed + [w.sctp.held[i]]
    requires w'.sctp.removed == w.sctp.removed
    requires w'.dtls.items == w.dtls.items + [seal(|w.sctp.handed|, w.sctp.removed[w.sctp.held[i]])]
    ensures RecordsOk(w', seal)
  {
  }

  /** Acts only add to the history of a queue. */
  lemma DoneGrows(queue: Queue, act: Act, i: nat)
    ensures queue.items <= Done(queue, act, i).items && queue.removed <= Done(queue, act, i).removed
    ensures !act.Hand? ==> Done(queue, act, i).handed == queue.handed
  {
  }

  lemma NoSeal(w: World, i: nat, seal: (nat, seq<byte>) -> seq<byte>)
    requires i < |w.threads| && !(w.threads[i].pc.SealStore? && Sealable(w.sctp, i))
    ensures var w' := Advance(w, i, seal);
      && w'.recordAt == w.recordAt && w'.sctp.handed == w.sctp.handed
      && w.dtls.items <= w'.dtls.items && w.sctp.removed <= w'.sctp.removed
  {
    DoneGrows(w.sctp, Does(w.sctp, w.threads[i], i, Sctp, seal), i);
    DoneGrows(w.dtls, Does(w.sctp, w.threads[i], i, Dtls, seal), i);
  }

  lemma RecordsGrow(w: World, w': World, seal: (nat, seq<byte>) -> seq<byte>)
    requires RecordsOk(w, seal) && w'.recordAt == w.recordAt && w'.sctp.handed == w.sctp.handed
    requires w.dtls.items <= w'.dtls.items && w.sctp.removed <= w'.sctp.removed
    ensures RecordsOk(w', seal)
  {
  }

  lemma WritesKept(w: World, step: Step, seal: (nat, seq<byte>) -> seq<byte>)
    requires WritersOk(w) && RecordsOk(w, seal)
    ensures WritersOk(Apply(w, step, seal)) && RecordsOk(Apply(w, step, seal), seal)
  {
    if step.Go? {
      if step.i < |w.threads| {
        AdvanceWriters(w, step.i, seal);
        AdvanceRecords(w, step.i, seal);
      }
    } else {
      var w' := Apply(w, step, seal);
      assert w' == w.(threads := w'.threads) && |w'.threads| == |w.threads| + 1;
      assert forall j :: 0 <= j < |w.threads| ==> w'.threads[j] == w.threads[j];
    }
  }

  /** In every run the bytes written to SCTP's queue are the callbacks' data, each once,
      and DTLS record n seals the n-th segment handed to it. */
  lemma {:induction false} RunWrites(steps: seq<Step>, seal: (nat, seq<byte>) -> seq<byte>)
    ensures WritersOk(Run(steps, seal)) && RecordsOk(Run(steps, seal), seal)
  {
    if steps != [] {
      RunWrites(steps[..|steps| - 1], seal);
      WritesKept(Run(steps[..|steps| - 1], seal), steps[|steps| - 1], seal);
    }
  }

  // Order

  /** A step that hands the segment of a thread over. */
  predicate Hands(pc: Pc, q: Which) {
    if q.Sctp? then pc.SealStore? else pc.Send?
  }

  /** The step hands a segment over while another thread still holds an older one. */
  ghost predicate Overtakes(w: World, step: Step, q: Which) {
    && step.Go? && step.i < |w.threads| && Hands(w.threads[step.i].pc, q) && step.i in w.At(q).held
    && exists j: nat :: j in w.At(q).held && w.At(q).held[j] < w.At(q).held[step.i]
  }

  ghost predicate NoOvertaking(steps: seq<Step>, seal: (nat, seq<byte>) -> seq<byte>, q: Which) {
    steps == []
    || (NoOvertaking(steps[..|steps| - 1], seal, q)
        && !Overtakes(Run(steps[..|steps| - 1], seal), steps[|steps| - 1], q))
  }

  predicate InOrder(queue: Queue) {
    forall n :: 0 <= n < |queue.handed| ==> queue.handed[n] == n
  }

  lemma AdvanceHands(w: World, i: nat, seal: (nat, seq<byte>) -> seq<byte>, q: Which)
    requires i < |w.threads| && (i in w.sctp.held ==> w.sctp.held[i] < |w.sctp.removed|)
    ensures Advance(w, i, seal).At(q).handed ==
            w.At(q).handed + if Hands(w.threads[i].pc, q) && i in w.At(q).held then [w.At(q).held[i]] else []
  {
  }

  lemma Early(queue: Queue)
    requires InOrder(queue)
    ensures forall k: nat :: k < |queue.handed| ==> k in queue.handed
    ensures |queue.handed| !in queue.handed
  {
    forall k: nat | k < |queue.handed|
      ensures k in queue.handed
    {
      assert queue.handed[k] == k;
    }
    forall k | k in queue.handed
      ensures k != |queue.handed|
    {
      var n :| 0 <= n < |queue.handed| && queue.handed[n] == k;
    }
  }

  /** The segment handed over is the next one just when no older one is held. */
  lemma NextIffOldest(queue: Queue, i: nat)
    requires EachOnce(queue) && InOrder(queue) && i in queue.held
    ensures queue.held[i] == |queue.handed| <==> !exists j: nat :: j in queue.held && queue.held[j] < queue.held[i]
  {
    var k, m := queue.held[i], |queue.handed|;
    Early(queue);
    if k != m {
      var j: nat :| Holds(queue, j, m);
      assert queue.held[j] < k;
    }
  }

  /** Segments are handed over in the order in which they were removed just when no
      thread ever overtakes another between its read and its write. */
  lemma {:induction false} InOrderIff(steps: seq<Step>, seal: (nat, seq<byte>) -> seq<byte>, q: Which)
    ensures InOrder(Run(steps, seal).At(q)) <==> NoOvertaking(steps, seal, q)
  {
    if steps != [] {
      var init := steps[..|steps| - 1];
      InOrderIff(init, seal, q);
      RunBooks(init, seal, q);
      RunBooks(init, seal, Sctp);
      ApplyInOrderIff(Run(init, seal), steps[|steps| - 1], seal, q);
    }
  }

  lemma ApplyInOrderIff(w: World, step: Step, seal: (nat, seq<byte>) -> seq<byte>, q: Which)
    requires EachOnce(w.At(q)) && EachOnce(w.sctp)
    ensures InOrder(Apply(w, step, seal).At(q)) <==> InOrder(w.At(q)) && !Overtakes(w, step, q)
  {
    if step.Go? && step.i < |w.threads| {
      AdvanceHands(w, step.i, seal, q);
      OrderStep(w.At(q), Apply(w, step, seal).At(q), step.i, Hands(w.threads[step.i].pc, q));
    }
  }

  lemma OrderStep(queue: Queue, new_: Queue, i: nat, hands: bool)
    requires EachOnce(queue)
    requires new_.handed == queue.handed + if hands && i in queue.held then [queue.held[i]] else []
    ensures InOrder(new_) <==>
            (InOrder(queue)
             && !(hands && i in queue.held && exists j: nat :: j in queue.held && queue.held[j] < queue.held[i]))
  {
    if InOrder(queue) && hands && i in queue.held {
      NextIffOldest(queue, i);
      assert new_.handed[|queue.handed|] == queue.held[i];
    } else if !InOrder(queue) {
      var n :| 0 <= n < |queue.handed| && queue.handed[n] != n;
      assert new_.handed[n] != n;
    }
  }

  /** In order, what was handed over is the beginning of what was written. */
  lemma InOrderPrefix(queue: Queue)
    requires Conserved(queue) && EachOnce(queue) && InOrder(queue)
    ensures |queue.handed| <= |queue.removed|
    ensures Flat(queue.removed[..|queue.handed|]) <= Flat(queue.items)
  {
    var n := |queue.handed|;
    assert n > 0 ==> queue.handed[n - 1] == n - 1;
    FlatSplit(queue.removed, n);
  }

  lemma {:induction false} FlatSplit(parts: seq<seq<byte>>, n: nat)
    requires n <= |parts|
    ensures Flat(parts[..n]) <= Flat(parts)
    decreases |parts| - n
  {
    if n < |parts| {
      assert parts[..n + 1][..n] == parts[..n];
      FlatSplit(parts, n + 1);
    } else {
      assert parts[..n] == parts;
    }
  }

  // Serialised callbacks

  /** The thread is in `sctp_data_ready_cb`, past its first step and before the end of
      `sctp_to_dtls`. */
  predicate InCall(pc: Pc) {
    match pc
    case WriteLoad(q) => q.Sctp?
    case WriteStore(q, copy) => q.Sctp?
    case WriteUnlock(q) => q.Sctp?
    case Pending(q) => q.Sctp?
    case TakeLock(q) => q.Sctp?
    case TakeLoad(q) => q.Sctp?
    case TakeStore(q, copy) => q.Sctp?
    case TakeUnlock(q) => q.Sctp?
    case Check(q) => q.Sctp?
    case SealLock => true
    case SealLoad => true
    case SealStore(copy) => true
    case SealUnlock => true
    case _ => false
  }

  /** A callback takes its first step only when no other is in its call. */
  predicate Serial(w: World, step: Step) {
    step.Go? && step.i < |w.threads| && w.threads[step.i].pc == WriteLock(Sctp) ==>
      forall j :: 0 <= j < |w.threads| ==> !InCall(w.threads[j].pc)
  }

  predicate Serialised(steps: seq<Step>, seal: (nat, seq<byte>) -> seq<byte>) {
    steps == []
    || (Serialised(steps[..|steps| - 1], seal) && Serial(Run(steps[..|steps| - 1], seal), steps[|steps| - 1]))
  }

  ghost predicate OneCall(w: World) {
    forall i, j :: 0 <= i < |w.threads| && 0 <= j < |w.threads| && InCall(w.threads[i].pc) && InCall(w.threads[j].pc)
      ==> i == j
  }

  lemma NextInCall(w: World, t: Thread, i: nat)
    requires InCall(Next(w, t, i))
    ensures InCall(t.pc) || t.pc == WriteLock(Sctp)
  {
  }

  lemma SerialStep(w: World, step: Step, seal: (nat, seq<byte>) -> seq<byte>)
    requires OneCall(w) && Serial(w, step)
    ensures OneCall(Apply(w, step, seal))
  {
    if step.Go? && step.i < |w.threads| && InCall(Next(w, w.threads[step.i], step.i)) {
      NextInCall(w, w.threads[step.i], step.i);
    }
  }

  lemma {:induction false} SerialOneCall(steps: seq<Step>, seal: (nat, seq<byte>) -> seq<byte>)
    requires Serialised(steps, seal)
    ensures OneCall(Run(steps, seal))
  {
    if steps != [] {
      SerialOneCall(steps[..|steps| - 1], seal);
      SerialStep(Run(steps[..|steps| - 1], seal), steps[|steps| - 1], seal);
    }
  }

  /** At most one thread has a segment in its buffer. */
  lemma OneHolder(w: World, i: nat, j: nat)
    requires ThreadsOk(w, Sctp) && OneCall(w) && i in w.sctp.held && j in w.sctp.held
    ensures i == j
  {
    assert ThreadOk(w.sctp, Sctp, i, w.threads[i].pc) && ThreadOk(w.sctp, Sctp, j, w.threads[j].pc);
  }

  lemma {:induction false} SerialNoOvertaking(steps: seq<Step>, seal: (nat, seq<byte>) -> seq<byte>)
    requires Serialised(steps, seal)
    ensures NoOvertaking(steps, seal, Sctp)
  {
    if steps != [] {
      var init, last := steps[..|steps| - 1], steps[|steps| - 1];
      SerialNoOvertaking(init, seal);
      SerialOneCall(init, seal);
      RunBooks(init, seal, Sctp);
      var w := Run(init, seal);
      forall j: nat | last.Go? && last.i in w.sctp.held && j in w.sctp.held
        ensures w.sctp.held[j] == w.sctp.held[last.i]
      {
        OneHolder(w, last.i, j);
      }
    }
  }

  /** Serialised callbacks keep the order: the n-th segment removed is the n-th sealed,
      in DTLS record n, and what was sealed is the beginning of what was written. */
  lemma SerialInOrder(steps: seq<Step>, seal: (nat, seq<byte>) -> seq<byte>)
    requires Serialised(steps, seal)
    ensures var w := Run(steps, seal);
      var n := |w.recordAt|;
      && n <= |w.sctp.removed| && Flat(w.sctp.removed[..n]) <= Flat(w.sctp.items)
      && (forall k :: 0 <= k < n ==>
            w.recordAt[k] < |w.dtls.items| && w.dtls.items[w.recordAt[k]] == seal(k, w.sctp.removed[k]))
      && (forall k, m :: 0 <= k < m < n ==> w.recordAt[k] < w.recordAt[m])
  {
    var w := Run(steps, seal);
    SerialNoOvertaking(steps, seal);
    InOrderIff(steps, seal, Sctp);
    RunBooks(steps, seal, Sctp);
    RunConserves(steps, seal, Sctp);
    RunWrites(steps, seal);
    InOrderPrefix(w.sctp);
  }
}
