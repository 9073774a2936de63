/** Two runs that show what the theorems about the pump cannot promise. */
module PumpRaces {
  import opened Bytes
  import opened Pump
  import opened PumpTheorems
  import opened PumpOrder

  /** The thread takes `n` steps. */
  function Goes(w: World, i: nat, n: nat, seal: (nat, seq<byte>) -> seq<byte>): World {
    if n == 0 then w else Apply(Goes(w, i, n - 1, seal), Go(i), seal)
  }

  function Times(i: nat, n: nat): seq<Step> {
    if n == 0 then [] else Times(i, n - 1) + [Go(i)]
  }

  lemma {:induction false} RunGoes(steps: seq<Step>, i: nat, n: nat, seal: (nat, seq<byte>) -> seq<byte>)
    ensures Run(steps + Times(i, n), seal) == Goes(Run(steps, seal), i, n, seal)
  {
    if n == 0 {
      assert steps + [] == steps;
    } else {
      RunGoes(steps, i, n - 1, seal);
      GoesOnce(steps, i, n, Goes(Run(steps, seal), i, n - 1, seal), seal);
    }
  }

  lemma GoesOnce(steps: seq<Step>, i: nat, n: nat, w: World, seal: (nat, seq<byte>) -> seq<byte>)
    requires n > 0 && Run(steps + Times(i, n - 1), seal) == w
    ensures Run(steps + Times(i, n), seal) == Apply(w, Go(i), seal)
  {
    OneGoMore(steps, Times(i, n - 1), i, w, seal);
  }

  lemma OneGoMore(steps: seq<Step>, times: seq<Step>, i: nat, w: World, seal: (nat, seq<byte>) -> seq<byte>)
    requires Run(steps + times, seal) == w
    ensures Run(steps + (times + [Go(i)]), seal) == Apply(w, Go(i), seal)
  {
    RunSnoc(steps + times, Go(i), seal);
    OneMore(steps, times, Go(i));
  }

  lemma OneMore(a: seq<Step>, b: seq<Step>, step: Step)
    ensures a + (b + [step]) == (a + b) + [step]
  {
  }

  // Overtaking

  /** A callback is about to start on an empty queue. */
  predicate Fresh(w: World, i: nat) {
    && i < |w.threads| && w.threads[i].pc == WriteLock(Sctp) && 0 < |w.threads[i].data| < BUFFER_SIZE
    && w.sctp.holder == None && w.sctp.bytes == [] && i !in w.sctp.held
  }

  /** Where that callback is after `k` steps alone: it writes its data, takes it back out,
      and after ten steps is about to lock for `SSL_write`. */
  function PcAfter(data: seq<byte>, k: nat): Pc {
    if k == 0 then WriteLock(Sctp)
    else if k == 1 then WriteLoad(Sctp)
    else if k == 2 then WriteStore(Sctp, [])
    else if k == 3 then WriteUnlock(Sctp)
    else if k == 4 then Pending(Sctp)
    else if k == 5 then TakeLock(Sctp)
    else if k == 6 then TakeLoad(Sctp)
    else if k == 7 then TakeStore(Sctp, data)
    else if k == 8 then TakeUnlock(Sctp)
    else if k == 9 then Check(Sctp)
    else SealLock
  }

  function QueueAfter(q: Queue, i: nat, data: seq<byte>, k: nat): Queue {
    q.(holder := if k in {1, 2, 3, 6, 7, 8} then Some(i) else None,
       bytes := if 3 <= k < 8 then data else [],
       items := if k < 3 then q.items else q.items + [data],
       removed := if k < 8 then q.removed else q.removed + [data],
       held := if k < 8 then q.held else q.held[i := |q.removed|])
  }

  function Alone(w: World, i: nat, k: nat): World
    requires i < |w.threads|
  {
    var t := w.threads[i];
    w.(sctp := QueueAfter(w.sctp, i, t.data, k), threads := w.threads[i := t.(pc := PcAfter(t.data, k))],
       writers := if k < 3 then w.writers else w.writers + [i])
  }

  lemma Rethreaded(w: World, i: nat, k: nat)
    requires Fresh(w, i)
    ensures var t := w.threads[i];
      && Alone(w, i, k).threads[i := t.(pc := PcAfter(t.data, k + 1))] == Alone(w, i, k + 1).threads
      && [] + t.data == t.data && t.data[|t.data|..] == [] && t.data[..|t.data|] == t.data
  {
  }

  lemma AloneLocks(w: World, i: nat, k: nat, seal: (nat, seq<byte>) -> seq<byte>)
    requires Fresh(w, i) && (k == 0 || k == 5)
    ensures Advance(Alone(w, i, k), i, seal) == Alone(w, i, k + 1)
  {
    Rethreaded(w, i, k);
  }

  lemma AloneUnlocks(w: World, i: nat, k: nat, seal: (nat, seq<byte>) -> seq<byte>)
    requires Fresh(w, i) && (k == 3 || k == 8)
    ensures Advance(Alone(w, i, k), i, seal) == Alone(w, i, k + 1)
  {
    Rethreaded(w, i, k);
  }

  lemma AloneLoads(w: World, i: nat, k: nat, seal: (nat, seq<byte>) -> seq<byte>)
    requires Fresh(w, i) && (k == 1 || k == 6)
    ensures Advance(Alone(w, i, k), i, seal) == Alone(w, i, k + 1)
  {
    Rethreaded(w, i, k);
  }

  lemma AloneWrites(w: World, i: nat, k: nat, seal: (nat, seq<byte>) -> seq<byte>)
    requires Fresh(w, i) && k == 2
    ensures Advance(Alone(w, i, k), i, seal) == Alone(w, i, k + 1)
  {
    Rethreaded(w, i, k);
  }

  lemma AloneTakes(w: World, i: nat, k: nat, seal: (nat, seq<byte>) -> seq<byte>)
    requires Fresh(w, i) && k == 7
    ensures Advance(Alone(w, i, k), i, seal) == Alone(w, i, k + 1)
  {
    Rethreaded(w, i, k);
  }

  lemma AloneTests(w: World, i: nat, k: nat, seal: (nat, seq<byte>) -> seq<byte>)
    requires Fresh(w, i) && (k == 4 || k == 9)
    ensures Advance(Alone(w, i, k), i, seal) == Alone(w, i, k + 1)
  {
    Rethreaded(w, i, k);
  }

  lemma AloneStep(w: World, i: nat, k: nat, seal: (nat, seq<byte>) -> seq<byte>)
    requires Fresh(w, i) && k < 10
    ensures Advance(Alone(w, i, k), i, seal) == Alone(w, i, k + 1)
  {
    if k == 0 || k == 5 {
      AloneLocks(w, i, k, seal);
    } else if k == 3 || k == 8 {
      AloneUnlocks(w, i, k, seal);
    } else if k == 1 || k == 6 {
      AloneLoads(w, i, k, seal);
    } else if k == 2 {
      AloneWrites(w, i, k, seal);
    } else if k == 7 {
      AloneTakes(w, i, k, seal);
    } else {
      AloneTests(w, i, k, seal);
    }
  }

  lemma {:induction false} TakesAlone(w: World, i: nat, k: nat, seal: (nat, seq<byte>) -> seq<byte>)
    requires Fresh(w, i) && k <= 10
    ensures Goes(w, i, k, seal) == Alone(w, i, k)
  {
    if k == 0 {
      assert w.threads[i := w.threads[i]] == w.threads;
    } else {
      TakesAlone(w, i, k - 1, seal);
      AloneStep(w, i, k - 1, seal);
    }
  }

  /** Two callbacks take `n` steps each, and the second goes on. */
  function TwoCallbacks(a: seq<byte>, b: seq<byte>, n: nat): seq<Step> {
    Begin(a, b) + Times(0, n) + Times(1, n) + [Go(1)] + [Go(1)] + [Go(1)]
  }

  function Begin(a: seq<byte>, b: seq<byte>): seq<Step> {
    [Callback(a)] + [Callback(b)]
  }

  lemma BeginRun(a: seq<byte>, b: seq<byte>, seal: (nat, seq<byte>) -> seq<byte>)
    ensures var threads := [Thread(a, false, WriteLock(Sctp)), Thread(b, false, WriteLock(Sctp))];
      Run(Begin(a, b), seal) == World(EMPTY, EMPTY, threads, [], [])
  {
    RunSnoc([], Callback(a), seal);
    RunSnoc([Callback(a)], Callback(b), seal);
    assert [] + [Callback(a)] == [Callback(a)];
  }

  function Second(data: seq<byte>): Thread {
    Thread(data, false, SealLock)
  }

  /** Both callbacks have read; the second goes on. */
  lemma SecondSeals(w: World, b: seq<byte>, seal: (nat, seq<byte>) -> seq<byte>)
    requires |w.threads| == 2 && w.threads[1] == Second(b) && w.dtls == EMPTY
    requires w.sctp.handed == [] && |w.sctp.removed| == 2 && w.sctp.removed[1] == b
    requires 1 in w.sctp.held && w.sctp.held[1] == 1
    ensures var v := Apply(Apply(Apply(w, Go(1), seal), Go(1), seal), Go(1), seal);
      v.sctp.handed == [1] && v.dtls.items == [seal(0, b)] && v.sctp.items == w.sctp.items
  {
    var w1 := Apply(w, Go(1), seal);
    var w2 := Apply(w1, Go(1), seal);
    assert w1.threads[1].pc == SealLoad && w1.sctp == w.sctp;
    assert w2.threads[1].pc == SealStore([]) && w2.sctp == w.sctp;
  }

  lemma BothTake(steps: seq<Step>, w: World, n: nat, seal: (nat, seq<byte>) -> seq<byte>)
    requires Run(steps, seal) == w && n == 10 && Fresh(w, 0) && |w.threads| == 2 && w.threads[1].pc == WriteLock(Sctp)
    requires 0 < |w.threads[1].data| < BUFFER_SIZE && 1 !in w.sctp.held
    ensures Run(steps + Times(0, n) + Times(1, n), seal) == Alone(Alone(w, 0, n), 1, n)
  {
    RunGoes(steps, 0, n, seal);
    TakesAlone(w, 0, n, seal);
    RunGoes(steps + Times(0, n), 1, n, seal);
    TakesAlone(Alone(w, 0, n), 1, n, seal);
  }

  lemma SecondGoesOn(steps: seq<Step>, u: World, b: seq<byte>, seal: (nat, seq<byte>) -> seq<byte>)
    requires Run(steps, seal) == u && |u.threads| == 2 && u.threads[1] == Second(b) && u.dtls == EMPTY
    requires u.sctp.handed == [] && |u.sctp.removed| == 2 && u.sctp.removed[1] == b
    requires 1 in u.sctp.held && u.sctp.held[1] == 1
    ensures var v := Run(steps + [Go(1)] + [Go(1)] + [Go(1)], seal);
      v.sctp.handed == [1] && v.dtls.items == [seal(0, b)] && v.sctp.items == u.sctp.items
  {
    RunSnoc(steps, Go(1), seal);
    RunSnoc(steps + [Go(1)], Go(1), seal);
    RunSnoc(steps + [Go(1)] + [Go(1)], Go(1), seal);
    SecondSeals(u, b, seal);
  }

  /** Without serialised calls of `sctp_data_ready_cb` the order can be lost: of two
      callbacks that wrote `a` and then `b`, the second can seal `b` first. */
  lemma OrderCanBeLost(a: seq<byte>, b: seq<byte>, n: nat, seal: (nat, seq<byte>) -> seq<byte>)
    requires 0 < |a| < BUFFER_SIZE && 0 < |b| < BUFFER_SIZE && n == 10
    ensures var w := Run(TwoCallbacks(a, b, n), seal);
      w.sctp.items == [a, b] && w.dtls.items == [seal(0, b)] && !InOrder(w.sctp)
  {
    var w := World(EMPTY, EMPTY, [Thread(a, false, WriteLock(Sctp)), Thread(b, false, WriteLock(Sctp))], [], []);
    BeginRun(a, b, seal);
    BothTake(Begin(a, b), w, n, seal);
    TookBoth(w, a, b, n);
    SecondGoesOn(Begin(a, b) + Times(0, n) + Times(1, n), Alone(Alone(w, 0, n), 1, n), b, seal);
    assert Run(TwoCallbacks(a, b, n), seal).sctp.handed[0] == 1;
  }

  lemma TookBoth(w: World, a: seq<byte>, b: seq<byte>, n: nat)
    requires w == World(EMPTY, EMPTY, [Thread(a, false, WriteLock(Sctp)), Thread(b, false, WriteLock(Sctp))], [], [])
    requires n == 10
    ensures var u := Alone(Alone(w, 0, n), 1, n);
      && |u.threads| == 2 && u.threads[1] == Second(b) && u.dtls == EMPTY && u.sctp.items == [a, b]
      && u.sctp.handed == [] && u.sctp.removed == [a, b] && u.sctp.held == map[0 := 0, 1 := 1]
  {
  }

  // The handshake without the mutex

  function TwoHandshakes(a: seq<byte>, b: seq<byte>, n: nat): seq<Step> {
    BareBegin(a, b) + Times(1, n) + [Go(0)]
  }

  function BareBegin(a: seq<byte>, b: seq<byte>): seq<Step> {
    [FirstHandshake(a)] + [Handshake(b)] + [Go(0)]
  }

  lemma BareBeginRun(a: seq<byte>, b: seq<byte>, seal: (nat, seq<byte>) -> seq<byte>)
    ensures var threads := [Thread(a, false, BareStore([])), Thread(b, false, WriteLock(Dtls))];
      Run(BareBegin(a, b), seal) == World(EMPTY, EMPTY, threads, [], [])
  {
    RunSnoc([], FirstHandshake(a), seal);
    RunSnoc([FirstHandshake(a)], Handshake(b), seal);
    RunSnoc([FirstHandshake(a)] + [Handshake(b)], Go(0), seal);
    assert [] + [FirstHandshake(a)] == [FirstHandshake(a)];
  }

  /** The second thread locks, loads and stores. */
  lemma SecondWrites(w: World, n: nat, seal: (nat, seq<byte>) -> seq<byte>)
    requires |w.threads| == 2 && w.threads[1].pc == WriteLock(Dtls) && w.dtls == EMPTY && n == 3
    ensures var v := Goes(w, 1, n, seal);
      && v.dtls.items == [w.threads[1].data] && v.dtls.removed == [] && v.dtls.bytes == w.threads[1].data
      && |v.threads| == 2 && v.threads[0] == w.threads[0] && Conserved(v.dtls)
  {
    var w1 := Apply(w, Go(1), seal);
    var w2 := Apply(w1, Go(1), seal);
    var w3 := Apply(w2, Go(1), seal);
    assert w1.threads[1].pc == WriteLoad(Dtls) && w2.threads[1].pc == WriteStore(Dtls, []);
    FlatMore([], w.threads[1].data);
    assert [] + [w.threads[1].data] == [w.threads[1].data] && [] + w.threads[1].data == w.threads[1].data;
    assert Goes(w, 1, n - 3, seal) == w && Goes(w, 1, n - 2, seal) == w1 && Goes(w, 1, n - 1, seal) == w2;
  }

  lemma BareStores(v: World, a: seq<byte>, b: seq<byte>, seal: (nat, seq<byte>) -> seq<byte>)
    requires |v.threads| == 2 && v.threads[0] == Thread(a, false, BareStore([]))
    requires v.dtls.items == [b] && v.dtls.removed == [] && v.dtls.bytes == b && Conserved(v.dtls)
    ensures var q := Apply(v, Go(0), seal).dtls;
      q.items == [b, a] && q.removed == [] && q.bytes == a && (Conserved(q) <==> b == [])
  {
    StepConservesIff(v, Go(0), seal, Dtls);
    assert [] + a == a;
  }

  /** The startup thread's first `SSL_do_handshake` takes no mutex.  If the ICE thread's
      handshake runs between its load and its store, what that one wrote is gone; nothing
      is lost exactly if it wrote nothing. */
  lemma BytesCanBeLost(a: seq<byte>, b: seq<byte>, n: nat, seal: (nat, seq<byte>) -> seq<byte>)
    requires n == 3
    ensures var q := Run(TwoHandshakes(a, b, n), seal).dtls;
      q.items == [b, a] && q.removed == [] && q.bytes == a && (Conserved(q) <==> b == [])
  {
    var w := World(EMPTY, EMPTY, [Thread(a, false, BareStore([])), Thread(b, false, WriteLock(Dtls))], [], []);
    BareBeginRun(a, b, seal);
    RunGoes(BareBegin(a, b), 1, n, seal);
    SecondWrites(w, n, seal);
    RunSnoc(BareBegin(a, b) + Times(1, n), Go(0), seal);
    BareStores(Goes(w, 1, n, seal), a, b, seal);
  }
}
