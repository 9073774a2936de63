/** What the pump gets done: a callback that is not disturbed brings its data to the peer. */
module PumpProgress {
  import opened Bytes
  import opened Pump
  import opened PumpTheorems
  import opened PumpOrder
  import opened PumpRaces

  /** The thread is about to lock for `SSL_write` with a segment in its buffer, and nobody
      is at the DTLS queue, which is empty. */
  predicate HasSegment(w: World, i: nat, record: seq<byte>, seal: (nat, seq<byte>) -> seq<byte>) {
    && i < |w.threads| && w.threads[i].pc == SealLock && !w.threads[i].loops && Sealable(w.sctp, i)
    && w.dtls.holder == None && w.dtls.bytes == [] && i !in w.dtls.held
    && record == seal(|w.sctp.handed|, w.sctp.removed[w.sctp.held[i]]) && 0 < |record| < 65536
  }

  /** Where it is `k` steps later. */
  function PcThen(record: seq<byte>, k: nat): Pc {
    if k == 0 then SealLock
    else if k == 1 then SealLoad
    else if k == 2 then SealStore([])
    else if k == 3 then SealUnlock
    else if k == 4 then Pending(Dtls)
    else if k == 5 then TakeLock(Dtls)
    else if k == 6 then TakeLoad(Dtls)
    else if k == 7 then TakeStore(Dtls, record)
    else if k == 8 then TakeUnlock(Dtls)
    else if k == 9 then Check(Dtls)
    else if k == 10 then Send
    else Ended
  }

  function DtlsThen(q: Queue, i: nat, record: seq<byte>, k: nat): Queue {
    q.(holder := if k in {1, 2, 3, 6, 7, 8} then Some(i) else None,
       bytes := if 3 <= k < 8 then record else [],
       items := if k < 3 then q.items else q.items + [record],
       removed := if k < 8 then q.removed else q.removed + [record],
       held := if 8 <= k < 11 then q.held[i := |q.removed|] else q.held,
       handed := if k < 11 then q.handed else q.handed + [|q.removed|])
  }

  function SctpThen(q: Queue, i: nat, k: nat): Queue
    requires i in q.held
  {
    if k < 3 then q else q.(held := q.held - {i}, handed := q.handed + [q.held[i]])
  }

  function Then(w: World, i: nat, record: seq<byte>, k: nat): World
    requires i < |w.threads| && i in w.sctp.held
  {
    World(SctpThen(w.sctp, i, k), DtlsThen(w.dtls, i, record, k), w.threads[i := w.threads[i].(pc := PcThen(record, k))],
          w.writers, if k < 3 then w.recordAt else w.recordAt + [|w.dtls.items|])
  }

  lemma Repointed(w: World, i: nat, record: seq<byte>, k: nat)
    requires i < |w.threads| && i in w.sctp.held
    ensures Then(w, i, record, k).threads[i := w.threads[i].(pc := PcThen(record, k + 1))] == Then(w, i, record, k + 1).threads
    ensures record[|record|..] == [] && record[..|record|] == record && [] + record == record
  {
  }

  lemma ThenLocks(w: World, i: nat, record: seq<byte>, k: nat, seal: (nat, seq<byte>) -> seq<byte>)
    requires HasSegment(w, i, record, seal) && (k == 0 || k == 5)
    ensures Advance(Then(w, i, record, k), i, seal) == Then(w, i, record, k + 1)
  {
    Repointed(w, i, record, k);
  }

  lemma ThenLoads(w: World, i: nat, record: seq<byte>, k: nat, seal: (nat, seq<byte>) -> seq<byte>)
    requires HasSegment(w, i, record, seal) && (k == 1 || k == 6)
    ensures Advance(Then(w, i, record, k), i, seal) == Then(w, i, record, k + 1)
  {
    Repointed(w, i, record, k);
  }

  lemma ThenUnlocks(w: World, i: nat, record: seq<byte>, k: nat, seal: (nat, seq<byte>) -> seq<byte>)
    requires HasSegment(w, i, record, seal) && (k == 3 || k == 8)
    ensures Advance(Then(w, i, record, k), i, seal) == Then(w, i, record, k + 1)
  {
    Repointed(w, i, record, k);
  }

  lemma ThenTests(w: World, i: nat, record: seq<byte>, k: nat, seal: (nat, seq<byte>) -> seq<byte>)
    requires HasSegment(w, i, record, seal) && (k == 4 || k == 9)
    ensures Advance(Then(w, i, record, k), i, seal) == Then(w, i, record, k + 1)
  {
    Repointed(w, i, record, k);
  }

  lemma ThenStores(w: World, i: nat, record: seq<byte>, k: nat, seal: (nat, seq<byte>) -> seq<byte>)
    requires HasSegment(w, i, record, seal) && k == 2
    ensures Advance(Then(w, i, record, k), i, seal) == Then(w, i, record, k + 1)
  {
    Repointed(w, i, record, k);
  }

  lemma ThenTakes(w: World, i: nat, record: seq<byte>, k: nat, seal: (nat, seq<byte>) -> seq<byte>)
    requires HasSegment(w, i, record, seal) && k == 7
    ensures Advance(Then(w, i, record, k), i, seal) == Then(w, i, record, k + 1)
  {
    Repointed(w, i, record, k);
  }

  lemma ThenSends(w: World, i: nat, record: seq<byte>, k: nat, seal: (nat, seq<byte>) -> seq<byte>)
    requires HasSegment(w, i, record, seal) && k == 10
    ensures Advance(Then(w, i, record, k), i, seal) == Then(w, i, record, k + 1)
  {
    Repointed(w, i, record, k);
    assert (w.dtls.held[i := |w.dtls.removed|]) - {i} == w.dtls.held;
  }

  lemma {:induction false} SealsAlone(w: World, i: nat, record: seq<byte>, k: nat, seal: (nat, seq<byte>) -> seq<byte>)
    requires HasSegment(w, i, record, seal) && k <= 11
    ensures Goes(w, i, k, seal) == Then(w, i, record, k)
  {
    if k == 0 {
      assert w.threads[i := w.threads[i]] == w.threads;
    } else {
      SealsAlone(w, i, record, k - 1, seal);
      if k - 1 == 2 {
        ThenStores(w, i, record, k - 1, seal);
      } else if k - 1 in {3, 8} {
        ThenUnlocks(w, i, record, k - 1, seal);
      } else if k - 1 in {4, 9} {
        ThenTests(w, i, record, k - 1, seal);
      } else if k - 1 == 7 {
        ThenTakes(w, i, record, k - 1, seal);
      } else if k - 1 == 10 {
        ThenSends(w, i, record, k - 1, seal);
      } else if k - 1 in {0, 5} {
        ThenLocks(w, i, record, k - 1, seal);
      } else {
        ThenLoads(w, i, record, k - 1, seal);
      }
    }
  }

  lemma {:induction false} TimesMore(i: nat, n: nat, m: nat)
    ensures Times(i, n) + Times(i, m) == Times(i, n + m)
  {
    if m == 0 {
      assert Times(i, n) + [] == Times(i, n);
    } else {
      TimesMore(i, n, m - 1);
      OneMore(Times(i, n), Times(i, m - 1), Go(i));
    }
  }

  /** Nobody is at the two queues and both are empty. */
  predicate Idle(w: World) {
    w.sctp.holder == None && w.dtls.holder == None && w.sctp.bytes == [] && w.dtls.bytes == []
  }

  /** The queue took in `data`, and gave it out and on, as one segment. */
  predicate Through(q: Queue, q': Queue, data: seq<byte>) {
    && q'.items == q.items + [data] && q'.removed == q.removed + [data] && q'.handed == q.handed + [|q.removed|]
    && q'.bytes == [] && q'.holder == None
  }

  /** The first ten steps, up to `SSL_write`. */
  lemma ToSeal(w: World, i: nat, record: seq<byte>, u: World, seal: (nat, seq<byte>) -> seq<byte>)
    requires PumpRaces.Fresh(w, i) && !w.threads[i].loops && Idle(w) && i !in w.dtls.held && u == Alone(w, i, 10)
    requires record == seal(|w.sctp.handed|, w.threads[i].data) && 0 < |record| < 65536
    ensures HasSegment(u, i, record, seal) && u.dtls == w.dtls && u.sctp.handed == w.sctp.handed && u.sctp.bytes == []
    ensures u.sctp.items == w.sctp.items + [w.threads[i].data] && u.sctp.removed == w.sctp.removed + [w.threads[i].data]
    ensures u.sctp.held[i] == |w.sctp.removed| && u.sctp.holder == None
  {
  }

  lemma Sent(u: World, i: nat, record: seq<byte>, v: World)
    requires i < |u.threads| && i in u.sctp.held && v == Then(u, i, record, 11)
    ensures i < |v.threads| && v.threads[i].pc == Ended && Through(u.dtls, v.dtls, record)
    ensures v.sctp == u.sctp.(held := u.sctp.held - {i}, handed := u.sctp.handed + [u.sctp.held[i]])
  {
  }

  /** A callback that was just started. */
  lemma StartedFresh(steps: seq<Step>, data: seq<byte>, w: World, seal: (nat, seq<byte>) -> seq<byte>)
    requires w == Run(steps, seal) && Idle(w) && 0 < |data| < 65536
    ensures var u, i := Apply(w, Callback(data), seal), |w.threads|;
      && PumpRaces.Fresh(u, i) && !u.threads[i].loops && u.threads[i].data == data && Idle(u) && i !in u.dtls.held
      && u.sctp == w.sctp && u.dtls == w.dtls
  {
    RunBooks(steps, seal, Sctp);
    RunBooks(steps, seal, Dtls);
  }

  lemma RunTimes(steps: seq<Step>, i: nat, n: nat, w: World, u: World, seal: (nat, seq<byte>) -> seq<byte>)
    requires Run(steps, seal) == w && Goes(w, i, n, seal) == u
    ensures Run(steps + Times(i, n), seal) == u
  {
    RunGoes(steps, i, n, seal);
  }

  lemma RunTwice(steps: seq<Step>, i: nat, n: nat, m: nat, w: World, u: World, v: World,
      seal: (nat, seq<byte>) -> seq<byte>)
    requires Run(steps, seal) == w && Goes(w, i, n, seal) == u && Goes(u, i, m, seal) == v
    ensures Run(steps + Times(i, n + m), seal) == v
  {
    RunTimes(steps, i, n, w, u, seal);
    RunTimes(steps + Times(i, n), i, m, u, v, seal);
    TimesMore(i, n, m);
    Regroup(steps, Times(i, n), Times(i, m));
  }

  lemma Regroup(a: seq<Step>, b: seq<Step>, c: seq<Step>)
    ensures a + b + c == a + (b + c)
  {
  }

  lemma FreshDelivers(w: World, i: nat, record: seq<byte>, n: nat, m: nat, u: World, v: World,
      seal: (nat, seq<byte>) -> seq<byte>)
    requires PumpRaces.Fresh(w, i) && !w.threads[i].loops && Idle(w) && i !in w.dtls.held
    requires record == seal(|w.sctp.handed|, w.threads[i].data) && 0 < |record| < 65536
    requires n == 10 && m == 11 && u == Goes(w, i, n, seal) && v == Goes(u, i, m, seal)
    ensures i < |v.threads| && v.threads[i].pc == Ended
    ensures Through(w.sctp, v.sctp, w.threads[i].data) && Through(w.dtls, v.dtls, record)
  {
    TakesAlone(w, i, n, seal);
    ToSeal(w, i, record, u, seal);
    SealsAlone(u, i, record, m, seal);
    Sent(u, i, record, v);
  }

  /** From every reachable state with idle queues, a callback that runs undisturbed takes
      its data from the SCTP queue, adds the record of it to the DTLS queue, and hands
      that to ICE, in twenty-one steps; both queues are empty again. */
  lemma DeliversAlone(steps: seq<Step>, data: seq<byte>, n: nat, m: nat, seal: (nat, seq<byte>) -> seq<byte>)
    requires var w := Run(steps, seal);
      Idle(w) && 0 < |data| < 65536 && 0 < |seal(|w.sctp.handed|, data)| < 65536
    requires n == 10 && m == 11
    ensures var w := Run(steps, seal);
      var i := |w.threads|;
      var v := Run(steps + [Callback(data)] + Times(i, n + m), seal);
      && i < |v.threads| && v.threads[i].pc == Ended
      && Through(w.sctp, v.sctp, data) && Through(w.dtls, v.dtls, seal(|w.sctp.handed|, data))
  {
    var w := Run(steps, seal);
    var i, started := |w.threads|, Apply(w, Callback(data), seal);
    StartedFresh(steps, data, w, seal);
    var u := Goes(started, i, n, seal);
    var v := Goes(u, i, m, seal);
    FreshDelivers(started, i, seal(|w.sctp.handed|, data), n, m, u, v, seal);
    RunSnoc(steps, Callback(data), seal);
    RunTwice(steps + [Callback(data)], i, n, m, started, u, v, seal);
  }

  // The ICE thread and the handshakes

  predicate DtlsFree(w: World, i: nat) {
    i < |w.threads| && w.dtls.holder == None && i !in w.dtls.held
  }

  /** Where the ICE thread is `k` steps after it found `record` pending. */
  function PcIce(record: seq<byte>, k: nat): Pc {
    if k == 0 then Pending(Dtls)
    else if k == 1 then TakeLock(Dtls)
    else if k == 2 then TakeLoad(Dtls)
    else if k == 3 then TakeStore(Dtls, record)
    else if k == 4 then TakeUnlock(Dtls)
    else if k == 5 then Check(Dtls)
    else if k == 6 then Send
    else Pending(Dtls)
  }

  function IceAfter(w: World, i: nat, k: nat): World
    requires i < |w.threads|
  {
    var q, record := w.dtls, w.dtls.bytes;
    w.(dtls := q.(holder := if k in {2, 3, 4} then Some(i) else None,
                  bytes := if k < 4 then record else [],
                  removed := if k < 4 then q.removed else q.removed + [record],
                  held := if 4 <= k < 7 then q.held[i := |q.removed|] else q.held,
                  handed := if k < 7 then q.handed else q.handed + [|q.removed|]),
       threads := w.threads[i := w.threads[i].(pc := PcIce(record, k))])
  }

  predicate IcePending(w: World, i: nat) {
    DtlsFree(w, i) && w.threads[i].loops && w.threads[i].pc == Pending(Dtls) && 0 < |w.dtls.bytes| < 65536
  }

  lemma IceRepointed(w: World, i: nat, k: nat)
    requires i < |w.threads|
    ensures var record := w.dtls.bytes;
      && IceAfter(w, i, k).threads[i := w.threads[i].(pc := PcIce(record, k + 1))] == IceAfter(w, i, k + 1).threads
      && record[|record|..] == [] && record[..|record|] == record
  {
  }

  lemma IceGoes(w: World, i: nat, k: nat, seal: (nat, seq<byte>) -> seq<byte>)
    requires IcePending(w, i) && k < 3
    ensures Advance(IceAfter(w, i, k), i, seal) == IceAfter(w, i, k + 1)
  {
    IceRepointed(w, i, k);
  }

  lemma IceTakes(w: World, i: nat, k: nat, seal: (nat, seq<byte>) -> seq<byte>)
    requires IcePending(w, i) && k == 3
    ensures Advance(IceAfter(w, i, k), i, seal) == IceAfter(w, i, k + 1)
  {
    IceRepointed(w, i, k);
  }

  lemma IceTests(w: World, i: nat, k: nat, seal: (nat, seq<byte>) -> seq<byte>)
    requires IcePending(w, i) && 4 <= k < 6
    ensures Advance(IceAfter(w, i, k), i, seal) == IceAfter(w, i, k + 1)
  {
    IceRepointed(w, i, k);
  }

  lemma IceHands(w: World, i: nat, k: nat, seal: (nat, seq<byte>) -> seq<byte>)
    requires IcePending(w, i) && k == 6
    ensures Advance(IceAfter(w, i, k), i, seal) == IceAfter(w, i, k + 1)
  {
    IceRepointed(w, i, k);
    assert (w.dtls.held[i := |w.dtls.removed|]) - {i} == w.dtls.held;
  }

  lemma {:induction false} IceAlone(w: World, i: nat, k: nat, seal: (nat, seq<byte>) -> seq<byte>)
    requires IcePending(w, i) && k <= 7
    ensures Goes(w, i, k, seal) == IceAfter(w, i, k)
  {
    if k == 0 {
      assert w.threads[i := w.threads[i]] == w.threads;
    } else {
      IceAlone(w, i, k - 1, seal);
      if k - 1 < 3 {
        IceGoes(w, i, k - 1, seal);
      } else if k - 1 == 3 {
        IceTakes(w, i, k - 1, seal);
      } else if k - 1 < 6 {
        IceTests(w, i, k - 1, seal);
      } else {
        IceHands(w, i, k - 1, seal);
      }
    }
  }

  /** The ICE thread, undisturbed for one round of seven steps, takes what is pending in the
      DTLS queue, hands it to ICE, and is back to look for more. */
  lemma IceSends(w: World, i: nat, k: nat, seal: (nat, seq<byte>) -> seq<byte>)
    requires IcePending(w, i) && k == 7
    ensures var v := Goes(w, i, k, seal);
      && v.dtls == w.dtls.(bytes := [], removed := w.dtls.removed + [w.dtls.bytes],
                           handed := w.dtls.handed + [|w.dtls.removed|])
      && v.threads == w.threads && v.sctp == w.sctp
  {
    IceAlone(w, i, k, seal);
  }

  /** A handshake without the mutex puts its flight at the end of the queue, if nothing
      comes between its two steps. */
  lemma FirstFlightWritten(w: World, flight: seq<byte>, seal: (nat, seq<byte>) -> seq<byte>)
    ensures var i := |w.threads|;
      var v := Apply(Apply(Apply(w, FirstHandshake(flight), seal), Go(i), seal), Go(i), seal);
      && v.dtls == w.dtls.(bytes := w.dtls.bytes + flight, items := w.dtls.items + [flight])
      && v.threads == w.threads + [Thread(flight, false, Ended)] && v.sctp == w.sctp
  {
  }

  /** So does one with the mutex, if it is free. */
  lemma FlightWritten(w: World, flight: seq<byte>, u: World, seal: (nat, seq<byte>) -> seq<byte>)
    requires w.dtls.holder == None
    requires var i := |w.threads|;
      u == Apply(Apply(Apply(w, Handshake(flight), seal), Go(i), seal), Go(i), seal)
    ensures var i := |w.threads|;
      var v := Apply(Apply(u, Go(i), seal), Go(i), seal);
      && v.dtls == w.dtls.(bytes := w.dtls.bytes + flight, items := w.dtls.items + [flight])
      && v.threads == w.threads + [Thread(flight, false, Ended)] && v.sctp == w.sctp
  {
    assert u == w.(dtls := w.dtls.(holder := Some(|w.threads|)),
                   threads := w.threads + [Thread(flight, false, WriteStore(Dtls, w.dtls.bytes))]);
  }
}
