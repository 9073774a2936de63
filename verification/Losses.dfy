/** Transfers in which SCTP refuses packets: the senders do not look at what
    `rtcdc_send_message` returns. */
module Losses {
  import opened Bytes
  import opened Checksums
  import opened Transfer
  import opened Reassembly

  // Packets that arrive

  lemma {:induction false} DeliverAppend(ps: seq<Packet>, qs: seq<Packet>, v: seq<bool>, u: seq<bool>)
    requires |v| == |ps| && |u| == |qs|
    ensures Deliver(ps + qs, v + u) == Deliver(ps, v) + Deliver(qs, u)
    decreases |qs|
  {
    if qs == [] {
      assert ps + qs == ps && v + u == v;
    } else {
      var n := |qs| - 1;
      assert (ps + qs)[..|ps| + n] == ps + qs[..n] && (v + u)[..|ps| + n] == v + u[..n];
      DeliverAppend(ps, qs[..n], v, u[..n]);
    }
  }

  lemma {:induction false} DeliverBounded(ps: seq<Packet>, v: seq<bool>)
    requires |v| == |ps| && Bounded(ps)
    ensures Bounded(Deliver(ps, v))
  {
    if ps != [] {
      DeliverBounded(ps[..|ps| - 1], v[..|ps| - 1]);
    }
  }

  lemma DeliverOne(p: Packet, yes: bool)
    ensures Deliver([p], [yes]) == if yes then [p] else []
  {
    assert [p][..0] == [] && [yes][..0] == [];
  }

  /** The receiver opens a file only when none is open, and writes and closes only when
      one is: otherwise a file is left open or one that is closed is used. */
  ghost predicate Orderly(s: Sink, ps: seq<Packet>)
    requires Bounded(ps)
  {
    ps != [] ==>
      var front := ps[..|ps| - 1];
      && Orderly(s, front)
      && (ps[|ps| - 1].index == 0 <==> AcceptAll(s, front).open.None?)
  }

  lemma {:induction false} OrderlyAppend(s: Sink, ps: seq<Packet>, qs: seq<Packet>)
    requires Bounded(ps) && Bounded(qs)
    ensures Bounded(ps + qs) && AcceptAll(s, ps + qs) == AcceptAll(AcceptAll(s, ps), qs)
    ensures Orderly(s, ps + qs) <==> Orderly(s, ps) && Orderly(AcceptAll(s, ps), qs)
    decreases |qs|
  {
    AcceptAppend(s, ps, qs);
    if qs == [] {
      assert ps + qs == ps;
    } else {
      var front := qs[..|qs| - 1];
      OrderlyAppend(s, ps, front);
      assert (ps + qs)[..|ps + qs| - 1] == ps + front;
    }
  }

  lemma OrderlyOne(s: Sink, p: Packet)
    requires p.bufLen <= |p.buf|
    ensures Bounded([p]) && AcceptAll(s, [p]) == Accept(s, p)
    ensures Orderly(s, [p]) <==> (p.index == 0 <==> s.open.None?)
  {
    assert [p][..0] == [];
  }

  // A file that is not opened

  /** No packet opens `name`. */
  ghost predicate Unopened(ps: seq<Packet>, name: Name) {
    forall p :: p in ps && p.index == 0 ==> UntilNul(p.buf) != name
  }

  predicate SameFile(a: Store, b: Store, name: Name) {
    (name in a <==> name in b) && (name in a ==> a[name] == b[name])
  }

  /** A file whose header is lost stays as it was, whatever else arrives. */
  lemma {:induction false} UnopenedStays(s: Sink, ps: seq<Packet>, name: Name)
    requires Bounded(ps) && Unopened(ps, name) && s.open != Some(name)
    ensures SameFile(AcceptAll(s, ps).store, s.store, name) && AcceptAll(s, ps).open != Some(name)
  {
    if ps != [] {
      var front := ps[..|ps| - 1];
      assert forall p :: p in front ==> p in ps;
      assert ps[|ps| - 1] in ps;
      UnopenedStays(s, front, name);
    }
  }

  // Data of an open file

  /** The bytes of the data packets that arrive. */
  function Payload(ps: seq<Packet>, v: seq<bool>): seq<byte>
    requires |v| == |ps| && forall i :: 0 <= i < |ps| ==> ps[i].bufLen <= |ps[i].buf|
  {
    if ps == [] then []
    else
      var n := |ps| - 1;
      Payload(ps[..n], v[..n]) + if v[n] then ps[n].buf[..ps[n].bufLen] else []
  }

  /** A packet that carries nothing: a chunk that starts with a NUL. */
  predicate Spare(p: Packet) {
    p.index > 0 && p.bufLen == 0
  }

  /** Only such packets are refused. */
  ghost predicate OnlySpare(ps: seq<Packet>, v: seq<bool>)
    requires |v| == |ps|
  {
    forall i :: 0 <= i < |ps| && !v[i] ==> Spare(ps[i])
  }

  function All(n: nat): seq<bool> {
    seq(n, _ => true)
  }

  /** The payload is complete exactly if only packets without one are refused. */
  lemma {:induction false} PayloadWholeIff(ps: seq<Packet>, v: seq<bool>, all: seq<bool>)
    requires |v| == |ps| && all == All(|ps|)
    requires forall i :: 0 <= i < |ps| ==> ps[i].bufLen <= |ps[i].buf| && ps[i].index > 0
    ensures |Payload(ps, v)| <= |Payload(ps, all)|
    ensures |Payload(ps, v)| == |Payload(ps, all)| <==> OnlySpare(ps, v)
    ensures OnlySpare(ps, v) ==> Payload(ps, v) == Payload(ps, all)
  {
    if ps != [] {
      var n := |ps| - 1;
      assert all[..n] == All(n);
      PayloadWholeIff(ps[..n], v[..n], all[..n]);
      assert OnlySpare(ps, v) <==> OnlySpare(ps[..n], v[..n]) && (!v[n] ==> Spare(ps[n])) by {
        assert forall i :: 0 <= i < n ==> ps[..n][i] == ps[i] && v[..n][i] == v[i];
      }
    }
  }

  /** Data packets append what arrives to the open file. */
  lemma {:induction false} DataDelivered(s: Sink, ps: seq<Packet>, v: seq<bool>)
    requires |v| == |ps| && Bounded(ps) && forall i :: 0 <= i < |ps| ==> ps[i].index > 0
    requires s.open.Some? && s.open.value in s.store
    ensures Bounded(Deliver(ps, v)) && Orderly(s, Deliver(ps, v))
    ensures AcceptAll(s, Deliver(ps, v)) == Written(s, Payload(ps, v))
  {
    DeliverBounded(ps, v);
    if ps == [] {
      WrittenTwice(s, [], []);
    } else {
      var n := |ps| - 1;
      DataDelivered(s, ps[..n], v[..n]);
      OneMoreDelivered(s, Deliver(ps[..n], v[..n]), Payload(ps[..n], v[..n]), ps[n], v[n]);
    }
  }

  lemma OneMoreDelivered(s: Sink, got: seq<Packet>, data: seq<byte>, p: Packet, yes: bool)
    requires s.open.Some? && s.open.value in s.store && p.index > 0 && p.bufLen <= |p.buf|
    requires Bounded(got) && Orderly(s, got) && AcceptAll(s, got) == Written(s, data)
    ensures var more, bytes := got + (if yes then [p] else []), data + if yes then p.buf[..p.bufLen] else [];
      Bounded(more) && Orderly(s, more) && AcceptAll(s, more) == Written(s, bytes)
  {
    if yes {
      OrderlyOne(Written(s, data), p);
      OrderlyAppend(s, got, [p]);
      WrittenTwice(s, data, p.buf[..p.bufLen]);
    } else {
      assert got + [] == got && data + [] == data;
    }
  }

  // One file

  /** When nothing is lost the payload is the stripped file. */
  lemma WholePayload(rest: seq<byte>, index: nat, all: seq<bool>)
    requires index > 0 && all == All(|DataPackets(rest, index)|)
    ensures Payload(DataPackets(rest, index), all) == Strip(rest)
  {
    var ps, s := DataPackets(rest, index), Sink(map[[] := []], Some([]));
    DeliverAll(ps, all);
    DataDelivered(s, ps, all);
    DataArrives(s, rest, index);
    WrittenSame(s, Payload(ps, all), Strip(rest));
  }

  lemma WrittenSame(s: Sink, a: seq<byte>, b: seq<byte>)
    requires s.open == Some([]) && [] in s.store && s.store[[]] == [] && Written(s, a) == Written(s, b)
    ensures a == b
  {
    assert Written(s, a).store[[]] == [] + a == a && Written(s, b).store[[]] == [] + b == b;
  }

  lemma {:induction false} DeliverAll(ps: seq<Packet>, all: seq<bool>)
    requires all == All(|ps|)
    ensures Deliver(ps, all) == ps
  {
    if ps != [] {
      var n := |ps| - 1;
      assert all[..n] == All(n);
      DeliverAll(ps[..n], all[..n]);
    }
  }

  /** The packets of a file that arrive, by the verdicts on header, data and trailer. */
  function FileDelivered(name: Name, content: seq<byte>, h: bool, d: seq<bool>, t: bool): seq<Packet>
    requires FitsName(name) && |d| == |DataPackets(content, 1)|
  {
    Deliver(FileTrace(name, content), [h] + d + [t])
  }

  lemma FileParts(name: Name, content: seq<byte>, h: bool, d: seq<bool>, t: bool)
    requires FitsName(name) && |d| == |DataPackets(content, 1)|
    ensures FileDelivered(name, content, h, d, t)
         == (if h then [Header(name)] else []) + Deliver(DataPackets(content, 1), d) + (if t then [TRAILER] else [])
  {
    var data := DataPackets(content, 1);
    DeliverAppend([Header(name)] + data, [TRAILER], [h] + d, [t]);
    DeliverAppend([Header(name)], data, [h], d);
    DeliverOne(Header(name), h);
    DeliverOne(TRAILER, t);
  }

  /** A file whose header arrives, at a receiver with no file open, holds what arrives of
      its data, and is closed if its trailer arrives. */
  lemma HeaderArrived(s: Sink, name: Name, content: seq<byte>, d: seq<bool>, t: bool)
    requires FitsName(name) && |d| == |DataPackets(content, 1)| && s.open.None?
    ensures var ps := FileDelivered(name, content, true, d, t);
      && Bounded(ps) && Orderly(s, ps)
      && AcceptAll(s, ps) == Sink(s.store[name := Payload(DataPackets(content, 1), d)], if t then None else Some(name))
  {
    var data, header := DataPackets(content, 1), Header(name);
    FileParts(name, content, true, d, t);
    HeaderOpens(s, name);
    OrderlyOne(s, header);
    DataDelivered(Sink(s.store[name := []], Some(name)), data, d);
    OrderlyAppend(s, [header], Deliver(data, d));
    WrittenNew(s.store, name, Payload(data, d));
    Trailed(s, [header] + Deliver(data, d), Sink(s.store[name := Payload(data, d)], Some(name)), t);
  }

  lemma Trailed(s: Sink, ps: seq<Packet>, after: Sink, t: bool)
    requires Bounded(ps) && Orderly(s, ps) && AcceptAll(s, ps) == after && after.open.Some?
    ensures var all := ps + if t then [TRAILER] else [];
      Bounded(all) && Orderly(s, all) && AcceptAll(s, all) == if t then after.(open := None) else after
  {
    if t {
      OrderlyOne(after, TRAILER);
      OrderlyAppend(s, ps, [TRAILER]);
    } else {
      assert ps + [] == ps;
    }
  }

  /** The verdicts on one file lose nothing. */
  ghost predicate FileWhole(content: seq<byte>, h: bool, d: seq<bool>, t: bool)
    requires |d| == |DataPackets(content, 1)|
  {
    h && t && OnlySpare(DataPackets(content, 1), d)
  }

  /** One file arrives, and is closed, exactly if only empty data packets are refused. */
  lemma FileArrivesIff(s: Sink, name: Name, content: seq<byte>, d: seq<bool>, t: bool)
    requires FitsName(name) && |d| == |DataPackets(content, 1)| && s.open.None?
    ensures var ps := FileDelivered(name, content, true, d, t);
      Bounded(ps) && (AcceptAll(s, ps) == Sink(s.store[name := Strip(content)], None) <==> FileWhole(content, true, d, t))
  {
    var data := DataPackets(content, 1);
    HeaderArrived(s, name, content, d, t);
    WholePayload(content, 1, All(|data|));
    PayloadWholeIff(data, d, All(|data|));
    var got := s.store[name := Payload(data, d)];
    assert got[name] == Payload(data, d) && s.store[name := Strip(content)][name] == Strip(content);
  }

  // All files of a transfer

  lemma {:induction false} DeliverUnopened(ps: seq<Packet>, v: seq<bool>, name: Name)
    requires |v| == |ps| && Unopened(ps, name)
    ensures Unopened(Deliver(ps, v), name)
  {
    if ps != [] {
      var n := |ps| - 1;
      assert forall p :: p in ps[..n] ==> p in ps;
      assert ps[n] in ps;
      DeliverUnopened(ps[..n], v[..n], name);
    }
  }

  lemma FileUnopened(other: Name, content: seq<byte>, name: Name)
    requires FitsName(other) && other != name
    ensures Unopened(FileTrace(other, content), name)
  {
    PaddedText(other);
    UntilNulExact(other);
  }

  /** Without its header a file is not opened. */
  lemma HeaderLost(name: Name, content: seq<byte>, d: seq<bool>, t: bool)
    requires FitsName(name) && |d| == |DataPackets(content, 1)|
    ensures Unopened(FileDelivered(name, content, false, d, t), name)
  {
    var data := DataPackets(content, 1);
    FileParts(name, content, false, d, t);
    assert Unopened(data, name);
    DeliverUnopened(data, d, name);
  }

  lemma {:induction false} TraceUnopened(way: Direction, diff: seq<DiffEntry>, src: Store, name: Name)
    requires FitNames(diff) && forall i :: 0 <= i < |diff| ==> diff[i].name != name
    ensures Unopened(Trace(way, diff, src), name)
  {
    if diff != [] {
      var last := diff[|diff| - 1];
      TraceUnopened(way, diff[..|diff| - 1], src, name);
      if way.Takes(last.status) && last.name in src {
        FileUnopened(last.name, src[last.name], name);
      }
    }
  }

  /** What arrives of a transfer leaves the receiver with every selected file as it was
      sent, all other files as they were, and no file open. */
  ghost predicate ArrivesWhole(dst: Store, way: Direction, diff: seq<DiffEntry>, src: Store, ps: seq<Packet>) {
    && Bounded(ps) && Orderly(Sink(dst, None), ps)
    && AcceptAll(Sink(dst, None), ps) == Sink(Overridden(dst, src, Taken(way, diff, src)), None)
  }

  lemma OnlySpareSplit(ps: seq<Packet>, vf: seq<bool>, name: Name, content: seq<byte>, h: bool, d: seq<bool>, t: bool)
    requires FitsName(name) && |vf| == |ps| && |d| == |DataPackets(content, 1)|
    ensures OnlySpare(ps + FileTrace(name, content), vf + ([h] + d + [t])) <==> OnlySpare(ps, vf) && FileWhole(content, h, d, t)
  {
    SpareAppend(ps, FileTrace(name, content), vf, [h] + d + [t]);
    SpareAppend([Header(name)] + DataPackets(content, 1), [TRAILER], [h] + d, [t]);
    SpareAppend([Header(name)], DataPackets(content, 1), [h], d);
    OneSpare(Header(name), h);
    OneSpare(TRAILER, t);
  }

  lemma OneSpare(p: Packet, yes: bool)
    requires !Spare(p)
    ensures OnlySpare([p], [yes]) <==> yes
  {
    assert [p][0] == p && [yes][0] == yes;
  }

  lemma SpareAppend(ps: seq<Packet>, qs: seq<Packet>, v: seq<bool>, u: seq<bool>)
    requires |v| == |ps| && |u| == |qs|
    ensures OnlySpare(ps + qs, v + u) <==> OnlySpare(ps, v) && OnlySpare(qs, u)
  {
    if OnlySpare(ps + qs, v + u) {
      assert forall i :: 0 <= i < |ps| ==> (ps + qs)[i] == ps[i] && (v + u)[i] == v[i];
      assert forall i :: 0 <= i < |qs| ==> (ps + qs)[|ps| + i] == qs[i] && (v + u)[|ps| + i] == u[i];
    }
  }

  /** The verdicts on a file's packets, taken apart. */
  lemma FileVerdicts(name: Name, content: seq<byte>, u: seq<bool>)
    requires FitsName(name) && |u| == |FileTrace(name, content)|
    ensures |u| >= 2 && |u[1..|u| - 1]| == |DataPackets(content, 1)| && u == [u[0]] + u[1..|u| - 1] + [u[|u| - 1]]
  {
  }

  /** A store that got one more file is right exactly if it was right before. */
  lemma OneMoreRight(before: Store, dst: Store, src: Store, names: set<Name>, name: Name)
    requires names <= src.Keys && name in src && name !in names && SameFile(before, dst, name)
    ensures before[name := Strip(src[name])] == Overridden(dst, src, names + {name}) <==> before == Overridden(dst, src, names)
  {
    var whole := Overridden(dst, src, names);
    OverriddenOneMore(dst, src, names, name);
    if before[name := Strip(src[name])] == whole[name := Strip(src[name])] {
      assert forall n :: n in before <==> n in whole by {
        forall n
          ensures n in before <==> n in whole
        {
          assert n != name ==> (n in before[name := Strip(src[name])] <==> n in whole[name := Strip(src[name])]);
        }
      }
      forall n | n in before
        ensures before[n] == whole[n]
      {
        assert n != name ==> before[name := Strip(src[name])][n] == whole[name := Strip(src[name])][n];
      }
    }
  }

  /** The last file of a transfer: `got` are the packets before it. */
  lemma LastFileIff(dst: Store, src: Store, got: seq<Packet>, names: set<Name>, name: Name, h: bool, d: seq<bool>,
      t: bool)
    requires FitsName(name) && name in src && |d| == |DataPackets(src[name], 1)|
    requires names <= src.Keys && name !in names && Bounded(got) && Unopened(got, name)
    requires h || !(name in dst && dst[name] == Strip(src[name]))
    ensures var ps := FileDelivered(name, src[name], h, d, t);
      && Bounded(got + ps)
      && (Orderly(Sink(dst, None), got + ps)
          && AcceptAll(Sink(dst, None), got + ps) == Sink(Overridden(dst, src, names + {name}), None)
          <==>
          Orderly(Sink(dst, None), got) && AcceptAll(Sink(dst, None), got) == Sink(Overridden(dst, src, names), None)
          && FileWhole(src[name], h, d, t))
  {
    var start, ps := Sink(dst, None), FileDelivered(name, src[name], h, d, t);
    var before := AcceptAll(start, got);
    UnopenedStays(start, got, name);
    FileBounded(name, src[name], h, d, t);
    OrderlyAppend(start, got, ps);
    if h {
      HeaderOrderly(before, name, src[name], d, t);
      if before.open.None? {
        HeaderArrived(before, name, src[name], d, t);
        FileArrivesIff(before, name, src[name], d, t);
        LastRight(before.store, dst, src, names, name, Payload(DataPackets(src[name], 1), d));
      }
    } else {
      HeaderLost(name, src[name], d, t);
      UnopenedStays(before, ps, name);
      assert Overridden(dst, src, names + {name})[name] == Strip(src[name]);
    }
  }

  lemma LastRight(before: Store, dst: Store, src: Store, names: set<Name>, name: Name, data: seq<byte>)
    requires names <= src.Keys && name in src && name !in names && SameFile(before, dst, name)
    ensures before[name := data] == Overridden(dst, src, names + {name})
       <==> data == Strip(src[name]) && before == Overridden(dst, src, names)
  {
    OneMoreRight(before, dst, src, names, name);
    assert before[name := data][name] == data && Overridden(dst, src, names + {name})[name] == Strip(src[name]);
  }

  lemma FileBounded(name: Name, content: seq<byte>, h: bool, d: seq<bool>, t: bool)
    requires FitsName(name) && |d| == |DataPackets(content, 1)|
    ensures Bounded(FileDelivered(name, content, h, d, t))
  {
    DeliverBounded(FileTrace(name, content), [h] + d + [t]);
  }

  /** A header that arrives while a file is open breaks the order. */
  lemma HeaderOrderly(s: Sink, name: Name, content: seq<byte>, d: seq<bool>, t: bool)
    requires FitsName(name) && |d| == |DataPackets(content, 1)|
    ensures Bounded(FileDelivered(name, content, true, d, t))
    ensures Orderly(s, FileDelivered(name, content, true, d, t)) ==> s.open.None?
  {
    var rest := Deliver(DataPackets(content, 1), d) + if t then [TRAILER] else [];
    FileBounded(name, content, true, d, t);
    FileParts(name, content, true, d, t);
    DeliverBounded(DataPackets(content, 1), d);
    assert FileDelivered(name, content, true, d, t) == [Header(name)] + rest;
    OrderlyAppend(s, [Header(name)], rest);
    OrderlyOne(s, Header(name));
  }

  /** Every selected file is new to the receiver or differs from what it has; so it can be
      told whether it arrived. */
  ghost predicate AllNeeded(dst: Store, src: Store, names: set<Name>)
    requires names <= src.Keys
  {
    forall n :: n in names ==> !(n in dst && dst[n] == Strip(src[n]))
  }

  /** A transfer arrives whole exactly if only empty data packets are refused. */
  ghost predicate ToldBySpare(dst: Store, src: Store, way: Direction, diff: seq<DiffEntry>, v: seq<bool>)
    requires FitNames(diff) && |v| == |Trace(way, diff, src)|
  {
    ArrivesWhole(dst, way, diff, src, Deliver(Trace(way, diff, src), v)) <==> OnlySpare(Trace(way, diff, src), v)
  }

  /** Which refusals a transfer survives: when every selected file differs from what the
      receiver has, all of them arrive whole exactly if SCTP refuses nothing but data
      packets that carry nothing; and those it survives in any case. */
  lemma {:induction false} LossyTransferIff(dst: Store, src: Store, way: Direction, diff: seq<DiffEntry>, v: seq<bool>)
    requires FitNames(diff) && ListedOnce(diff) && |v| == |Trace(way, diff, src)|
    requires AllNeeded(dst, src, Taken(way, diff, src)) || OnlySpare(Trace(way, diff, src), v)
    ensures ToldBySpare(dst, src, way, diff, v)
  {
    if diff == [] {
      assert Overridden(dst, src, {}) == dst;
    } else {
      var front, last := diff[..|diff| - 1], diff[|diff| - 1];
      assert front + [last] == diff;
      NewInList(front, last);
      if way.Takes(last.status) && last.name in src {
        var m := |Trace(way, front, src)|;
        Halves(v, m);
        NeededBefore(dst, src, way, front, last, v[..m], v[m..]);
        LossyTransferIff(dst, src, way, front, v[..m]);
        LastOfTransfer(dst, src, way, front, last, v[..m], v[m..]);
      } else {
        SkippedLast(dst, src, way, front, last, v);
        LossyTransferIff(dst, src, way, front, v);
      }
    }
  }

  lemma Halves(v: seq<bool>, m: nat)
    requires m <= |v|
    ensures v[..m] + v[m..] == v && |v[..m]| == m
  {
  }

  lemma NeededBefore(dst: Store, src: Store, way: Direction, front: seq<DiffEntry>, last: DiffEntry, v: seq<bool>,
      u: seq<bool>)
    requires FitNames(front + [last]) && way.Takes(last.status) && last.name in src
    requires |v + u| == |Trace(way, front + [last], src)| && FitNames(front) && |v| == |Trace(way, front, src)|
    requires AllNeeded(dst, src, Taken(way, front + [last], src)) || OnlySpare(Trace(way, front + [last], src), v + u)
    ensures Trace(way, front + [last], src) == Trace(way, front, src) + FileTrace(last.name, src[last.name])
    ensures AllNeeded(dst, src, Taken(way, front, src)) || OnlySpare(Trace(way, front, src), v)
    ensures u[0] || !(last.name in dst && dst[last.name] == Strip(src[last.name]))
  {
    TakenTrace(way, front, last, src);
    TakenAppend(way, front, last, src);
    HeaderNeeded(Trace(way, front, src), last.name, src[last.name], v, u);
  }

  lemma SkippedLast(dst: Store, src: Store, way: Direction, front: seq<DiffEntry>, last: DiffEntry, v: seq<bool>)
    requires FitNames(front + [last]) && !(way.Takes(last.status) && last.name in src)
    requires |v| == |Trace(way, front + [last], src)|
    ensures FitNames(front) && Trace(way, front + [last], src) == Trace(way, front, src)
    ensures Taken(way, front + [last], src) == Taken(way, front, src)
  {
    var all := front + [last];
    assert all[|front|] == last && all[..|front|] == front;
    assert forall i :: 0 <= i < |front| ==> front[i] == all[i];
    TakenAppend(way, front, last, src);
  }

  lemma TakenTrace(way: Direction, front: seq<DiffEntry>, last: DiffEntry, src: Store)
    requires FitNames(front + [last]) && way.Takes(last.status) && last.name in src
    ensures FitNames(front) && FitsName(last.name)
    ensures Trace(way, front + [last], src) == Trace(way, front, src) + FileTrace(last.name, src[last.name])
  {
    var all := front + [last];
    assert all[|front|] == last && all[..|front|] == front;
    assert forall i :: 0 <= i < |front| ==> front[i] == all[i];
  }

  lemma HeaderNeeded(ps: seq<Packet>, name: Name, content: seq<byte>, v: seq<bool>, u: seq<bool>)
    requires FitsName(name) && |v| == |ps| && |u| == |FileTrace(name, content)|
    ensures OnlySpare(ps + FileTrace(name, content), v + u) ==> OnlySpare(ps, v) && u[0]
  {
    SpareAppend(ps, FileTrace(name, content), v, u);
    assert !Spare(FileTrace(name, content)[0]);
  }

  lemma LastOfTransfer(dst: Store, src: Store, way: Direction, front: seq<DiffEntry>, last: DiffEntry,
      v: seq<bool>, u: seq<bool>)
    requires FitNames(front) && FitsName(last.name) && last.name in src && way.Takes(last.status)
    requires ListedOnce(front + [last]) && |v| == |Trace(way, front, src)| && |u| == |FileTrace(last.name, src[last.name])|
    requires u[0] || !(last.name in dst && dst[last.name] == Strip(src[last.name]))
    requires ToldBySpare(dst, src, way, front, v)
    ensures FitNames(front + [last]) && |v + u| == |Trace(way, front + [last], src)|
    ensures ToldBySpare(dst, src, way, front + [last], v + u)
  {
    var ps, qs := Trace(way, front, src), FileTrace(last.name, src[last.name]);
    assert FitNames(front + [last]);
    var h, d, t := u[0], u[1..|u| - 1], u[|u| - 1];
    FileVerdicts(last.name, src[last.name], u);
    TakenTrace(way, front, last, src);
    DeliverAppend(ps, qs, v, u);
    SpareAppend(ps, qs, v, u);
    OnlySpareSplit([], [], last.name, src[last.name], h, d, t);
    assert [] + qs == qs && [] + u == u;
    TakenAppend(way, front, last, src);
    NewInList(front, last);
    TraceUnopened(way, front, src, last.name);
    DeliverUnopened(ps, v, last.name);
    TransferExact(dst, src, way, front);
    DeliverBounded(ps, v);
    LastFileIff(dst, src, Deliver(ps, v), Taken(way, front, src), last.name, h, d, t);
  }

  lemma NewInList(front: seq<DiffEntry>, last: DiffEntry)
    requires ListedOnce(front + [last])
    ensures ListedOnce(front) && forall i :: 0 <= i < |front| ==> front[i].name != last.name
  {
    var all := front + [last];
    assert forall i :: 0 <= i < |front| ==> all[i] == front[i];
    assert all[|front|] == last;
  }

  ghost predicate AlwaysArrives(src: Store, way: Direction, diff: seq<DiffEntry>, ps: seq<Packet>) {
    forall dst: Store :: ArrivesWhole(dst, way, diff, src, ps)
  }

  /** So the refusals that do no harm whatever the receiver had are just those. */
  lemma HarmlessRefusalsIff(src: Store, way: Direction, diff: seq<DiffEntry>, v: seq<bool>)
    requires FitNames(diff) && ListedOnce(diff) && |v| == |Trace(way, diff, src)|
    ensures AlwaysArrives(src, way, diff, Deliver(Trace(way, diff, src), v)) <==> OnlySpare(Trace(way, diff, src), v)
  {
    var only := OnlySpare(Trace(way, diff, src), v);
    var nothing: Store := map[];
    forall dst: Store | dst == nothing || only
      ensures ArrivesWhole(dst, way, diff, src, Deliver(Trace(way, diff, src), v)) <==> only
    {
      LossyTransferIff(dst, src, way, diff, v);
    }
    assert ArrivesWhole(nothing, way, diff, src, Deliver(Trace(way, diff, src), v)) <==> only;
  }
}
