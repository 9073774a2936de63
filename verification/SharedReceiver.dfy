/** Two transfers into one receiver: its file pointer is a static variable, so all
    uploads to a file server share it. */
module SharedReceiver {
  import opened Bytes
  import opened Checksums
  import opened Transfer
  import opened Reassembly
  import opened Losses

  /** A packet of the first or of the second transfer, in the order of arrival. */
  datatype Event = Event(first: bool, packet: Packet)

  function Packets(es: seq<Event>): seq<Packet> {
    if es == [] then [] else Packets(es[..|es| - 1]) + [es[|es| - 1].packet]
  }

  /** The packets of one of the transfers. */
  function Part(es: seq<Event>, first: bool): seq<Packet> {
    if es == [] then []
    else Part(es[..|es| - 1], first) + if es[|es| - 1].first == first then [es[|es| - 1].packet] else []
  }

  ghost predicate EventsBounded(es: seq<Event>) {
    forall i :: 0 <= i < |es| ==> es[i].packet.bufLen <= |es[i].packet.buf|
  }

  lemma {:induction false} PartsBounded(es: seq<Event>)
    requires EventsBounded(es)
    ensures Bounded(Packets(es)) && Bounded(Part(es, true)) && Bounded(Part(es, false))
  {
    if es != [] {
      PartsBounded(es[..|es| - 1]);
    }
  }

  /** Where a receiver would be that got only one of the transfers. */
  ghost function Alone(dst: Store, es: seq<Event>, first: bool): Sink
    requires EventsBounded(es)
  {
    PartsBounded(es);
    AcceptAll(Sink(dst, None), Part(es, first))
  }

  ghost function Shared(dst: Store, es: seq<Event>): Sink
    requires EventsBounded(es)
  {
    PartsBounded(es);
    AcceptAll(Sink(dst, None), Packets(es))
  }

  /** The transfer is between a header and its trailer. */
  ghost predicate Within(dst: Store, es: seq<Event>, first: bool)
    requires EventsBounded(es)
  {
    Alone(dst, es, first).open.Some?
  }

  /** No header of one transfer arrives within a file of the other. */
  ghost predicate NeverOverlap(dst: Store, es: seq<Event>)
    requires EventsBounded(es)
  {
    es == []
    || (var front, last := es[..|es| - 1], es[|es| - 1];
        && NeverOverlap(dst, front)
        && (last.packet.index == 0 ==> !Within(dst, front, !last.first)))
  }

  ghost predicate BothOrderly(dst: Store, es: seq<Event>)
    requires EventsBounded(es)
  {
    PartsBounded(es);
    Orderly(Sink(dst, None), Part(es, true)) && Orderly(Sink(dst, None), Part(es, false))
  }

  ghost function Count(dst: Store, es: seq<Event>): nat
    requires EventsBounded(es)
  {
    (if Within(dst, es, true) then 1 else 0) + if Within(dst, es, false) then 1 else 0
  }

  ghost function OpenCount(dst: Store, es: seq<Event>): nat
    requires EventsBounded(es)
  {
    if Shared(dst, es).open.Some? then 1 else 0
  }

  ghost predicate SharedPlayable(dst: Store, es: seq<Event>)
    requires EventsBounded(es)
  {
    PartsBounded(es);
    Playable(Sink(dst, None), Packets(es))
  }

  /** One more packet. */
  lemma OneMore(dst: Store, front: seq<Event>, last: Event, es: seq<Event>)
    requires EventsBounded(es) && es == front + [last]
    ensures EventsBounded(front) && last.packet.bufLen <= |last.packet.buf| && es[..|es| - 1] == front
    ensures Shared(dst, es) == Accept(Shared(dst, front), last.packet)
    ensures Alone(dst, es, last.first) == Accept(Alone(dst, front, last.first), last.packet)
    ensures Alone(dst, es, !last.first) == Alone(dst, front, !last.first)
    ensures BothOrderly(dst, es) ==> BothOrderly(dst, front) && (last.packet.index == 0 <==> !Within(dst, front, last.first))
    ensures SharedPlayable(dst, es) <==>
      (SharedPlayable(dst, front) && (last.packet.index > 0 || last.packet.index == -1 ==> Shared(dst, front).open.Some?))
  {
    assert es[|front|] == last && es[..|front|] == front;
    forall i | 0 <= i < |front|
      ensures front[i].packet.bufLen <= |front[i].packet.buf|
    {
      assert front[i] == es[i];
    }
    PartsBounded(front);
    PartsBounded(es);
    assert Part(es, !last.first) == Part(front, !last.first);
  }

  // When the shared file pointer is used properly

  /** As many files are open as transfers are within one, just when none overlapped;
      otherwise one is missing, and stays so. */
  ghost predicate Counted(dst: Store, es: seq<Event>)
    requires EventsBounded(es)
  {
    && (NeverOverlap(dst, es) ==> SharedPlayable(dst, es) && OpenCount(dst, es) == Count(dst, es))
    && (SharedPlayable(dst, es) && !NeverOverlap(dst, es) ==> OpenCount(dst, es) < Count(dst, es))
  }

  lemma CountStep(dst: Store, front: seq<Event>, last: Event, es: seq<Event>)
    requires EventsBounded(es) && es == front + [last] && EventsBounded(front)
    requires BothOrderly(dst, es) && Counted(dst, front)
    ensures Counted(dst, es)
  {
    OneMore(dst, front, last, es);
    OpenAfter(Shared(dst, front), last.packet);
    OpenAfter(Alone(dst, front, last.first), last.packet);
    CountCases(last.packet.index, Shared(dst, front).open.Some?, Within(dst, front, last.first),
               Within(dst, front, !last.first), NeverOverlap(dst, front), SharedPlayable(dst, front));
    assert NeverOverlap(dst, es) <==>
           NeverOverlap(dst, front) && (last.packet.index == 0 ==> !Within(dst, front, !last.first));
  }

  predicate OpenNext(index: int, open: bool) {
    index == 0 || (index != -1 && open)
  }

  lemma OpenAfter(s: Sink, p: Packet)
    requires p.bufLen <= |p.buf|
    ensures Accept(s, p).open.Some? <==> OpenNext(p.index, s.open.Some?)
  {
  }

  predicate CountedBy(open: bool, own: bool, other: bool, apart: bool, playable: bool) {
    var within, files := (if own then 1 else 0) + (if other then 1 else 0), if open then 1 else 0;
    (apart ==> playable && files == within) && (playable && !apart ==> files < within)
  }

  lemma CountCases(index: int, open: bool, own: bool, other: bool, apart: bool, playable: bool)
    requires CountedBy(open, own, other, apart, playable) && (index == 0 <==> !own)
    ensures CountedBy(OpenNext(index, open), OpenNext(index, own), other, apart && (index == 0 ==> !other),
                      playable && (index > 0 || index == -1 ==> open))
  {
  }

  lemma {:induction false} AlwaysCounted(dst: Store, es: seq<Event>)
    requires EventsBounded(es) && BothOrderly(dst, es)
    ensures Counted(dst, es)
  {
    if es != [] {
      var front, last := es[..|es| - 1], es[|es| - 1];
      assert es == front + [last];
      OneMore(dst, front, last, es);
      AlwaysCounted(dst, front);
      CountStep(dst, front, last, es);
    }
  }

  /** Two whole transfers never make the receiver use a file that is not open exactly if
      no header of one arrives within a file of the other. */
  lemma SharedPlayableIff(dst: Store, es: seq<Event>)
    requires EventsBounded(es) && BothOrderly(dst, es) && !Within(dst, es, true) && !Within(dst, es, false)
    ensures SharedPlayable(dst, es) <==> NeverOverlap(dst, es)
  {
    AlwaysCounted(dst, es);
  }

  // What arrives then

  /** The receiver's files are those of the transfer that may open them, and the open one
      is that of the transfer within a file. */
  ghost predicate Merged(dst: Store, es: seq<Event>, names: set<Name>, others: set<Name>)
    requires EventsBounded(es)
  {
    MergedSinks(Shared(dst, es), Alone(dst, es, true), Alone(dst, es, false), names, others)
  }

  /** The transfer opens only files with these names. */
  ghost predicate OpensOnly(ps: seq<Packet>, names: set<Name>) {
    forall p :: p in ps && p.index == 0 ==> UntilNul(p.buf) in names
  }

  lemma {:induction false} AlwaysMerged(dst: Store, es: seq<Event>, names: set<Name>, others: set<Name>)
    requires EventsBounded(es) && BothOrderly(dst, es) && NeverOverlap(dst, es) && names !! others
    requires OpensOnly(Part(es, true), names) && OpensOnly(Part(es, false), others)
    ensures Merged(dst, es, names, others)
  {
    if es != [] {
      var front, last := es[..|es| - 1], es[|es| - 1];
      assert es == front + [last];
      OneMore(dst, front, last, es);
      assert forall p :: p in Part(front, true) ==> p in Part(es, true);
      assert forall p :: p in Part(front, false) ==> p in Part(es, false);
      assert last.packet in Part(es, last.first);
      AlwaysMerged(dst, front, names, others);
      MergeStep(dst, front, last, es, names, others);
    }
  }

  lemma MergeStep(dst: Store, front: seq<Event>, last: Event, es: seq<Event>, names: set<Name>, others: set<Name>)
    requires EventsBounded(es) && es == front + [last] && EventsBounded(front) && BothOrderly(dst, es)
    requires last.packet.index == 0 ==> !Within(dst, front, !last.first)
    requires Merged(dst, front, names, others) && names !! others
    requires last.packet.index == 0 ==> UntilNul(last.packet.buf) in if last.first then names else others
    ensures Merged(dst, es, names, others)
  {
    OneMore(dst, front, last, es);
    var s, a, b := Shared(dst, front), Alone(dst, front, true), Alone(dst, front, false);
    AcceptMerged(s, a, b, last.packet, last.first, names, others);
  }

  ghost predicate MergedSinks(s: Sink, a: Sink, b: Sink, names: set<Name>, others: set<Name>) {
    && (forall n :: n !in others ==> SameFile(s.store, a.store, n))
    && (forall n :: n !in names ==> SameFile(s.store, b.store, n))
    && s.open == (if a.open.Some? then a.open else b.open)
    && !(a.open.Some? && b.open.Some?)
    && (a.open.Some? ==> a.open.value in names) && (b.open.Some? ==> b.open.value in others)
  }

  lemma AcceptMerged(s: Sink, a: Sink, b: Sink, p: Packet, first: bool, names: set<Name>, others: set<Name>)
    requires MergedSinks(s, a, b, names, others) && names !! others && p.bufLen <= |p.buf|
    requires p.index == 0 <==> (if first then a else b).open.None?
    requires p.index == 0 ==> (if first then b else a).open.None?
    requires p.index == 0 ==> UntilNul(p.buf) in if first then names else others
    ensures MergedSinks(Accept(s, p), if first then Accept(a, p) else a, if first then b else Accept(b, p), names, others)
  {
  }

  // Two transfers of any files

  lemma FileOrderly(s: Sink, name: Name, content: seq<byte>)
    requires FitsName(name) && s.open.None?
    ensures Bounded(FileTrace(name, content)) && Orderly(s, FileTrace(name, content))
  {
    var n := |DataPackets(content, 1)|;
    HeaderArrived(s, name, content, All(n), true);
    assert [true] + All(n) + [true] == All(|FileTrace(name, content)|);
    DeliverAll(FileTrace(name, content), All(|FileTrace(name, content)|));
  }

  lemma {:induction false} TraceOrderly(dst: Store, src: Store, way: Direction, diff: seq<DiffEntry>)
    requires FitNames(diff)
    ensures Bounded(Trace(way, diff, src)) && Orderly(Sink(dst, None), Trace(way, diff, src))
  {
    TransferExact(dst, src, way, diff);
    if diff != [] {
      var front, last := diff[..|diff| - 1], diff[|diff| - 1];
      TraceOrderly(dst, src, way, front);
      TransferExact(dst, src, way, front);
      if way.Takes(last.status) && last.name in src {
        var s := AcceptAll(Sink(dst, None), Trace(way, front, src));
        FileOrderly(s, last.name, src[last.name]);
        OrderlyAppend(Sink(dst, None), Trace(way, front, src), FileTrace(last.name, src[last.name]));
      } else {
        assert Trace(way, diff, src) == Trace(way, front, src);
      }
    }
  }

  lemma {:induction false} TraceOpens(way: Direction, diff: seq<DiffEntry>, src: Store)
    requires FitNames(diff)
    ensures OpensOnly(Trace(way, diff, src), Taken(way, diff, src))
  {
    if diff != [] {
      var front, last := diff[..|diff| - 1], diff[|diff| - 1];
      assert front + [last] == diff;
      TraceOpens(way, front, src);
      TakenAppend(way, front, last, src);
      if way.Takes(last.status) && last.name in src {
        PaddedText(last.name);
        UntilNulExact(last.name);
      }
    }
  }

  lemma {:induction false} PartsTell(es: seq<Event>)
    requires Bounded(Part(es, true)) && Bounded(Part(es, false))
    ensures EventsBounded(es)
  {
    if es != [] {
      var front, last := es[..|es| - 1], es[|es| - 1];
      assert Part(es, last.first) == Part(front, last.first) + [last.packet];
      assert forall first: bool :: Bounded(Part(es, first)) ==> Bounded(Part(front, first)) by {
        forall first: bool | Bounded(Part(es, first))
          ensures Bounded(Part(front, first))
        {
          assert forall i :: 0 <= i < |Part(front, first)| ==> Part(es, first)[i] == Part(front, first)[i];
        }
      }
      assert Part(es, last.first)[|Part(front, last.first)|] == last.packet;
      PartsTell(front);
    }
  }

  /** A transfer: which files of `src` a diff list makes it send. */
  datatype Job = Job(way: Direction, diff: seq<DiffEntry>, src: Store)

  /** The packets of the two transfers arrive in the order `es`. */
  ghost predicate Interleaves(es: seq<Event>, t: Job, u: Job)
    requires FitNames(t.diff) && FitNames(u.diff)
  {
    Part(es, true) == Trace(t.way, t.diff, t.src) && Part(es, false) == Trace(u.way, u.diff, u.src)
  }

  lemma InterleavedOrderly(dst: Store, t: Job, u: Job, es: seq<Event>)
    requires FitNames(t.diff) && FitNames(u.diff) && Interleaves(es, t, u)
    ensures EventsBounded(es) && BothOrderly(dst, es)
    ensures Alone(dst, es, true) == Sink(Overridden(dst, t.src, Taken(t.way, t.diff, t.src)), None)
    ensures Alone(dst, es, false) == Sink(Overridden(dst, u.src, Taken(u.way, u.diff, u.src)), None)
  {
    TraceOrderly(dst, t.src, t.way, t.diff);
    TraceOrderly(dst, u.src, u.way, u.diff);
    TransferExact(dst, t.src, t.way, t.diff);
    TransferExact(dst, u.src, u.way, u.diff);
    PartsTell(es);
  }

  /** The receiver used its file pointer properly, and ends with all files of both
      transfers, all others as they were, and none open. */
  ghost predicate BothArrive(dst: Store, t: Job, u: Job, es: seq<Event>)
    requires EventsBounded(es)
  {
    && SharedPlayable(dst, es)
    && Shared(dst, es) == Sink(Overridden(Overridden(dst, t.src, Taken(t.way, t.diff, t.src)),
                                          u.src, Taken(u.way, u.diff, u.src)), None)
  }

  /** Two transfers of different files to one receiver both arrive exactly if no header of
      one comes between a header and its trailer of the other. */
  lemma TwoTransfersIff(dst: Store, t: Job, u: Job, es: seq<Event>)
    requires FitNames(t.diff) && FitNames(u.diff) && Interleaves(es, t, u)
    requires Taken(t.way, t.diff, t.src) !! Taken(u.way, u.diff, u.src)
    ensures EventsBounded(es) && (BothArrive(dst, t, u, es) <==> NeverOverlap(dst, es))
  {
    InterleavedOrderly(dst, t, u, es);
    SharedPlayableIff(dst, es);
    if NeverOverlap(dst, es) {
      var names, others := Taken(t.way, t.diff, t.src), Taken(u.way, u.diff, u.src);
      TraceOpens(t.way, t.diff, t.src);
      TraceOpens(u.way, u.diff, u.src);
      AlwaysMerged(dst, es, names, others);
      MergedStore(dst, t.src, u.src, names, others, Shared(dst, es).store);
    }
  }

  lemma MergedStore(dst: Store, src: Store, src': Store, names: set<Name>, others: set<Name>, got: Store)
    requires names <= src.Keys && others <= src'.Keys && names !! others
    requires forall n :: n !in others ==> SameFile(got, Overridden(dst, src, names), n)
    requires forall n :: n !in names ==> SameFile(got, Overridden(dst, src', others), n)
    ensures got == Overridden(Overridden(dst, src, names), src', others)
  {
    var whole := Overridden(Overridden(dst, src, names), src', others);
    forall n
      ensures SameFile(got, whole, n)
    {
      assert SameFile(got, if n in others then Overridden(dst, src', others) else Overridden(dst, src, names), n);
    }
    assert forall n :: n in got <==> n in whole;
  }
}
