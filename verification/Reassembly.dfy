/** What a receiver holds after a whole transfer. */
module Reassembly {
  import opened Bytes
  import opened Checksums
  import opened Transfer

  /** What survives of a file: `strlen` cuts every chunk at its first NUL. */
  function Strip(s: seq<byte>): (r: seq<byte>)
    ensures |r| <= |s| && NulFree(r)
    decreases |s|
  {
    if s == [] then [] else UntilNul(s[..ChunkSize(s)]) + Strip(s[ChunkSize(s)..])
  }

  /** A file survives exactly if it contains no NUL. */
  lemma {:induction false} StripExact(s: seq<byte>)
    ensures Strip(s) == s <==> NulFree(s)
    ensures |Strip(s)| == |s| <==> NulFree(s)
    decreases |s|
  {
    if s != [] {
      var n := ChunkSize(s);
      UntilNulExact(s[..n]);
      StripExact(s[n..]);
      assert s == s[..n] + s[n..];
    }
  }

  lemma AcceptAppend(s: Sink, ps: seq<Packet>, qs: seq<Packet>)
    requires Bounded(ps) && Bounded(qs)
    ensures Bounded(ps + qs)
    ensures AcceptAll(s, ps + qs) == AcceptAll(AcceptAll(s, ps), qs)
    ensures Playable(s, ps) && Playable(AcceptAll(s, ps), qs) ==> Playable(s, ps + qs)
    decreases |qs|
  {
    if qs == [] {
      assert ps + qs == ps;
    } else {
      var front := qs[..|qs| - 1];
      AcceptAppend(s, ps, front);
      assert (ps + qs)[..|ps + qs| - 1] == ps + front;
    }
  }

  lemma AcceptOne(s: Sink, p: Packet)
    requires p.bufLen <= |p.buf|
    ensures Bounded([p]) && AcceptAll(s, [p]) == Accept(s, p)
    ensures Playable(s, [p]) <==> (p.index > 0 || p.index == -1 ==> s.open.Some?)
  {
    assert [p][..0] == [];
  }

  lemma ChunkArrives(s: Sink, index: nat, chunk: seq<byte>)
    requires index > 0 && s.open.Some? && s.open.value in s.store && |chunk| <= MAX_CHUNK
    ensures var p := DataPacket(index, chunk);
      p.bufLen <= |p.buf| && Accept(s, p) == Written(s, UntilNul(chunk))
  {
    PaddedText(chunk);
  }

  /** `s` after some bytes were written to its open file. */
  function Written(s: Sink, data: seq<byte>): Sink
    requires s.open.Some? && s.open.value in s.store
  {
    s.(store := s.store[s.open.value := s.store[s.open.value] + data])
  }

  lemma WrittenTwice(s: Sink, first: seq<byte>, second: seq<byte>)
    requires s.open.Some? && s.open.value in s.store
    ensures Written(Written(s, first), second) == Written(s, first + second)
    ensures Written(s, []) == s
  {
    var old_ := s.store[s.open.value];
    assert (old_ + first) + second == old_ + (first + second);
    assert old_ + [] == old_;
  }

  /** The data packets of a file append its stripped content to the open file. */
  lemma {:induction false} DataArrives(s: Sink, rest: seq<byte>, index: nat)
    requires index > 0 && s.open.Some? && s.open.value in s.store
    ensures Bounded(DataPackets(rest, index)) && Playable(s, DataPackets(rest, index))
    ensures AcceptAll(s, DataPackets(rest, index)) == Written(s, Strip(rest))
    decreases |rest|
  {
    if rest == [] {
      WrittenTwice(s, [], []);
    } else {
      var n := ChunkSize(rest);
      var p, more := DataPacket(index, rest[..n]), DataPackets(rest[n..], index + 1);
      ChunkArrives(s, index, rest[..n]);
      AcceptOne(s, p);
      DataArrives(Accept(s, p), rest[n..], index + 1);
      AcceptAppend(s, [p], more);
      WrittenTwice(s, UntilNul(rest[..n]), Strip(rest[n..]));
    }
  }

  lemma HeaderOpens(s: Sink, name: Name)
    requires FitsName(name)
    ensures var ps := [Header(name)];
      Bounded(ps) && Playable(s, ps) && AcceptAll(s, ps) == Sink(s.store[name := []], Some(name))
  {
    PaddedText(name);
    UntilNulExact(name);
    AcceptOne(s, Header(name));
  }

  lemma WrittenNew(store: Store, name: Name, content: seq<byte>)
    ensures Written(Sink(store[name := []], Some(name)), content) == Sink(store[name := content], Some(name))
  {
    assert [] + content == content;
    assert store[name := []][name := content] == store[name := content];
  }

  /** A header and its data packets leave the file open with the stripped content. */
  lemma DataFollows(s: Sink, name: Name, content: seq<byte>)
    requires FitsName(name)
    ensures var ps := [Header(name)] + DataPackets(content, 1);
      && Bounded(ps) && Playable(s, ps) && AcceptAll(s, ps) == Sink(s.store[name := Strip(content)], Some(name))
  {
    HeaderOpens(s, name);
    DataArrives(Sink(s.store[name := []], Some(name)), content, 1);
    AcceptAppend(s, [Header(name)], DataPackets(content, 1));
    WrittenNew(s.store, name, Strip(content));
  }

  /** One file, whatever the receiver had under its name. */
  lemma FileArrives(s: Sink, name: Name, content: seq<byte>)
    requires FitsName(name)
    ensures Bounded(FileTrace(name, content)) && Playable(s, FileTrace(name, content))
    ensures AcceptAll(s, FileTrace(name, content)) == Sink(s.store[name := Strip(content)], None)
  {
    DataFollows(s, name, content);
    TrailerCloses(s, [Header(name)] + DataPackets(content, 1), Sink(s.store[name := Strip(content)], Some(name)));
  }

  lemma TrailerCloses(s: Sink, ps: seq<Packet>, after: Sink)
    requires Bounded(ps) && Playable(s, ps) && AcceptAll(s, ps) == after && after.open.Some?
    ensures Bounded(ps + [TRAILER]) && Playable(s, ps + [TRAILER])
    ensures AcceptAll(s, ps + [TRAILER]) == after.(open := None)
  {
    AcceptOne(after, TRAILER);
    AcceptAppend(s, ps, [TRAILER]);
  }

  /** The files that a sender takes from a diff list. */
  function Taken(way: Direction, diff: seq<DiffEntry>, src: Store): set<Name> {
    set i | 0 <= i < |diff| && way.Takes(diff[i].status) && diff[i].name in src :: diff[i].name
  }

  /** A repository after it received the files `names` of `src`. */
  function Overridden(dst: Store, src: Store, names: set<Name>): Store
    requires names <= src.Keys
  {
    map n | n in dst.Keys + names :: if n in names then Strip(src[n]) else dst[n]
  }

  lemma TakenAppend(way: Direction, diff: seq<DiffEntry>, last: DiffEntry, src: Store)
    ensures Taken(way, diff + [last], src)
         == Taken(way, diff, src) + if way.Takes(last.status) && last.name in src then {last.name} else {}
  {
    var more := diff + [last];
    assert more[|diff|] == last;
    assert forall i :: 0 <= i < |diff| ==> more[i] == diff[i];
  }

  lemma OverriddenOneMore(dst: Store, src: Store, names: set<Name>, name: Name)
    requires names <= src.Keys && name in src
    ensures Overridden(dst, src, names)[name := Strip(src[name])] == Overridden(dst, src, names + {name})
  {
  }

  /** A transfer leaves the old repository overridden by exactly the selected files
      that open, each with its stripped content, and no file open. */
  lemma {:induction false} TransferExact(dst: Store, src: Store, way: Direction, diff: seq<DiffEntry>)
    requires FitNames(diff)
    ensures var ps := Trace(way, diff, src);
      && Bounded(ps) && Playable(Sink(dst, None), ps)
      && AcceptAll(Sink(dst, None), ps) == Sink(Overridden(dst, src, Taken(way, diff, src)), None)
  {
    if diff == [] {
      assert Overridden(dst, src, {}) == dst;
    } else {
      var front, last := diff[..|diff| - 1], diff[|diff| - 1];
      assert front + [last] == diff;
      TransferExact(dst, src, way, front);
      TakenAppend(way, front, last, src);
      if way.Takes(last.status) && last.name in src {
        var before := Trace(way, front, src);
        var s := AcceptAll(Sink(dst, None), before);
        FileArrives(s, last.name, src[last.name]);
        AcceptAppend(Sink(dst, None), before, FileTrace(last.name, src[last.name]));
        OverriddenOneMore(dst, src, Taken(way, front, src), last.name);
      } else {
        assert Trace(way, diff, src) == Trace(way, front, src);
        assert Taken(way, diff, src) == Taken(way, front, src);
      }
    }
  }

  /** Every file of the transfer arrives unchanged exactly if none contains a NUL. */
  lemma TransferFaithfulIff(dst: Store, src: Store, way: Direction, diff: seq<DiffEntry>)
    requires FitNames(diff)
    ensures Bounded(Trace(way, diff, src))
    ensures var got := AcceptAll(Sink(dst, None), Trace(way, diff, src)).store;
      (forall n :: n in Taken(way, diff, src) ==> n in got && got[n] == src[n])
        <==> forall n :: n in Taken(way, diff, src) ==> NulFree(src[n])
  {
    TransferExact(dst, src, way, diff);
    forall n | n in Taken(way, diff, src)
      ensures Strip(src[n]) == src[n] <==> NulFree(src[n])
    {
      StripExact(src[n]);
    }
  }

  /** The packets of one file: a header, data numbered 1, 2, 3, ... in chunks of 1 to
      1207 bytes that end at the first newline, all but the last only there or when full,
      and a trailer. */
  ghost predicate WellChunked(content: seq<byte>, ps: seq<Packet>, chunks: seq<seq<byte>>) {
    && |ps| == |chunks|
    && (forall i :: 0 <= i < |ps| ==> ps[i].index == i + 1 && 1 <= |chunks[i]| <= 1207)
    && (forall i :: 0 <= i < |ps| ==> ps[i].buf == Padded(chunks[i]))
    && (forall i, k :: 0 <= i < |ps| && 0 <= k < |chunks[i]| - 1 ==> chunks[i][k] != 10)
    && (forall i :: 0 <= i < |ps| - 1 ==> |chunks[i]| == 1207 || chunks[i][|chunks[i]| - 1] == 10)
    && Flatten(chunks) == content
  }

  function Flatten(chunks: seq<seq<byte>>): seq<byte> {
    if chunks == [] then [] else chunks[0] + Flatten(chunks[1..])
  }

  function Chunks(rest: seq<byte>): seq<seq<byte>>
    decreases |rest|
  {
    if rest == [] then [] else [rest[..ChunkSize(rest)]] + Chunks(rest[ChunkSize(rest)..])
  }

  lemma {:induction false} ChunksFlatten(rest: seq<byte>)
    ensures Flatten(Chunks(rest)) == rest
    decreases |rest|
  {
    if rest != [] {
      var n := ChunkSize(rest);
      calc {
        Flatten(Chunks(rest));
        Flatten([rest[..n]] + Chunks(rest[n..]));
        { FlattenCons(rest[..n], Chunks(rest[n..])); }
        rest[..n] + Flatten(Chunks(rest[n..]));
        { ChunksFlatten(rest[n..]); }
        rest[..n] + rest[n..];
        rest;
      }
    }
  }

  lemma FlattenCons(chunk: seq<byte>, chunks: seq<seq<byte>>)
    ensures Flatten([chunk] + chunks) == chunk + Flatten(chunks)
  {
    assert ([chunk] + chunks)[1..] == chunks;
  }

  lemma {:induction false} ChunksFit(rest: seq<byte>, i: nat)
    requires i < |Chunks(rest)|
    ensures 1 <= |Chunks(rest)[i]| <= MAX_CHUNK
    ensures forall k :: 0 <= k < |Chunks(rest)[i]| - 1 ==> Chunks(rest)[i][k] != NEWLINE
    decreases |rest|
  {
    if i > 0 {
      ChunksFit(rest[ChunkSize(rest)..], i - 1);
    }
  }

  /** A chunk that is not the last is as long as `fgets` makes it. */
  lemma {:induction false} ChunksStop(rest: seq<byte>, i: nat)
    requires i < |Chunks(rest)| - 1
    ensures var chunk := Chunks(rest)[i]; |chunk| == 1207 || (chunk != [] && chunk[|chunk| - 1] == 10)
    decreases |rest|
  {
    if i > 0 {
      ChunksStop(rest[ChunkSize(rest)..], i - 1);
    }
  }

  lemma {:induction false} PacketsShape(rest: seq<byte>, index: nat)
    ensures var ps, chunks := DataPackets(rest, index), Chunks(rest);
      && |ps| == |chunks|
      && forall i :: 0 <= i < |ps| ==> ps[i].index == index + i && |chunks[i]| <= MAX_CHUNK && ps[i].buf == Padded(chunks[i])
    decreases |rest|
  {
    if rest != [] {
      PacketsShape(rest[ChunkSize(rest)..], index + 1);
    }
  }

  lemma ContentChunked(content: seq<byte>, index: nat)
    requires index == 1
    ensures WellChunked(content, DataPackets(content, index), Chunks(content))
  {
    PacketsShape(content, index);
    ChunksFlatten(content);
    forall i: nat | i < |Chunks(content)| {
      ChunksFit(content, i);
    }
    forall i: nat | i < |Chunks(content)| - 1 {
      ChunksStop(content, i);
    }
  }

  lemma FileShape(name: Name, content: seq<byte>)
    requires FitsName(name)
    ensures var ps := FileTrace(name, content);
      && |ps| >= 2 && ps[0].index == 0 && ps[|ps| - 1].index == -1
      && WellChunked(content, ps[1..|ps| - 1], Chunks(content))
      && (content == [] <==> |ps| == 2)
  {
    ContentChunked(content, 1);
    var ps := FileTrace(name, content);
    assert ps[1..|ps| - 1] == DataPackets(content, 1);
  }
}
