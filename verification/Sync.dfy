/** A whole synchronisation: status, upload, fresh status, download
    (APIs/cli/sy.c, APIs/fs/file_server.c). */
module Sync {
  import opened Bytes
  import opened Checksums
  import opened Transfer
  import opened Reassembly
  import opened Losses

  type Hash = seq<byte> -> string

  // The checksum

  const MD5_LINE_SIZE := 32

  function Zeros(n: nat): seq<byte> {
    seq(n, _ => 0)
  }

  /** `gen_md5` clears its buffer between reading and hashing, so it hashes as many
      zeros as the file has bytes. */
  function FileHash(md5: Hash): Hash {
    (content: seq<byte>) => md5(Zeros(|content|))
  }

  predicate AllZero(z: seq<byte>) {
    forall i :: 0 <= i < |z| ==> z[i] == 0
  }

  method GenMd5(md5: Hash, content: seq<byte>) returns (hash: string)
    ensures hash == FileHash(md5)(content)
    ensures exists z: seq<byte> :: |z| == |content| && AllZero(z) && hash == md5(z)
  {
    var hashed: seq<byte> := [];
    var pos := 0;
    while pos < |content|
      invariant pos <= |content| && hashed == Zeros(pos)
    {
      var nread := if |content| - pos < MD5_LINE_SIZE then |content| - pos else MD5_LINE_SIZE;
      var buf := content[pos..pos + nread];
      buf := Zeros(nread);
      hashed := hashed + buf;
      pos := pos + nread;
    }
    hash := md5(hashed);
    assert AllZero(hashed);
  }

  // The status

  /** An order in which `readdir` may list a repository. */
  ghost predicate Enumerates(order: seq<Name>, store: Store) {
    && (forall i, j :: 0 <= i < j < |order| ==> order[i] != order[j])
    && (forall name :: name in order <==> name in store)
  }

  function Sums(h: Hash, store: Store, order: seq<Name>): (fs: seq<FileSum>)
    requires forall name :: name in order ==> name in store
    ensures |fs| == |order|
    ensures forall i :: 0 <= i < |order| ==> fs[i] == FileSum(order[i], h(store[order[i]]))
  {
    seq(|order|, i requires 0 <= i < |order| => FileSum(order[i], h(store[order[i]])))
  }

  method ListFiles(h: Hash, store: Store, order: seq<Name>) returns (fs: seq<FileSum>)
    requires forall name :: name in order ==> name in store
    ensures fs == Sums(h, store, order)
  {
    fs := [];
    for i := 0 to |order|
      invariant fs == Sums(h, store, order)[..i]
    {
      fs := fs + [FileSum(order[i], h(store[order[i]]))];
    }
  }

  /** A status request: `c` and `f` are the two repositories, listed in the orders
      `co` and `fo`. */
  function StatusDiff(h: Hash, c: Store, f: Store, co: seq<Name>, fo: seq<Name>): seq<DiffEntry>
    requires forall name :: name in co ==> name in c
    requires forall name :: name in fo ==> name in f
  {
    DiffOf(Sums(h, f, fo), Sums(h, c, co))
  }

  function SumIn(h: Hash, store: Store, name: Name): string {
    if name in store then h(store[name]) else ""
  }

  function FileState(h: Hash, c: Store, f: Store, name: Name): FileStatus {
    StatusOf(SumIn(h, c, name), SumIn(h, f, name))
  }

  ghost predicate ProperHash(h: Hash) {
    forall content :: h(content) != ""
  }

  lemma SumsAre(h: Hash, store: Store, order: seq<Name>, name: Name)
    requires Enumerates(order, store) && ProperHash(h)
    ensures var fs := Sums(h, store, order);
      GoodList(fs) && Names(fs) == store.Keys && LastSum(fs, name) == SumIn(h, store, name)
  {
    var fs := Sums(h, store, order);
    LastSumOf(fs, name);
    forall n
      ensures n in Names(fs) <==> n in store
    {
      if n in store {
        var i :| 0 <= i < |order| && order[i] == n;
        assert fs[i].name == n;
      }
    }
    if name in store {
      var i :| 0 <= i < |order| && order[i] == name;
      assert fs[i].name == name;
    }
  }

  lemma EntryState(h: Hash, c: Store, f: Store, co: seq<Name>, fo: seq<Name>, i: nat)
    requires Enumerates(co, c) && Enumerates(fo, f) && ProperHash(h)
    requires i < |StatusDiff(h, c, f, co, fo)|
    ensures var e := StatusDiff(h, c, f, co, fo)[i];
      e.status == FileState(h, c, f, e.name)
  {
    var fs, cs := Sums(h, f, fo), Sums(h, c, co);
    var name := Join(fs, cs)[i].name;
    SumsAre(h, f, fo, name);
    SumsAre(h, c, co, name);
    RowSums(fs, cs, i);
  }

  /** `d` reports every file of either side once, with its state. */
  ghost predicate ReportsAll(d: seq<DiffEntry>, h: Hash, c: Store, f: Store) {
    && ListedOnce(d) && Listed(d) == c.Keys + f.Keys
    && forall i :: 0 <= i < |d| ==> d[i].status == FileState(h, c, f, d[i].name)
  }

  lemma StatusListed(h: Hash, c: Store, f: Store, co: seq<Name>, fo: seq<Name>)
    requires Enumerates(co, c) && Enumerates(fo, f) && ProperHash(h)
    ensures ListedOnce(StatusDiff(h, c, f, co, fo))
    ensures Listed(StatusDiff(h, c, f, co, fo)) == c.Keys + f.Keys
  {
    var fs, cs := Sums(h, f, fo), Sums(h, c, co);
    SumsAre(h, f, fo, []);
    SumsAre(h, c, co, []);
    DiffCorrect(fs, cs);
  }

  lemma StatusExact(h: Hash, c: Store, f: Store, co: seq<Name>, fo: seq<Name>)
    requires Enumerates(co, c) && Enumerates(fo, f) && ProperHash(h)
    ensures ReportsAll(StatusDiff(h, c, f, co, fo), h, c, f)
  {
    StatusListed(h, c, f, co, fo);
    forall i | 0 <= i < |StatusDiff(h, c, f, co, fo)|
      ensures var e := StatusDiff(h, c, f, co, fo)[i]; e.status == FileState(h, c, f, e.name)
    {
      EntryState(h, c, f, co, fo, i);
    }
  }

  // The order of the report

  /** The names of `co` that are not in `fo`, in order. */
  function NotIn(co: seq<Name>, fo: seq<Name>): seq<Name> {
    if co == [] then []
    else NotIn(co[..|co| - 1], fo) + if co[|co| - 1] in fo then [] else [co[|co| - 1]]
  }

  /** A status report goes through the file server's listing and then the client's, without
      what is on the file server. */
  function Reported(co: seq<Name>, fo: seq<Name>): seq<Name> {
    fo + NotIn(co, fo)
  }

  lemma {:induction false} NewNamesAre(fs: seq<FileSum>, cs: seq<FileSum>, fo: seq<Name>, co: seq<Name>)
    requires |fs| == |fo| && forall i :: 0 <= i < |fo| ==> fs[i].name == fo[i]
    requires |cs| == |co| && forall i :: 0 <= i < |co| ==> cs[i].name == co[i]
    requires forall i, j :: 0 <= i < j < |co| ==> co[i] != co[j]
    ensures NewNames(fs, cs) == NotIn(co, fo)
    decreases |co|
  {
    if co != [] {
      var n := |co| - 1;
      NewNamesAre(fs, cs[..n], fo, co[..n]);
      NewNamesMembers(fs, cs[..n]);
      assert HasName(fs, co[n]) <==> co[n] in fo by {
        if co[n] in fo {
          var i :| 0 <= i < |fo| && fo[i] == co[n];
          assert fs[i].name == co[n];
        }
      }
      assert !HasName(cs[..n], co[n]);
    }
  }

  /** Entry by entry, which file a report is about. */
  lemma ReportOrder(h: Hash, c: Store, f: Store, co: seq<Name>, fo: seq<Name>)
    requires Enumerates(co, c) && Enumerates(fo, f)
    ensures var d, names := StatusDiff(h, c, f, co, fo), Reported(co, fo);
      |d| == |names| && forall i :: 0 <= i < |d| ==> d[i].name == names[i]
  {
    var fs, cs := Sums(h, f, fo), Sums(h, c, co);
    JoinExact(fs, cs, Join(fs, cs));
    NewNamesAre(fs, cs, fo, co);
    RowOrder(fs, cs, Join(fs, cs), fo);
  }

  lemma RowOrder(fs: seq<FileSum>, cs: seq<FileSum>, rows: seq<Row>, fo: seq<Name>)
    requires IsOuterJoin(fs, cs, rows) && |fs| == |fo| && forall i :: 0 <= i < |fo| ==> fs[i].name == fo[i]
    ensures var names := fo + NewNames(fs, cs);
      |rows| == |names| && forall i :: 0 <= i < |rows| ==> rows[i].name == names[i]
  {
  }

  /** A list without repetitions has as many entries as names. */
  lemma {:induction false} ListedSize(d: seq<DiffEntry>)
    requires ListedOnce(d)
    ensures |Listed(d)| == |d|
  {
    if d != [] {
      var front, last := d[..|d| - 1], d[|d| - 1];
      ListedSize(front);
      assert last.name !in Listed(front);
      assert Listed(d) == Listed(front) + {last.name};
    }
  }

  // The transfer of a diff list

  /** `sy_diff_t.num` is 8 bits wide: only that many entries are looked at. */
  function Processed(diff: seq<DiffEntry>): seq<DiffEntry> {
    diff[..|diff| % 0x100]
  }

  /** The files that a transfer looks at: those below the 8-bit count in the report. */
  function Reached(co: seq<Name>, fo: seq<Name>): seq<Name> {
    Reported(co, fo)[..|Reported(co, fo)| % 0x100]
  }

  lemma ReachedExact(h: Hash, c: Store, f: Store, co: seq<Name>, fo: seq<Name>, name: Name)
    requires Enumerates(co, c) && Enumerates(fo, f) && ProperHash(h)
    ensures |Reported(co, fo)| == |c.Keys + f.Keys|
    ensures name in Listed(Processed(StatusDiff(h, c, f, co, fo))) <==> name in Reached(co, fo)
  {
    var d := StatusDiff(h, c, f, co, fo);
    ReportOrder(h, c, f, co, fo);
    StatusListed(h, c, f, co, fo);
    ListedSize(d);
    SameNames(d, Reported(co, fo), |d| % 0x100, name);
  }

  lemma SameNames(d: seq<DiffEntry>, names: seq<Name>, n: nat, name: Name)
    requires |d| == |names| && (forall i :: 0 <= i < |d| ==> d[i].name == names[i]) && n <= |d|
    ensures name in Listed(d[..n]) <==> name in names[..n]
  {
    if name in Listed(d[..n]) {
      var i :| 0 <= i < n && d[..n][i].name == name;
      assert names[..n][i] == name;
    }
    if name in names[..n] {
      var i :| 0 <= i < n && names[..n][i] == name;
      assert d[..n][i].name == name;
    }
  }

  function After(way: Direction, diff: seq<DiffEntry>, src: Store, dst: Store): Store {
    Overridden(dst, src, Taken(way, Processed(diff), src))
  }

  lemma AcceptPrefix(s: Sink, ps: seq<Packet>, i: nat)
    requires Bounded(ps) && Playable(s, ps) && i < |ps|
    ensures Bounded(ps[..i]) && Bounded(ps[..i + 1])
    ensures AcceptAll(s, ps[..i + 1]) == Accept(AcceptAll(s, ps[..i]), ps[i])
    ensures Playable(AcceptAll(s, ps[..i]), [ps[i]])
    decreases |ps|
  {
    AcceptOne(AcceptAll(s, ps[..i]), ps[i]);
    if i + 1 < |ps| {
      var front := ps[..|ps| - 1];
      AcceptPrefix(s, front, i);
      assert front[..i] == ps[..i] && front[..i + 1] == ps[..i + 1];
    } else {
      assert ps[..i + 1] == ps && ps[..i + 1][..i] == ps[..i];
    }
  }

  /** A sender at one end of the data channel, a receiver at the other, and SCTP's verdict
      on each packet, which the sender ignores.  The receiver must not be made to use a
      file that is not open. */
  method RunTransfer(way: Direction, diff: seq<DiffEntry>, src: Store, dst: Store, v: seq<bool>) returns (got: Store)
    requires FitNames(diff) && |v| == |Trace(way, Processed(diff), src)|
    requires Bounded(Deliver(Trace(way, Processed(diff), src), v))
    requires Playable(Sink(dst, None), Deliver(Trace(way, Processed(diff), src), v))
    ensures got == AcceptAll(Sink(dst, None), Deliver(Trace(way, Processed(diff), src), v)).store
  {
    var sent := SendFiles(way, Processed(diff), src);
    var ps := Deliver(sent, v);
    var receiver := new Receiver(dst);
    for i := 0 to |ps|
      invariant receiver.Valid() && receiver.View() == AcceptAll(Sink(dst, None), ps[..i])
    {
      AcceptPrefix(Sink(dst, None), ps, i);
      receiver.OnMessage(ps[i]);
    }
    assert ps[..|ps|] == ps;
    got := receiver.store;
  }

  /** When SCTP takes every packet. */
  method RunWholeTransfer(way: Direction, diff: seq<DiffEntry>, src: Store, dst: Store) returns (got: Store)
    requires FitNames(diff)
    ensures got == After(way, diff, src, dst)
  {
    var v := All(|Trace(way, Processed(diff), src)|);
    DeliverAll(Trace(way, Processed(diff), src), v);
    TransferExact(dst, src, way, Processed(diff));
    got := RunTransfer(way, diff, src, dst, v);
  }

  ghost predicate FitStore(s: Store) {
    forall name :: name in s ==> FitsName(name)
  }

  lemma DiffFits(h: Hash, c: Store, f: Store, co: seq<Name>, fo: seq<Name>)
    requires Enumerates(co, c) && Enumerates(fo, f) && ProperHash(h) && FitStore(c) && FitStore(f)
    ensures FitNames(StatusDiff(h, c, f, co, fo))
  {
    var d := StatusDiff(h, c, f, co, fo);
    StatusExact(h, c, f, co, fo);
    forall i | 0 <= i < |d|
      ensures FitsName(d[i].name)
    {
      assert d[i].name in Listed(d);
    }
  }

  lemma AfterFits(way: Direction, diff: seq<DiffEntry>, src: Store, dst: Store)
    requires FitStore(src) && FitStore(dst)
    ensures FitStore(After(way, diff, src, dst))
  {
  }
}
