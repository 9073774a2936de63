/** When status, upload, fresh status and download bring two repositories together. */
module Convergence {
  import opened Bytes
  import opened Checksums
  import opened Transfer
  import opened Reassembly
  import opened Sync

  /** The orders in which the two sides are listed by the two status requests. */
  datatype Orders = Orders(c1: seq<Name>, f1: seq<Name>, c2: seq<Name>, f2: seq<Name>)

  function FirstDiff(h: Hash, c: Store, f: Store, o: Orders): seq<DiffEntry>
    requires (forall n :: n in o.c1 ==> n in c) && (forall n :: n in o.f1 ==> n in f)
  {
    StatusDiff(h, c, f, o.c1, o.f1)
  }

  /** The file server's repository after the upload. */
  function Uploaded(h: Hash, c: Store, f: Store, o: Orders): Store
    requires (forall n :: n in o.c1 ==> n in c) && (forall n :: n in o.f1 ==> n in f)
  {
    After(Upload, FirstDiff(h, c, f, o), c, f)
  }

  /** The orders list the repositories as they are when they are listed. */
  ghost predicate ProperOrders(h: Hash, c: Store, f: Store, o: Orders) {
    && Enumerates(o.c1, c) && Enumerates(o.f1, f)
    && Enumerates(o.c2, c) && Enumerates(o.f2, Uploaded(h, c, f, o))
  }

  ghost function SecondDiff(h: Hash, c: Store, f: Store, o: Orders): seq<DiffEntry>
    requires ProperOrders(h, c, f, o)
  {
    StatusDiff(h, c, Uploaded(h, c, f, o), o.c2, o.f2)
  }

  /** The client's repository after the download. */
  ghost function Downloaded(h: Hash, c: Store, f: Store, o: Orders): Store
    requires ProperOrders(h, c, f, o)
  {
    After(Download, SecondDiff(h, c, f, o), Uploaded(h, c, f, o), c)
  }

  /** The client side of a synchronisation, `sy_status`, `sy_upload`, `sy_status`,
      `sy_download`, with the metadata server's answers. */
  method Synchronise(h: Hash, c: Store, f: Store, c1: seq<Name>, f1: seq<Name>, c2: seq<Name>, f2: seq<Name>)
    returns (client: Store, server: Store)
    requires ProperHash(h) && FitStore(c) && FitStore(f)
    requires ProperOrders(h, c, f, Orders(c1, f1, c2, f2))
    ensures server == Uploaded(h, c, f, Orders(c1, f1, c2, f2))
    ensures client == Downloaded(h, c, f, Orders(c1, f1, c2, f2))
  {
    var clientSums := ListFiles(h, c, c1);
    var serverSums := ListFiles(h, f, f1);
    var rows, diff := CompareLists(serverSums, clientSums);
    DiffFits(h, c, f, c1, f1);
    server := RunWholeTransfer(Upload, diff, c, f);
    AfterFits(Upload, diff, c, f);
    clientSums := ListFiles(h, c, c2);
    serverSums := ListFiles(h, server, f2);
    rows, diff := CompareLists(serverSums, clientSums);
    DiffFits(h, c, server, c2, f2);
    client := RunWholeTransfer(Download, diff, server, c);
  }

  // One file

  lemma TakenMembers(way: Direction, d: seq<DiffEntry>, h: Hash, c: Store, f: Store, src: Store, name: Name)
    requires ReportsAll(d, h, c, f)
    ensures name in Taken(way, Processed(d), src)
       <==> name in Listed(Processed(d)) && way.Takes(FileState(h, c, f, name)) && name in src
  {
    var p := Processed(d);
    assert forall i :: 0 <= i < |p| ==> p[i] == d[i];
    if name in Listed(p) {
      var i :| 0 <= i < |p| && p[i].name == name;
      assert p[i].status == FileState(h, c, f, name);
    }
  }

  /** A repository after a transfer, file by file. */
  lemma AfterOne(way: Direction, d: seq<DiffEntry>, src: Store, dst: Store, name: Name)
    ensures var got := After(way, d, src, dst);
      var moved := name in Taken(way, Processed(d), src);
      && (name in got <==> name in dst || moved)
      && (name in got ==> got[name] == if moved then Strip(src[name]) else dst[name])
  {
  }

  lemma Differs(h: Hash, c: Store, f: Store, name: Name)
    requires ProperHash(h)
    ensures Uploads(FileState(h, c, f, name)) && name in c <==> name in c && SumIn(h, f, name) != h(c[name])
    ensures Downloads(FileState(h, c, f, name)) && name in f <==> name in f && SumIn(h, c, name) != h(f[name])
  {
  }

  /** The file server's copy of `name` after the upload. */
  lemma UploadOne(h: Hash, c: Store, f: Store, o: Orders, name: Name)
    requires ProperHash(h) && ProperOrders(h, c, f, o)
    ensures var u := Uploaded(h, c, f, o);
      var moved := name in Listed(Processed(FirstDiff(h, c, f, o))) && name in c && SumIn(h, f, name) != h(c[name]);
      && (name in u <==> name in f || moved)
      && (name in u ==> u[name] == if moved then Strip(c[name]) else f[name])
  {
    var d := FirstDiff(h, c, f, o);
    assert ReportsAll(d, h, c, f) by {
      StatusExact(h, c, f, o.c1, o.f1);
    }
    TakenMembers(Upload, d, h, c, f, c, name);
    Differs(h, c, f, name);
    AfterOne(Upload, d, c, f, name);
  }

  /** The client's copy of `name` after the download. */
  lemma DownloadOne(h: Hash, c: Store, f: Store, o: Orders, name: Name)
    requires ProperHash(h) && ProperOrders(h, c, f, o)
    ensures var u, g := Uploaded(h, c, f, o), Downloaded(h, c, f, o);
      var moved := name in Listed(Processed(SecondDiff(h, c, f, o))) && name in u && SumIn(h, c, name) != h(u[name]);
      && (name in g <==> name in c || moved)
      && (name in g ==> g[name] == if moved then Strip(u[name]) else c[name])
  {
    var u, d := Uploaded(h, c, f, o), SecondDiff(h, c, f, o);
    assert ReportsAll(d, h, c, u) by {
      StatusExact(h, c, u, o.c2, o.f2);
    }
    TakenMembers(Download, d, h, c, u, u, name);
    Differs(h, c, u, name);
    AfterOne(Download, d, u, c, name);
  }

  lemma StripTwice(s: seq<byte>)
    ensures Strip(Strip(s)) == Strip(s)
  {
    StripExact(Strip(s));
  }

  /** Stripping a file leaves its checksum alone. */
  predicate Survives(h: Hash, s: seq<byte>) {
    h(Strip(s)) == h(s)
  }

  /** When one synchronisation settles a file, given whether the two diff lists
      reached its entry. */
  predicate Settles(h: Hash, c: Store, f: Store, name: Name, up: bool, down: bool) {
    if name !in c then name in f && down && Survives(h, f[name])
    else if name in f && h(c[name]) == h(f[name]) then true
    else if up then Survives(h, c[name]) || down
    else name in f && down && Survives(h, f[name])
  }

  ghost predicate InStep(h: Hash, c: Store, f: Store, name: Name) {
    name in c && name in f && h(c[name]) == h(f[name])
  }

  lemma SettlesExact(h: Hash, c: Store, f: Store, o: Orders, name: Name)
    requires ProperHash(h) && ProperOrders(h, c, f, o)
    requires name in c.Keys + f.Keys
    ensures InStep(h, Downloaded(h, c, f, o), Uploaded(h, c, f, o), name)
       <==> Settles(h, c, f, name,
                    name in Listed(Processed(FirstDiff(h, c, f, o))),
                    name in Listed(Processed(SecondDiff(h, c, f, o))))
  {
    UploadOne(h, c, f, o, name);
    DownloadOne(h, c, f, o, name);
    if name in c {
      StripTwice(c[name]);
    }
  }

  // All files

  /** A status request would report every file FILE_CLEAN. */
  ghost predicate AllClean(h: Hash, c: Store, f: Store) {
    forall name :: name in c.Keys + f.Keys ==> FileState(h, c, f, name) == Clean
  }

  lemma AllCleanIff(h: Hash, c: Store, f: Store)
    requires ProperHash(h)
    ensures AllClean(h, c, f) <==> forall name :: name in c.Keys + f.Keys ==> InStep(h, c, f, name)
    ensures AllClean(h, c, f) ==> c.Keys == f.Keys
  {
    forall name | name in c.Keys + f.Keys
      ensures FileState(h, c, f, name) == Clean <==> InStep(h, c, f, name)
    {
    }
    if AllClean(h, c, f) {
      assert forall name :: name in c.Keys + f.Keys ==> name in c && name in f;
      assert forall name :: name in c.Keys <==> name in f.Keys;
    }
  }

  lemma AfterKeys(way: Direction, d: seq<DiffEntry>, src: Store, dst: Store)
    ensures dst.Keys <= After(way, d, src, dst).Keys <= dst.Keys + src.Keys
  {
  }

  /** No step adds or loses a name. */
  lemma SameFiles(h: Hash, c: Store, f: Store, o: Orders)
    requires ProperOrders(h, c, f, o)
    ensures c.Keys + Uploaded(h, c, f, o).Keys == c.Keys + f.Keys
    ensures Downloaded(h, c, f, o).Keys + Uploaded(h, c, f, o).Keys == c.Keys + f.Keys
  {
    var u := Uploaded(h, c, f, o);
    AfterKeys(Upload, FirstDiff(h, c, f, o), c, f);
    AfterKeys(Download, SecondDiff(h, c, f, o), u, c);
    Unions(c.Keys, f.Keys, u.Keys, Downloaded(h, c, f, o).Keys);
  }

  lemma Unions(c: set<Name>, f: set<Name>, u: set<Name>, g: set<Name>)
    requires f <= u <= f + c && c <= g <= c + u
    ensures c + u == c + f && g + u == c + f
  {
  }

  /** For repositories of any size: a third status is all CLEAN exactly if every file
      settles, given whether each report listed it below the 8-bit count. */
  lemma {:induction false} SyncExact(h: Hash, c: Store, f: Store, o: Orders)
    requires ProperHash(h) && ProperOrders(h, c, f, o)
    ensures |Reported(o.c1, o.f1)| == |Reported(o.c2, o.f2)| == |c.Keys + f.Keys|
    ensures AllClean(h, Downloaded(h, c, f, o), Uploaded(h, c, f, o))
       <==> forall name :: name in c.Keys + f.Keys ==>
              Settles(h, c, f, name, name in Reached(o.c1, o.f1), name in Reached(o.c2, o.f2))
  {
    SameFiles(h, c, f, o);
    AllCleanIff(h, Downloaded(h, c, f, o), Uploaded(h, c, f, o));
    ReachedExact(h, c, f, o.c1, o.f1, []);
    ReachedExact(h, c, Uploaded(h, c, f, o), o.c2, o.f2, []);
    forall name | name in c.Keys + f.Keys
      ensures InStep(h, Downloaded(h, c, f, o), Uploaded(h, c, f, o), name)
         <==> Settles(h, c, f, name, name in Reached(o.c1, o.f1), name in Reached(o.c2, o.f2))
    {
      SettlesExact(h, c, f, o, name);
      ReachedExact(h, c, f, o.c1, o.f1, name);
      ReachedExact(h, c, Uploaded(h, c, f, o), o.c2, o.f2, name);
    }
  }

  lemma ProcessedSize(d: seq<DiffEntry>, names: set<Name>)
    requires ListedOnce(d) && Listed(d) == names
    ensures |names| < 0x100 ==> Processed(d) == d
    ensures |names| % 0x100 == 0 ==> Processed(d) == []
  {
    ListedSize(d);
  }

  /** Up to 255 files all entries are looked at, and of a multiple of 256 none. */
  lemma AllProcessed(h: Hash, c: Store, f: Store, o: Orders)
    requires ProperHash(h) && ProperOrders(h, c, f, o)
    ensures |c.Keys + f.Keys| < 0x100 ==>
      && Listed(Processed(FirstDiff(h, c, f, o))) == c.Keys + f.Keys
      && Listed(Processed(SecondDiff(h, c, f, o))) == c.Keys + f.Keys
    ensures |c.Keys + f.Keys| % 0x100 == 0 ==>
      Processed(FirstDiff(h, c, f, o)) == [] && Processed(SecondDiff(h, c, f, o)) == []
  {
    SameFiles(h, c, f, o);
    StatusListed(h, c, f, o.c1, o.f1);
    ProcessedSize(FirstDiff(h, c, f, o), c.Keys + f.Keys);
    StatusListed(h, c, Uploaded(h, c, f, o), o.c2, o.f2);
    ProcessedSize(SecondDiff(h, c, f, o), c.Keys + f.Keys);
  }

  lemma AllReached(h: Hash, c: Store, f: Store, o: Orders)
    requires ProperHash(h) && ProperOrders(h, c, f, o) && |c.Keys + f.Keys| < 0x100
    ensures forall name :: name in c.Keys + f.Keys ==> name in Reached(o.c1, o.f1) && name in Reached(o.c2, o.f2)
  {
    AllProcessed(h, c, f, o);
    forall name | name in c.Keys + f.Keys
      ensures name in Reached(o.c1, o.f1) && name in Reached(o.c2, o.f2)
    {
      ReachedExact(h, c, f, o.c1, o.f1, name);
      ReachedExact(h, c, Uploaded(h, c, f, o), o.c2, o.f2, name);
    }
  }

  /** Convergence.  With at most 255 files a third status is all CLEAN, and so both
      sides have the same names and checksums, exactly if each file that only the file
      server has keeps its checksum when NULs cut it. */
  lemma SyncConvergesIff(h: Hash, c: Store, f: Store, o: Orders)
    requires ProperHash(h) && ProperOrders(h, c, f, o)
    requires |c.Keys + f.Keys| < 0x100
    ensures var g, u := Downloaded(h, c, f, o), Uploaded(h, c, f, o);
      && (AllClean(h, g, u) <==> forall name :: name in f.Keys - c.Keys ==> Survives(h, f[name]))
      && (AllClean(h, g, u) ==> g.Keys == u.Keys && forall name :: name in g ==> h(g[name]) == h(u[name]))
  {
    var g, u := Downloaded(h, c, f, o), Uploaded(h, c, f, o);
    SyncExact(h, c, f, o);
    AllCleanIff(h, g, u);
    AllReached(h, c, f, o);
    if AllClean(h, g, u) {
      forall name | name in g
        ensures h(g[name]) == h(u[name])
      {
        assert InStep(h, g, u, name);
      }
    }
    forall name | name in c.Keys + f.Keys
      ensures Settles(h, c, f, name, true, true) <==> (name !in c ==> Survives(h, f[name]))
    {
    }
  }

  /** Without NULs in the files that only the file server has, a synchronisation of at
      most 255 files always converges. */
  lemma SyncConverges(h: Hash, c: Store, f: Store, o: Orders)
    requires ProperHash(h) && ProperOrders(h, c, f, o)
    requires |c.Keys + f.Keys| < 0x100
    requires forall name :: name in f.Keys - c.Keys ==> NulFree(f[name])
    ensures AllClean(h, Downloaded(h, c, f, o), Uploaded(h, c, f, o))
  {
    SyncConvergesIff(h, c, f, o);
    forall name | name in f.Keys - c.Keys
      ensures Survives(h, f[name])
    {
      StripExact(f[name]);
    }
  }

  /** The upload leaves alone what only the file server has, and the whole
      synchronisation loses no file. */
  lemma NothingLost(h: Hash, c: Store, f: Store, o: Orders)
    requires ProperHash(h) && ProperOrders(h, c, f, o)
    ensures var g, u := Downloaded(h, c, f, o), Uploaded(h, c, f, o);
      && f.Keys <= u.Keys && c.Keys <= g.Keys
      && forall name :: name in f.Keys - c.Keys ==> u[name] == f[name]
  {
    forall name
      ensures name in f.Keys ==> name in Uploaded(h, c, f, o).Keys
      ensures name in c.Keys ==> name in Downloaded(h, c, f, o).Keys
      ensures name in f.Keys - c.Keys ==> Uploaded(h, c, f, o)[name] == f[name]
    {
      UploadOne(h, c, f, o, name);
      DownloadOne(h, c, f, o, name);
    }
  }

  // Contents

  /** Equal checksums hide no difference between the two sides. */
  ghost predicate NoHiddenDifference(h: Hash, c: Store, f: Store) {
    forall name :: name in c.Keys + f.Keys ==> SameOrSeen(h, c, f, name)
  }

  predicate SameOrSeen(h: Hash, c: Store, f: Store, name: Name) {
    name in c && name in f && h(c[name]) == h(f[name]) ==> c[name] == f[name]
  }

  lemma ContentsOne(h: Hash, c: Store, f: Store, o: Orders, name: Name)
    requires ProperHash(h) && ProperOrders(h, c, f, o)
    requires |c.Keys + f.Keys| < 0x100 && name in c.Keys + f.Keys
    requires (name in c ==> NulFree(c[name])) && (name in f ==> NulFree(f[name]))
    ensures var g, u := Downloaded(h, c, f, o), Uploaded(h, c, f, o);
      name in g && name in u
      && (g[name] == u[name] <==> SameOrSeen(h, c, f, name))
  {
    AllProcessed(h, c, f, o);
    UploadOne(h, c, f, o, name);
    DownloadOne(h, c, f, o, name);
    if name in c {
      StripExact(c[name]);
    }
    if name in f {
      StripExact(f[name]);
    }
  }

  /** For NUL-free repositories of at most 255 files the two sides end with the same
      contents exactly if no two different files had equal checksums at the start. */
  lemma ContentsConvergeIff(h: Hash, c: Store, f: Store, o: Orders)
    requires ProperHash(h) && ProperOrders(h, c, f, o)
    requires |c.Keys + f.Keys| < 0x100
    requires forall name :: name in c ==> NulFree(c[name])
    requires forall name :: name in f ==> NulFree(f[name])
    ensures Downloaded(h, c, f, o) == Uploaded(h, c, f, o) <==> NoHiddenDifference(h, c, f)
  {
    var g, u := Downloaded(h, c, f, o), Uploaded(h, c, f, o);
    SameFiles(h, c, f, o);
    forall name | name in c.Keys + f.Keys
      ensures name in g && name in u
      ensures g[name] == u[name] <==> SameOrSeen(h, c, f, name)
    {
      ContentsOne(h, c, f, o, name);
    }
    StoresEqual(g, u, c.Keys + f.Keys);
  }

  lemma StoresEqual(g: Store, u: Store, names: set<Name>)
    requires g.Keys + u.Keys == names && forall name :: name in names ==> name in g && name in u
    ensures g == u <==> forall name :: name in names ==> g[name] == u[name]
  {
    assert g.Keys == names && u.Keys == names;
  }

  /** The source's checksum sees only the length of a file ... */
  lemma HashSeesLength(md5: Hash, x: seq<byte>, y: seq<byte>)
    requires |x| == |y|
    ensures FileHash(md5)(x) == FileHash(md5)(y)
  {
  }

  /** ... so two different files of one name and length are never brought together. */
  lemma SameLengthStaysApart(md5: Hash, c: Store, f: Store, o: Orders, name: Name)
    requires ProperHash(FileHash(md5)) && ProperOrders(FileHash(md5), c, f, o)
    requires name in c && name in f && |c[name]| == |f[name]|
    ensures var h := FileHash(md5);
      name in Downloaded(h, c, f, o) && Downloaded(h, c, f, o)[name] == c[name]
      && name in Uploaded(h, c, f, o) && Uploaded(h, c, f, o)[name] == f[name]
  {
    HashSeesLength(md5, c[name], f[name]);
    UploadOne(FileHash(md5), c, f, o, name);
    DownloadOne(FileHash(md5), c, f, o, name);
  }

  // More than 255 files

  /** A multiple of 256 files: the 8-bit count is zero and nothing is transferred. */
  lemma CountWraps(h: Hash, c: Store, f: Store, o: Orders)
    requires ProperHash(h) && ProperOrders(h, c, f, o)
    requires |c.Keys + f.Keys| % 0x100 == 0
    ensures Uploaded(h, c, f, o) == f && Downloaded(h, c, f, o) == c
    ensures AllClean(h, Downloaded(h, c, f, o), Uploaded(h, c, f, o)) <==> AllClean(h, c, f)
  {
    AllProcessed(h, c, f, o);
    AfterNothing(Upload, FirstDiff(h, c, f, o), c, f);
    AfterNothing(Download, SecondDiff(h, c, f, o), Uploaded(h, c, f, o), c);
  }

  lemma AfterNothing(way: Direction, d: seq<DiffEntry>, src: Store, dst: Store)
    requires Processed(d) == []
    ensures After(way, d, src, dst) == dst
  {
    assert Taken(way, [], src) == {};
  }
}
