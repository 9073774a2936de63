/** The checksums of the source tell files apart by their lengths; what a status and a
    synchronisation make of that. */
module Lengths {
  import opened Bytes
  import opened Checksums
  import opened Transfer
  import opened Reassembly
  import opened Sync
  import opened Convergence

  /** MD5 tells runs of zeros of different lengths apart; every injective function does. */
  ghost predicate TellsLengths(md5: Hash) {
    forall a: seq<byte>, b: seq<byte> :: AllZero(a) && AllZero(b) && md5(a) == md5(b) ==> |a| == |b|
  }

  lemma InjectiveTells(md5: Hash)
    requires forall a: seq<byte>, b: seq<byte> :: md5(a) == md5(b) ==> a == b
    ensures TellsLengths(md5)
  {
  }

  lemma ZerosAre(z: seq<byte>)
    requires AllZero(z)
    ensures z == Zeros(|z|)
  {
  }

  /** The checksum of a file is that of as many zeros as it has bytes. */
  lemma HashOfZeros(md5: Hash, content: seq<byte>, z: seq<byte>)
    requires |z| == |content| && AllZero(z)
    ensures FileHash(md5)(content) == md5(z)
  {
    ZerosAre(z);
  }

  /** Two files have equal checksums exactly if they have the same length. */
  lemma HashIsLength(md5: Hash, x: seq<byte>, y: seq<byte>)
    requires TellsLengths(md5)
    ensures FileHash(md5)(x) == FileHash(md5)(y) <==> |x| == |y|
  {
    assert AllZero(Zeros(|x|)) && AllZero(Zeros(|y|));
  }

  /** The status of a file, from where it is and how long it is. */
  function StatusByLength(c: Store, f: Store, name: Name): FileStatus {
    if name !in c then ClientLack
    else if name !in f then FsLack
    else if |c[name]| == |f[name]| then Clean
    else Dirty
  }

  /** A status reports files of different lengths, and only them, as FILE_DIRTY. */
  lemma StatusOfLengths(md5: Hash, c: Store, f: Store, co: seq<Name>, fo: seq<Name>)
    requires TellsLengths(md5) && ProperHash(FileHash(md5)) && Enumerates(co, c) && Enumerates(fo, f)
    ensures var d := StatusDiff(FileHash(md5), c, f, co, fo);
      && ListedOnce(d) && Listed(d) == c.Keys + f.Keys
      && forall i :: 0 <= i < |d| ==> d[i].status == StatusByLength(c, f, d[i].name)
  {
    var h := FileHash(md5);
    var d := StatusDiff(h, c, f, co, fo);
    StatusExact(h, c, f, co, fo);
    forall i | 0 <= i < |d|
      ensures d[i].status == StatusByLength(c, f, d[i].name)
    {
      assert d[i].name in Listed(d);
      if d[i].name in c && d[i].name in f {
        HashIsLength(md5, c[d[i].name], f[d[i].name]);
      }
    }
  }

  /** What both sides hold in the end: the client's file, if it has one. */
  function Wanted(c: Store, f: Store, name: Name): seq<byte>
    requires name in c.Keys + f.Keys
  {
    if name in c then c[name] else f[name]
  }

  predicate SameLength(c: Store, f: Store, name: Name) {
    name in c && name in f && |c[name]| == |f[name]|
  }

  lemma ContentsOfLengths(md5: Hash, c: Store, f: Store, o: Orders, name: Name)
    requires TellsLengths(md5) && ProperHash(FileHash(md5)) && ProperOrders(FileHash(md5), c, f, o)
    requires |c.Keys + f.Keys| < 0x100 && name in c.Keys + f.Keys && !SameLength(c, f, name)
    requires (name in c ==> NulFree(c[name])) && (name in f ==> NulFree(f[name]))
    ensures var g, u := Downloaded(FileHash(md5), c, f, o), Uploaded(FileHash(md5), c, f, o);
      name in g && name in u && g[name] == Wanted(c, f, name) && u[name] == Wanted(c, f, name)
  {
    var h := FileHash(md5);
    AllProcessed(h, c, f, o);
    UploadOne(h, c, f, o, name);
    DownloadOne(h, c, f, o, name);
    if name in c {
      StripExact(c[name]);
    }
    if name in f {
      StripExact(f[name]);
    }
    if name in c && name in f {
      HashIsLength(md5, c[name], f[name]);
    }
  }

  /** How a file ends: as it was on each side if both had it in the same length, otherwise
      on both sides as the client had it, or as the file server did if the client had
      none. */
  ghost predicate EndsRight(c: Store, f: Store, g: Store, u: Store, name: Name)
    requires name in c.Keys + f.Keys
  {
    && name in g && name in u
    && if SameLength(c, f, name) then g[name] == c[name] && u[name] == f[name]
       else g[name] == Wanted(c, f, name) == u[name]
  }

  lemma FileEnds(md5: Hash, c: Store, f: Store, o: Orders, name: Name)
    requires TellsLengths(md5) && ProperHash(FileHash(md5)) && ProperOrders(FileHash(md5), c, f, o)
    requires |c.Keys + f.Keys| < 0x100 && name in c.Keys + f.Keys
    requires (name in c ==> NulFree(c[name])) && (name in f ==> NulFree(f[name]))
    ensures EndsRight(c, f, Downloaded(FileHash(md5), c, f, o), Uploaded(FileHash(md5), c, f, o), name)
  {
    if SameLength(c, f, name) {
      SameLengthStaysApart(md5, c, f, o, name);
    } else {
      ContentsOfLengths(md5, c, f, o, name);
    }
  }

  lemma NoOtherNames(names: set<Name>, g: Store, u: Store)
    requires g.Keys + u.Keys == names && forall name :: name in names ==> name in g && name in u
    ensures g.Keys == names == u.Keys
  {
  }

  /** The synchronisation of NUL-free repositories of at most 255 files. */
  lemma SyncByLengths(md5: Hash, c: Store, f: Store, o: Orders)
    requires TellsLengths(md5) && ProperHash(FileHash(md5)) && ProperOrders(FileHash(md5), c, f, o)
    requires |c.Keys + f.Keys| < 0x100
    requires forall name :: name in c ==> NulFree(c[name])
    requires forall name :: name in f ==> NulFree(f[name])
    ensures var g, u := Downloaded(FileHash(md5), c, f, o), Uploaded(FileHash(md5), c, f, o);
      && g.Keys == c.Keys + f.Keys == u.Keys
      && forall name :: name in c.Keys + f.Keys ==> EndsRight(c, f, g, u, name)
  {
    var g, u := Downloaded(FileHash(md5), c, f, o), Uploaded(FileHash(md5), c, f, o);
    forall name | name in c.Keys + f.Keys
      ensures EndsRight(c, f, g, u, name)
    {
      FileEnds(md5, c, f, o, name);
    }
    SameFiles(FileHash(md5), c, f, o);
    NoOtherNames(c.Keys + f.Keys, g, u);
  }
}
