/** The comparison of two repositories by their checksum lists
    (APIs/ms/metadata_server.c): a full outer join, then a status for each file. */
module Checksums {
  import opened Bytes

  type Name = seq<byte>

  datatype FileSum = FileSum(name: Name, sum: string)

  /** A joined file: `a` and `b` are its checksums in the two lists, "" where absent. */
  datatype Row = Row(name: Name, a: string, b: string)

  datatype FileStatus = Clean | ClientLack | FsLack | Dirty

  datatype DiffEntry = DiffEntry(name: Name, status: FileStatus)

  // The join as the loops compute it

  function CopyRows(A: seq<FileSum>): (rows: seq<Row>)
    ensures |rows| == |A| && forall i :: 0 <= i < |A| ==> rows[i] == Row(A[i].name, A[i].sum, "")
  {
    seq(|A|, i requires 0 <= i < |A| => Row(A[i].name, A[i].sum, ""))
  }

  /** The first row called `name`, or the number of rows. */
  function FirstRow(rows: seq<Row>, name: Name): (i: nat)
    ensures i <= |rows|
    ensures i < |rows| ==> rows[i].name == name
    ensures forall j :: 0 <= j < i ==> rows[j].name != name
  {
    if rows == [] || rows[0].name == name then 0 else 1 + FirstRow(rows[1..], name)
  }

  function Absorb(rows: seq<Row>, f: FileSum): seq<Row> {
    var i := FirstRow(rows, f.name);
    if i < |rows| then rows[i := rows[i].(b := f.sum)] else rows + [Row(f.name, "", f.sum)]
  }

  function Join(A: seq<FileSum>, B: seq<FileSum>): seq<Row> {
    if B == [] then CopyRows(A) else Absorb(Join(A, B[..|B| - 1]), B[|B| - 1])
  }

  /** `join_checksum_arrays` */
  method JoinChecksumArrays(A: seq<FileSum>, B: seq<FileSum>) returns (rows: seq<Row>)
    ensures rows == Join(A, B)
  {
    rows := [];
    for i := 0 to |A|
      invariant rows == CopyRows(A)[..i]
    {
      rows := rows + [Row(A[i].name, A[i].sum, "")];
    }
    var size := |rows|;
    for k := 0 to |B|
      invariant rows == Join(A, B[..k]) && size == |rows|
    {
      assert B[..k + 1][..k] == B[..k];
      var i := 0;
      while i < |rows| && rows[i].name != B[k].name
        invariant i <= FirstRow(rows, B[k].name)
      {
        i := i + 1;
      }
      if i == size {
        rows := rows + [Row(B[k].name, "", B[k].sum)];
        size := size + 1;
      } else {
        rows := rows[i := rows[i].(b := B[k].sum)];
      }
    }
    assert B[..|B|] == B;
  }

  // The join as a relation

  predicate HasName(fs: seq<FileSum>, name: Name) {
    exists i :: 0 <= i < |fs| && fs[i].name == name
  }

  /** The last checksum listed for `name`, or "". */
  function LastSum(fs: seq<FileSum>, name: Name): string {
    if fs == [] then ""
    else if fs[|fs| - 1].name == name then fs[|fs| - 1].sum
    else LastSum(fs[..|fs| - 1], name)
  }

  /** The names of `B` absent from `A`, in the order of their first occurrences. */
  function NewNames(A: seq<FileSum>, B: seq<FileSum>): seq<Name> {
    if B == [] then []
    else
      var front := NewNames(A, B[..|B| - 1]);
      var name := B[|B| - 1].name;
      if HasName(A, name) || name in front then front else front + [name]
  }

  ghost predicate Joined(A: seq<FileSum>, news: seq<Name>, B: seq<FileSum>, rows: seq<Row>) {
    NamedRows(A, news, rows) && SumsRight(B, rows)
  }

  ghost predicate NamedRows(A: seq<FileSum>, news: seq<Name>, rows: seq<Row>) {
    && |rows| == |A| + |news|
    && (forall i :: 0 <= i < |A| ==> rows[i].name == A[i].name && rows[i].a == A[i].sum)
    && (forall i :: |A| <= i < |rows| ==> rows[i].name == news[i - |A|] && rows[i].a == "")
  }

  ghost predicate SumsRight(B: seq<FileSum>, rows: seq<Row>) {
    forall i :: 0 <= i < |rows| ==> rows[i].b == SumOfRow(B, rows, i)
  }

  /** Only the first row of a name carries a checksum of `B`. */
  function SumOfRow(B: seq<FileSum>, rows: seq<Row>, i: nat): string
    requires i < |rows|
  {
    if FirstRow(rows, rows[i].name) == i then LastSum(B, rows[i].name) else ""
  }

  /** A full outer join that tolerates duplicates: the rows of `A` in order, then one
      row for each new name; the first row of a name carries the last checksum of `B`,
      every other checksum is "". */
  ghost predicate IsOuterJoin(A: seq<FileSum>, B: seq<FileSum>, rows: seq<Row>) {
    Joined(A, NewNames(A, B), B, rows)
  }

  lemma FirstRowIs(rows: seq<Row>, name: Name, i: nat)
    requires i <= |rows| && (i < |rows| ==> rows[i].name == name)
    requires forall j :: 0 <= j < i ==> rows[j].name != name
    ensures FirstRow(rows, name) == i
  {
  }

  lemma FirstRowSameNames(rows: seq<Row>, rows': seq<Row>, name: Name)
    requires |rows| == |rows'| && forall i :: 0 <= i < |rows| ==> rows[i].name == rows'[i].name
    ensures FirstRow(rows, name) == FirstRow(rows', name)
  {
    FirstRowIs(rows', name, FirstRow(rows, name));
  }

  lemma NewNamesMembers(A: seq<FileSum>, B: seq<FileSum>)
    ensures forall name :: name in NewNames(A, B) <==> HasName(B, name) && !HasName(A, name)
    ensures |NewNames(A, B)| <= |B|
    ensures forall i, j :: 0 <= i < j < |NewNames(A, B)| ==> NewNames(A, B)[i] != NewNames(A, B)[j]
  {
    if B != [] {
      var front, last := B[..|B| - 1], B[|B| - 1];
      NewNamesMembers(A, front);
      forall name
        ensures HasName(B, name) <==> HasName(front, name) || last.name == name
      {
        if HasName(front, name) {
          var i :| 0 <= i < |front| && front[i].name == name;
          assert B[i].name == name;
        }
        if last.name == name {
          assert B[|B| - 1].name == name;
        }
      }
    }
  }

  /** `rows` has a row called `name` exactly if one of the lists does. */
  lemma RowNames(A: seq<FileSum>, B: seq<FileSum>, rows: seq<Row>, name: Name)
    requires IsOuterJoin(A, B, rows)
    ensures FirstRow(rows, name) < |rows| <==> HasName(A, name) || HasName(B, name)
    ensures HasName(A, name) ==> FirstRow(rows, name) < |A|
  {
    NewNamesMembers(A, B);
    var i := FirstRow(rows, name);
    if HasName(A, name) {
      var j :| 0 <= j < |A| && A[j].name == name;
      assert rows[j].name == name;
    } else if HasName(B, name) {
      var j :| 0 <= j < |NewNames(A, B)| && NewNames(A, B)[j] == name;
      assert rows[|A| + j].name == name;
    } else {
      forall k | 0 <= k < |rows|
        ensures rows[k].name != name
      {
        assert k < |A| ==> A[k].name == rows[k].name;
        assert |A| <= k ==> rows[k].name in NewNames(A, B);
      }
    }
  }

  lemma LastSumAppend(B: seq<FileSum>, f: FileSum, name: Name)
    ensures LastSum(B + [f], name) == if f.name == name then f.sum else LastSum(B, name)
  {
    assert (B + [f])[..|B|] == B;
  }

  lemma NewNamesAppend(A: seq<FileSum>, B: seq<FileSum>, f: FileSum)
    ensures NewNames(A, B + [f])
         == NewNames(A, B) + if HasName(A, f.name) || HasName(B, f.name) then [] else [f.name]
  {
    assert (B + [f])[..|B|] == B;
    NewNamesMembers(A, B);
  }

  lemma AbsorbHit(A: seq<FileSum>, news: seq<Name>, B: seq<FileSum>, rows: seq<Row>, f: FileSum)
    requires Joined(A, news, B, rows) && FirstRow(rows, f.name) < |rows|
    ensures Joined(A, news, B + [f], Absorb(rows, f))
  {
    var at := FirstRow(rows, f.name);
    HitSums(B, rows, rows[at := rows[at].(b := f.sum)], f, at);
    HitNames(A, news, rows, rows[at := rows[at].(b := f.sum)], at);
  }

  lemma HitNames(A: seq<FileSum>, news: seq<Name>, rows: seq<Row>, rows': seq<Row>, at: nat)
    requires NamedRows(A, news, rows) && at < |rows| == |rows'| && rows' == rows[at := rows[at].(b := rows'[at].b)]
    ensures NamedRows(A, news, rows')
  {
  }

  lemma HitSums(B: seq<FileSum>, rows: seq<Row>, rows': seq<Row>, f: FileSum, at: nat)
    requires at == FirstRow(rows, f.name) < |rows| && rows' == rows[at := rows[at].(b := f.sum)] && SumsRight(B, rows)
    ensures SumsRight(B + [f], rows')
  {
    forall i | 0 <= i < |rows'|
      ensures rows'[i].b == SumOfRow(B + [f], rows', i)
    {
      HitRow(B, rows, rows', f, at, i);
    }
  }

  lemma HitRow(B: seq<FileSum>, rows: seq<Row>, rows': seq<Row>, f: FileSum, at: nat, i: nat)
    requires at == FirstRow(rows, f.name) < |rows| && rows' == rows[at := rows[at].(b := f.sum)]
    requires i < |rows| && rows[i].b == SumOfRow(B, rows, i)
    ensures rows'[i].b == SumOfRow(B + [f], rows', i)
  {
    FirstRowSameNames(rows, rows', rows[i].name);
    LastSumAppend(B, f, rows[i].name);
  }

  lemma MissedRow(B: seq<FileSum>, rows: seq<Row>, f: FileSum, i: nat)
    requires FirstRow(rows, f.name) == |rows| && i < |rows|
    ensures SumOfRow(B + [f], rows + [Row(f.name, "", f.sum)], i) == SumOfRow(B, rows, i)
  {
    var name := rows[i].name;
    LastSumAppend(B, f, name);
    assert name != f.name;
    FirstRowIs(rows + [Row(f.name, "", f.sum)], name, FirstRow(rows, name));
  }

  lemma AbsorbMiss(A: seq<FileSum>, news: seq<Name>, B: seq<FileSum>, rows: seq<Row>, f: FileSum)
    requires Joined(A, news, B, rows) && FirstRow(rows, f.name) == |rows|
    ensures Joined(A, news + [f.name], B + [f], Absorb(rows, f))
  {
    MissSums(B, rows, rows + [Row(f.name, "", f.sum)], f);
    MissNames(A, news, rows, f);
  }

  lemma MissNames(A: seq<FileSum>, news: seq<Name>, rows: seq<Row>, f: FileSum)
    requires NamedRows(A, news, rows)
    ensures NamedRows(A, news + [f.name], rows + [Row(f.name, "", f.sum)])
  {
  }

  lemma MissSums(B: seq<FileSum>, rows: seq<Row>, rows': seq<Row>, f: FileSum)
    requires SumsRight(B, rows) && FirstRow(rows, f.name) == |rows| && rows' == rows + [Row(f.name, "", f.sum)]
    ensures SumsRight(B + [f], rows')
  {
    forall i | 0 <= i < |rows'|
      ensures rows'[i].b == SumOfRow(B + [f], rows', i)
    {
      if i < |rows| {
        MissedRow(B, rows, f, i);
      } else {
        FirstRowIs(rows', f.name, |rows|);
        LastSumAppend(B, f, f.name);
      }
    }
  }

  lemma {:induction false} JoinIsOuterJoin(A: seq<FileSum>, B: seq<FileSum>)
    ensures IsOuterJoin(A, B, Join(A, B))
  {
    if B != [] {
      JoinIsOuterJoin(A, B[..|B| - 1]);
      var front, last := B[..|B| - 1], B[|B| - 1];
      var rows, news := Join(A, front), NewNames(A, front);
      assert front + [last] == B;
      RowNames(A, front, rows, last.name);
      NewNamesAppend(A, front, last);
      if FirstRow(rows, last.name) < |rows| {
        AbsorbHit(A, news, front, rows, last);
      } else {
        AbsorbMiss(A, news, front, rows, last);
      }
    }
  }

  /** The loops compute the outer join and nothing else does. */
  lemma JoinExact(A: seq<FileSum>, B: seq<FileSum>, rows: seq<Row>)
    ensures IsOuterJoin(A, B, rows) <==> rows == Join(A, B)
    ensures |A| <= |Join(A, B)| <= |A| + |B|
  {
    JoinIsOuterJoin(A, B);
    NewNamesMembers(A, B);
    var joined := Join(A, B);
    if IsOuterJoin(A, B, rows) {
      forall i | 0 <= i < |rows|
        ensures rows[i] == joined[i]
      {
        FirstRowSameNames(rows, joined, rows[i].name);
      }
    }
  }

  // The status of each file

  /** The comparison in the order in which the server makes it. */
  function StatusOf(clientSum: string, fsSum: string): FileStatus {
    if clientSum == fsSum then Clean
    else if clientSum == "" then ClientLack
    else if fsSum == "" then FsLack
    else Dirty
  }

  function Classify(rows: seq<Row>): (diff: seq<DiffEntry>)
    ensures |diff| == |rows|
    ensures forall i :: 0 <= i < |rows| ==> diff[i] == DiffEntry(rows[i].name, StatusOf(rows[i].b, rows[i].a))
  {
    seq(|rows|, i requires 0 <= i < |rows| => DiffEntry(rows[i].name, StatusOf(rows[i].b, rows[i].a)))
  }

  /** What the metadata server answers to a status request. */
  function DiffOf(fs: seq<FileSum>, client: seq<FileSum>): seq<DiffEntry> {
    Classify(Join(fs, client))
  }

  /** The part of FS_STATUS_OK that compares the two lists. */
  method CompareLists(fs: seq<FileSum>, client: seq<FileSum>) returns (rows: seq<Row>, diff: seq<DiffEntry>)
    ensures rows == Join(fs, client) && diff == DiffOf(fs, client)
  {
    rows := JoinChecksumArrays(fs, client);
    diff := [];
    for i := 0 to |rows|
      invariant diff == Classify(rows)[..i]
    {
      var status;
      if rows[i].b == rows[i].a {
        status := Clean;
      } else if rows[i].b == "" {
        status := ClientLack;
      } else if rows[i].a == "" {
        status := FsLack;
      } else {
        status := Dirty;
      }
      diff := diff + [DiffEntry(rows[i].name, status)];
    }
  }

  ghost predicate GoodList(fs: seq<FileSum>) {
    && (forall i, j :: 0 <= i < j < |fs| ==> fs[i].name != fs[j].name)
    && (forall i :: 0 <= i < |fs| ==> fs[i].sum != "")
  }

  predicate Uploads(s: FileStatus) {
    s == FsLack || s == Dirty
  }

  predicate Downloads(s: FileStatus) {
    s == ClientLack || s == Dirty
  }

  lemma LastSumOf(fs: seq<FileSum>, name: Name)
    requires GoodList(fs)
    ensures LastSum(fs, name) != "" <==> HasName(fs, name)
    ensures forall i :: 0 <= i < |fs| && fs[i].name == name ==> LastSum(fs, name) == fs[i].sum
  {
    if fs != [] {
      var front, last := fs[..|fs| - 1], fs[|fs| - 1];
      LastSumOf(front, name);
      if last.name != name && HasName(fs, name) {
        var i :| 0 <= i < |fs| && fs[i].name == name;
        assert front[i].name == name;
      }
    }
  }

  lemma JoinNamesDistinct(A: seq<FileSum>, B: seq<FileSum>, rows: seq<Row>)
    requires GoodList(A) && IsOuterJoin(A, B, rows)
    ensures forall i, j :: 0 <= i < j < |rows| ==> rows[i].name != rows[j].name
  {
    NewNamesMembers(A, B);
    forall i, j | 0 <= i < j < |rows|
      ensures rows[i].name != rows[j].name
    {
      if i < |A| <= j {
        assert A[i].name == rows[i].name;
        assert rows[j].name in NewNames(A, B);
      }
    }
  }

  /** Each joined row carries both checksums of its file. */
  lemma RowSums(A: seq<FileSum>, B: seq<FileSum>, i: nat)
    requires GoodList(A) && GoodList(B) && i < |Join(A, B)|
    ensures var row := Join(A, B)[i];
      row.a == LastSum(A, row.name) && row.b == LastSum(B, row.name)
  {
    var rows := Join(A, B);
    JoinExact(A, B, rows);
    JoinNamesDistinct(A, B, rows);
    NewNamesMembers(A, B);
    FirstRowIs(rows, rows[i].name, i);
    LastSumOf(A, rows[i].name);
    if i < |A| {
      assert A[i].name == rows[i].name;
    } else {
      assert rows[i].name in NewNames(A, B);
    }
  }

  function Listed(d: seq<DiffEntry>): set<Name> {
    set i | 0 <= i < |d| :: d[i].name
  }

  ghost predicate ListedOnce(d: seq<DiffEntry>) {
    forall i, j :: 0 <= i < j < |d| ==> d[i].name != d[j].name
  }

  function Names(fs: seq<FileSum>): set<Name> {
    set i | 0 <= i < |fs| :: fs[i].name
  }

  /** An entry has the status that the presence and the checksums of its file call for. */
  ghost predicate EntryRight(fs: seq<FileSum>, client: seq<FileSum>, e: DiffEntry) {
    var onFs, onClient := e.name in Names(fs), e.name in Names(client);
    var same := LastSum(fs, e.name) == LastSum(client, e.name);
    && (e.status == ClientLack <==> onFs && !onClient)
    && (e.status == FsLack <==> !onFs && onClient)
    && (e.status == Clean <==> onFs && onClient && same)
    && (e.status == Dirty <==> onFs && onClient && !same)
    && (Uploads(e.status) && Downloads(e.status) <==> onFs && onClient && !same)
  }

  lemma NamesAre(fs: seq<FileSum>, name: Name)
    ensures name in Names(fs) <==> HasName(fs, name)
  {
  }

  lemma DiffLists(fs: seq<FileSum>, client: seq<FileSum>)
    ensures Listed(DiffOf(fs, client)) == Names(fs) + Names(client)
  {
    var d, rows := DiffOf(fs, client), Join(fs, client);
    JoinExact(fs, client, rows);
    forall name
      ensures name in Listed(d) <==> HasName(fs, name) || HasName(client, name)
    {
      RowNames(fs, client, rows, name);
      if name in Listed(d) {
        var i :| 0 <= i < |d| && d[i].name == name;
        assert rows[i].name == name;
      }
      if FirstRow(rows, name) < |rows| {
        assert d[FirstRow(rows, name)].name == name;
      }
    }
  }

  lemma DiffEntryRight(fs: seq<FileSum>, client: seq<FileSum>, i: nat)
    requires GoodList(fs) && GoodList(client) && i < |DiffOf(fs, client)|
    ensures EntryRight(fs, client, DiffOf(fs, client)[i])
  {
    var name := Join(fs, client)[i].name;
    RowSums(fs, client, i);
    LastSumOf(fs, name);
    LastSumOf(client, name);
    NamesAre(fs, name);
    NamesAre(client, name);
    JoinExact(fs, client, Join(fs, client));
    RowNames(fs, client, Join(fs, client), name);
  }

  /** Every file of either list is reported once, with the status that its two
      checksums call for; a file is both uploaded and downloaded exactly if it is on
      both sides with different checksums. */
  lemma DiffCorrect(fs: seq<FileSum>, client: seq<FileSum>)
    requires GoodList(fs) && GoodList(client)
    ensures var d := DiffOf(fs, client);
      && ListedOnce(d) && Listed(d) == Names(fs) + Names(client)
      && forall i :: 0 <= i < |d| ==> EntryRight(fs, client, d[i])
  {
    JoinExact(fs, client, Join(fs, client));
    JoinNamesDistinct(fs, client, Join(fs, client));
    DiffLists(fs, client);
    forall i | 0 <= i < |DiffOf(fs, client)|
      ensures EntryRight(fs, client, DiffOf(fs, client)[i])
    {
      DiffEntryRight(fs, client, i);
    }
  }
}
