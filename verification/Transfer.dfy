/** File transfer over a data channel: a sender that cuts files into packets
    (uv_client_upload, uv_fs_download) and a receiver that rebuilds them
    (download_client_on_message, upload_fs_on_message). */
module Transfer {
  import opened Bytes
  import opened Checksums

  const SCTP_BUF_SIZE := 1208
  const MAX_CHUNK := 1207
  const FILE_NAME_SIZE := 32
  const NEWLINE: byte := 10

  type Store = map<Name, seq<byte>>

  /** `struct sctp_packet_t` */
  datatype Packet = Packet(index: int, buf: seq<byte>, bufLen: nat)

  /** What `diff_info_t.filename` holds. */
  predicate FitsName(name: Name) {
    NulFree(name) && |name| < FILE_NAME_SIZE
  }

  /** The cleared packet buffer after a text was written to it. */
  function Padded(text: seq<byte>): (buf: seq<byte>)
    requires |text| <= SCTP_BUF_SIZE
    ensures |buf| == SCTP_BUF_SIZE
  {
    text + seq(SCTP_BUF_SIZE - |text|, _ => 0)
  }

  lemma {:induction false} UntilNulIs(s: seq<byte>, n: nat)
    requires n < |s| && s[n] == 0 && NulFree(s[..n])
    ensures UntilNul(s) == s[..n]
  {
    if n > 0 {
      assert s[..n][0] == s[0] && s[1..][..n - 1] == s[..n][1..];
      UntilNulIs(s[1..], n - 1);
    }
  }

  lemma PaddedText(text: seq<byte>)
    requires |text| < SCTP_BUF_SIZE
    ensures UntilNul(Padded(text)) == UntilNul(text)
  {
    var n := |UntilNul(text)|;
    assert Padded(text)[..n] == text[..n];
    UntilNulIs(Padded(text), n);
  }

  // Reading lines

  /** Where `fgets` stops that has read `k` bytes of `s`. */
  function StopAt(s: seq<byte>, k: nat): (n: nat)
    requires k < |s| && k < MAX_CHUNK
    ensures k < n <= |s| && n <= MAX_CHUNK
    ensures n == |s| || n == MAX_CHUNK || s[n - 1] == NEWLINE
    ensures forall i :: k <= i < n - 1 ==> s[i] != NEWLINE
    decreases |s| - k
  {
    if s[k] == NEWLINE || k + 1 == |s| || k + 1 == MAX_CHUNK then k + 1 else StopAt(s, k + 1)
  }

  /** The length of the first chunk of a non-empty file. */
  function ChunkSize(s: seq<byte>): (n: nat)
    requires s != []
    ensures 1 <= n <= |s| && n <= MAX_CHUNK
  {
    StopAt(s, 0)
  }

  /** A `FILE *` opened for reading. */
  class InputFile {
    const content: seq<byte>
    var pos: nat
    var eof: bool

    ghost predicate Valid()
      reads this
    {
      pos <= |content| && (eof ==> pos == |content|)
    }

    constructor (content: seq<byte>)
      ensures Valid() && this.content == content && pos == 0 && !eof
    {
      this.content, pos, eof := content, 0, false;
    }

    /** `fgets` with a buffer of SCTP_BUF_SIZE bytes; no line means NULL.  The end is
        noticed only by a read that runs into it. */
    method Gets() returns (line: seq<byte>)
      requires Valid() && !eof
      modifies this
      ensures Valid()
      ensures old(pos) == |content| ==> line == [] && eof
      ensures old(pos) < |content| ==>
        var n := ChunkSize(content[old(pos)..]);
        line == content[old(pos)..old(pos) + n] && pos == old(pos) + n
    {
      line := [];
      ghost var rest := content[pos..];
      while |line| < MAX_CHUNK
        invariant old(pos) <= pos <= |content| && line == content[old(pos)..pos] && !eof
        invariant |line| <= MAX_CHUNK
        invariant line != [] ==> if |line| < |rest| && |line| < MAX_CHUNK
                                 then StopAt(rest, |line|) == ChunkSize(rest) else |line| == ChunkSize(rest)
        invariant rest == content[old(pos)..]
        decreases MAX_CHUNK - |line|
      {
        if pos == |content| {
          eof := true;
          return;
        }
        var c := content[pos];
        line := line + [c];
        pos := pos + 1;
        if c == NEWLINE {
          return;
        }
      }
    }
  }

  // The sender

  function Header(name: Name): Packet
    requires FitsName(name)
  {
    Packet(0, Padded(name), 0)
  }

  function DataPacket(index: nat, chunk: seq<byte>): Packet
    requires |chunk| <= MAX_CHUNK
  {
    Packet(index, Padded(chunk), |UntilNul(Padded(chunk))|)
  }

  const TRAILER := Packet(-1, Padded([]), 0)

  /** The data packets of what is left of a file, numbered from `index`. */
  function DataPackets(rest: seq<byte>, index: nat): (ps: seq<Packet>)
    ensures forall i :: 0 <= i < |ps| ==> ps[i].index >= index && ps[i].bufLen <= |ps[i].buf|
    decreases |rest|
  {
    if rest == [] then []
    else
      var n := ChunkSize(rest);
      [DataPacket(index, rest[..n])] + DataPackets(rest[n..], index + 1)
  }

  function FileTrace(name: Name, content: seq<byte>): seq<Packet>
    requires FitsName(name)
  {
    [Header(name)] + DataPackets(content, 1) + [TRAILER]
  }

  datatype Direction = Upload | Download {
    predicate Takes(s: FileStatus) {
      if Upload? then Uploads(s) else Downloads(s)
    }
  }

  ghost predicate FitNames(diff: seq<DiffEntry>) {
    forall i :: 0 <= i < |diff| ==> FitsName(diff[i].name)
  }

  /** All packets for a diff list; a file that cannot be opened is skipped. */
  function Trace(way: Direction, diff: seq<DiffEntry>, src: Store): seq<Packet>
    requires FitNames(diff)
  {
    if diff == [] then []
    else
      var last := diff[|diff| - 1];
      Trace(way, diff[..|diff| - 1], src)
      + if way.Takes(last.status) && last.name in src then FileTrace(last.name, src[last.name]) else []
  }

  /** The inner loop of the senders: what is read is sent. */
  method SendLines(file: InputFile) returns (sent: seq<Packet>)
    requires file.Valid() && file.pos == 0 && !file.eof
    modifies file
    ensures sent == DataPackets(file.content, 1)
  {
    sent := [];
    var index := 0;
    while !file.eof
      invariant file.Valid()
      invariant DataPackets(file.content, 1) == sent + DataPackets(file.content[file.pos..], index + 1)
      decreases |file.content| - file.pos, !file.eof
    {
      index := index + 1;
      ghost var rest := file.content[file.pos..];
      var line := file.Gets();
      if |line| == 0 {
        return;
      }
      var buf := Padded(line);
      var packet := Packet(index, buf, |UntilNul(buf)|);
      LineIsChunk(file.content, |file.content| - |rest|, file.pos, line);
      NextPacket(rest, line, file.content[file.pos..], index, packet, sent);
      sent := sent + [packet];
    }
  }

  lemma LineIsChunk(content: seq<byte>, from: nat, to: nat, line: seq<byte>)
    requires from < |content| && to == from + ChunkSize(content[from..]) && line == content[from..to]
    ensures line == content[from..][..ChunkSize(content[from..])]
    ensures content[to..] == content[from..][ChunkSize(content[from..])..]
  {
  }

  lemma NextPacket(rest: seq<byte>, line: seq<byte>, left: seq<byte>, index: nat, packet: Packet, sent: seq<Packet>)
    requires rest != [] && line == rest[..ChunkSize(rest)] && left == rest[ChunkSize(rest)..]
    requires packet == DataPacket(index, line)
    ensures sent + DataPackets(rest, index) == sent + [packet] + DataPackets(left, index + 1)
  {
  }

  /** The body of the sender's loop for a file that opened. */
  method SendFile(name: Name, content: seq<byte>) returns (sent: seq<Packet>)
    requires FitsName(name)
    ensures sent == FileTrace(name, content)
  {
    var file := new InputFile(content);
    sent := [Packet(0, Padded(name), 0)];
    var lines := SendLines(file);
    sent := sent + lines + [Packet(-1, Padded([]), 0)];
  }

  /** `uv_client_upload` and `uv_fs_download` */
  method SendFiles(way: Direction, diff: seq<DiffEntry>, src: Store) returns (sent: seq<Packet>)
    requires FitNames(diff)
    ensures sent == Trace(way, diff, src)
  {
    sent := [];
    for i := 0 to |diff|
      invariant sent == Trace(way, diff[..i], src)
    {
      assert diff[..i + 1][..i] == diff[..i];
      if way.Takes(diff[i].status) && diff[i].name in src {
        var packets := SendFile(diff[i].name, src[diff[i].name]);
        sent := sent + packets;
      }
    }
    assert diff[..|diff|] == diff;
  }

  // The receiver

  /** The receiver's repository and its static file pointer. */
  datatype Sink = Sink(store: Store, open: Option<Name>)

  function Accept(s: Sink, p: Packet): Sink
    requires p.bufLen <= |p.buf|
  {
    if p.index == 0 then Sink(s.store[UntilNul(p.buf) := []], Some(UntilNul(p.buf)))
    else if p.index == -1 then s.(open := None)
    else if p.index > 0 && s.open.Some? && s.open.value in s.store then
      s.(store := s.store[s.open.value := s.store[s.open.value] + p.buf[..p.bufLen]])
    else s
  }

  /** `download_client_on_message` and `upload_fs_on_message` */
  class Receiver {
    var store: Store
    var pFile: Option<Name>

    ghost predicate Valid()
      reads this
    {
      pFile.Some? ==> pFile.value in store
    }

    function View(): Sink
      reads this
    {
      Sink(store, pFile)
    }

    constructor (store: Store)
      ensures Valid() && View() == Sink(store, None)
    {
      this.store, pFile := store, None;
    }

    method OnMessage(p: Packet)
      requires Valid() && p.bufLen <= |p.buf|
      requires Playable(View(), [p])
      modifies this
      ensures Valid() && View() == Accept(old(View()), p)
    {
      assert [p][..0] == [];
      if p.index == 0 {
        var name := UntilNul(p.buf);
        store := store[name := []];
        pFile := Some(name);
      } else if p.index == -1 {
        pFile := None;
      } else if p.index > 0 {
        store := store[pFile.value := store[pFile.value] + p.buf[..p.bufLen]];
      }
    }
  }

  /** The packets of `ps` that SCTP takes; `v` holds its verdicts. */
  function Deliver(ps: seq<Packet>, v: seq<bool>): seq<Packet>
    requires |v| == |ps|
  {
    if ps == [] then []
    else
      var n := |ps| - 1;
      Deliver(ps[..n], v[..n]) + if v[n] then [ps[n]] else []
  }

  ghost predicate Bounded(ps: seq<Packet>) {
    forall i :: 0 <= i < |ps| ==> ps[i].bufLen <= |ps[i].buf|
  }

  function AcceptAll(s: Sink, ps: seq<Packet>): Sink
    requires Bounded(ps)
  {
    if ps == [] then s else Accept(AcceptAll(s, ps[..|ps| - 1]), ps[|ps| - 1])
  }

  /** The receiver never writes to or closes a file that is not open. */
  ghost predicate Playable(s: Sink, ps: seq<Packet>)
    requires Bounded(ps)
  {
    ps != [] ==>
      var last := ps[|ps| - 1];
      && Playable(s, ps[..|ps| - 1])
      && (last.index > 0 || last.index == -1 ==> AcceptAll(s, ps[..|ps| - 1]).open.Some?)
  }
}
