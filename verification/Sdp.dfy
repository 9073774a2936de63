/** Session descriptions: the printer of src/sdp.c and the parser of src/rtcdc.c. */
module Sdp {
  import opened Channels
  import opened Text

  const BUFFER_SIZE := 65536
  const CRLF := "\r\n"
  const SETUP := "a=setup:"
  const MEDIA := "m=application"

  // The printer

  predicate IsIce(line: string) {
    "a=ice-ufrag:" <= line || "a=ice-pwd:" <= line
  }

  function IceLines(lines: seq<string>): seq<string> {
    if lines == [] then []
    else IceLines(lines[..|lines| - 1]) + if IsIce(lines[|lines| - 1]) then [lines[|lines| - 1]] else []
  }

  /** What libnice and OpenSSL put into a description, and the random session number. */
  datatype Local = Local(sessid: string, ice: string, fingerprint: string)

  /** The session number is digits and the fingerprint hexadecimal: no line ends. */
  predicate OneLine(local: Local) {
    '\n' !in local.sessid && '\n' !in local.fingerprint
  }

  function SetupLine(role: Role): string {
    if role.Client? then "a=setup:active" else "a=setup:passive"
  }

  function Head(local: Local): seq<string> {
    ["v=0", "o=- " + local.sessid + " 2 IN IP4 127.0.0.1", "s=-", "t=0 0", "a=msid-semantic: WMS"]
  }

  function MediaLine(port: int): string {
    "m=application 1 DTLS/SCTP " + Decimal(port)
  }

  function Middle(local: Local): seq<string> {
    ["c=IN IP4 0.0.0.0"] + IceLines(Split(local.ice, "\n")) + ["a=fingerprint:sha-256 " + local.fingerprint]
  }

  function Tail(port: int): seq<string> {
    ["a=mid:data", "a=sctpmap:" + Decimal(port) + " webrtc-datachannel 1024"]
  }

  function PrintedLines(role: Role, port: int, local: Local): seq<string> {
    Head(local) + [MediaLine(port)] + Middle(local) + [SetupLine(role)] + Tail(port)
  }

  function Printed(role: Role, port: int, local: Local): string {
    Lines(PrintedLines(role, port, local), CRLF)
  }

  // The parser

  /** `Crashed`: a media line has no fourth column, and `atoi` gets no string. */
  datatype Status = Reading | Refused | Crashed

  /** What the parser changes: the peer's role, `sctp->remote_port`, and the text for
      libnice. */
  datatype Parse = Parse(role: Role, remotePort: int, text: string, status: Status)

  predicate IsMedia(line: string) {
    MEDIA <= line
  }

  predicate IsSetup(line: string) {
    SETUP <= line
  }

  function NewRole(role: Role, setup: string): Role {
    if setup == "active" && role.Client? then Server
    else if setup == "passive" && role.Server? then Client
    else role
  }

  /** The text between the first and the second colon. */
  function Setup(line: string): string
    requires IsSetup(line)
  {
    if |Pieces(line, ":")| > 1 then Pieces(line, ":")[1] else ""
  }

  function ReadLine(p: Parse, line: string): Parse {
    if IsMedia(line) then
      var columns := Split(line, " ");
      if |columns| < 4 then p.(status := Crashed)
      else if Atoi(columns[3]) <= 0 then p.(status := Refused)
      else p.(remotePort := Atoi(columns[3]), text := p.text + line + "\n")
    else if IsSetup(line) then p.(role := NewRole(p.role, Setup(line)), text := p.text + line + "\n")
    else p.(text := p.text + line + "\n")
  }

  function ReadLines(p: Parse, lines: seq<string>): Parse {
    if lines == [] then p
    else
      var q := ReadLines(p, lines[..|lines| - 1]);
      if q.status.Reading? then ReadLine(q, lines[|lines| - 1]) else q
  }

  function Parsed(role: Role, remotePort: int, offer: string): Parse {
    ReadLines(Parse(role, remotePort, "", Reading), Split(offer, CRLF))
  }

  // The same on the peer's fields and the two buffers

  /** `sprintf(buf + pos, …)` */
  method Append(buf: array<char>, pos: nat, s: string) returns (end: nat)
    requires pos + |s| <= buf.Length
    modifies buf
    ensures end == pos + |s| && buf[..end] == old(buf[..pos]) + s
  {
    var i := 0;
    while i < |s|
      invariant i <= |s|
      invariant buf[..pos + i] == old(buf[..pos]) + s[..i]
    {
      buf[pos + i] := s[i];
      i := i + 1;
    }
    assert s[..i] == s;
    end := pos + |s|;
  }

  method Rewrite(buf: array<char>, pos: nat, line: string) returns (end: nat)
    requires pos + |line| + 1 <= buf.Length
    modifies buf
    ensures end == pos + |line| + 1 && buf[..end] == old(buf[..pos]) + line + "\n"
  {
    end := Append(buf, pos, line);
    end := Append(buf, end, "\n");
  }

  class Endpoint {
    var role: Role
    var localPort: int
    var remotePort: int

    constructor (role: Role, localPort: int)
      ensures this.role == role && this.localPort == localPort && remotePort == 0
    {
      this.role, this.localPort, remotePort := role, localPort, 0;
    }

    /** `generate_local_sdp`; the buffer is not checked, so the text must fit. */
    method GenerateSdp(local: Local) returns (sdp: string)
      requires |Printed(role, localPort, local)| < BUFFER_SIZE
      ensures sdp == Printed(role, localPort, local)
    {
      sdp := Generate(role, localPort, local);
    }

    /** `rtcdc_parse_offer_sdp` up to the call of libnice, which gets `text`. */
    method ParseOfferSdp(offer: string) returns (status: Status, text: string)
      requires |Parsed(role, remotePort, offer).text| < BUFFER_SIZE
      modifies this`role, this`remotePort
      ensures Parse(role, remotePort, text, status) == Parsed(old(role), old(remotePort), offer)
    {
      ghost var start := Parse(role, remotePort, "", Reading);
      var lines := Split(offer, CRLF);
      var buf := new char[BUFFER_SIZE];
      var pos: nat, i := 0, 0;
      while i < |lines|
        invariant i <= |lines| && pos <= buf.Length && fresh(buf)
        invariant Parse(role, remotePort, buf[..pos], Reading) == ReadLines(start, lines[..i])
      {
        var line := lines[i];
        NextLine(start, lines, i);
        if IsMedia(line) {
          var columns := Split(line, " ");
          if |columns| < 4 {
            StopsThere(start, lines, i + 1);
            return Crashed, buf[..pos];
          }
          var port := Atoi(columns[3]);
          if port <= 0 {
            StopsThere(start, lines, i + 1);
            return Refused, buf[..pos];
          }
          remotePort := port;
        } else if IsSetup(line) {
          role := NewRole(role, Setup(line));
        }
        pos := Rewrite(buf, pos, line);
        i := i + 1;
      }
      assert lines[..i] == lines;
      return Reading, buf[..pos];
    }
  }

  lemma NextLine(p: Parse, lines: seq<string>, i: nat)
    requires i < |lines| && ReadLines(p, lines[..i]).status.Reading?
    ensures ReadLines(p, lines[..i + 1]) == ReadLine(ReadLines(p, lines[..i]), lines[i])
    ensures |ReadLines(p, lines[..i + 1]).text| <= |ReadLines(p, lines).text|
  {
    assert lines[..i + 1][..i] == lines[..i];
    TextGrows(p, lines, i + 1);
  }

  /** The text only grows, so what fits at the end fits on the way. */
  lemma {:induction false} TextGrows(p: Parse, lines: seq<string>, i: nat)
    requires i <= |lines|
    ensures |ReadLines(p, lines[..i]).text| <= |ReadLines(p, lines).text|
    decreases |lines| - i
  {
    if i < |lines| {
      assert lines[..i + 1][..i] == lines[..i];
      TextGrows(p, lines, i + 1);
    } else {
      assert lines[..i] == lines;
    }
  }

  /** After a bad media line nothing is read. */
  lemma {:induction false} StopsThere(p: Parse, lines: seq<string>, i: nat)
    requires i <= |lines| && !ReadLines(p, lines[..i]).status.Reading?
    ensures ReadLines(p, lines) == ReadLines(p, lines[..i])
    decreases |lines| - i
  {
    if i < |lines| {
      assert lines[..i + 1][..i] == lines[..i];
      StopsThere(p, lines, i + 1);
    } else {
      assert lines[..i] == lines;
    }
  }

  /** Which line of a description is where. */
  ghost predicate Parts(all: seq<string>, role: Role, port: int, local: Local) {
    var ice := IceLines(Split(local.ice, "\n"));
    && |all| == 11 + |ice| && all[..5] == Head(local) && all[7..7 + |ice|] == ice
    && all[5] == MediaLine(port) && all[6] == "c=IN IP4 0.0.0.0"
    && all[7 + |ice|] == "a=fingerprint:sha-256 " + local.fingerprint && all[8 + |ice|] == SetupLine(role)
    && all[9 + |ice|] == Tail(port)[0] && all[10 + |ice|] == Tail(port)[1]
  }

  method Generate(role: Role, port: int, local: Local) returns (sdp: string)
    requires |Printed(role, port, local)| < BUFFER_SIZE
    ensures sdp == Printed(role, port, local)
  {
    var buf := new char[BUFFER_SIZE];
    ghost var all := PrintedLines(role, port, local);
    PrintedParts(role, port, local);
    var pos := Print(buf, all, role, port, local);
    sdp := buf[..pos];
  }

  method Print(buf: array<char>, ghost all: seq<string>, role: Role, port: int, local: Local) returns (pos: nat)
    requires Parts(all, role, port, local) && |Lines(all, CRLF)| < buf.Length
    modifies buf
    ensures pos <= buf.Length && buf[..pos] == Lines(all, CRLF)
  {
    pos := PrintStart(buf, all, port, local);
    pos := PrintIce(buf, pos, all, 7, local.ice);
    pos := PrintTail(buf, pos, all, |all| - 4, role, port, local);
    assert all[..|all|] == all;
  }

  method PrintStart(buf: array<char>, ghost all: seq<string>, port: int, local: Local) returns (pos: nat)
    requires |all| >= 7 && all[..5] == Head(local) && all[5] == MediaLine(port) && all[6] == "c=IN IP4 0.0.0.0"
    requires |Lines(all, CRLF)| < buf.Length
    modifies buf
    ensures pos <= buf.Length && buf[..pos] == Lines(all[..7], CRLF)
  {
    pos := PrintHead(buf, all, local);
    pos := PrintLine(buf, pos, all, 5, "m=application 1 DTLS/SCTP " + Decimal(port));
    pos := PrintLine(buf, pos, all, 6, "c=IN IP4 0.0.0.0");
  }

  method PrintTail(buf: array<char>, start: nat, ghost all: seq<string>, ghost n: nat, role: Role, port: int,
      local: Local)
    returns (pos: nat)
    requires n + 4 == |all| && all[n] == "a=fingerprint:sha-256 " + local.fingerprint && all[n + 1] == SetupLine(role)
    requires all[n + 2] == Tail(port)[0] && all[n + 3] == Tail(port)[1]
    requires |Lines(all, CRLF)| < buf.Length && start <= buf.Length && buf[..start] == Lines(all[..n], CRLF)
    modifies buf
    ensures pos <= buf.Length && buf[..pos] == Lines(all[..n + 4], CRLF)
  {
    pos := PrintLine(buf, start, all, n, "a=fingerprint:sha-256 " + local.fingerprint);
    if role.Client? {
      pos := PrintLine(buf, pos, all, n + 1, "a=setup:active");
    } else {
      pos := PrintLine(buf, pos, all, n + 1, "a=setup:passive");
    }
    pos := PrintLine(buf, pos, all, n + 2, "a=mid:data");
    pos := PrintLine(buf, pos, all, n + 3, "a=sctpmap:" + Decimal(port) + " webrtc-datachannel 1024");
  }

  lemma PrintedParts(role: Role, port: int, local: Local)
    ensures Parts(PrintedLines(role, port, local), role, port, local)
  {
    var ice := IceLines(Split(local.ice, "\n"));
    PartsAt(Head(local), MediaLine(port), "c=IN IP4 0.0.0.0", ice,
            "a=fingerprint:sha-256 " + local.fingerprint, SetupLine(role), Tail(port)[0], Tail(port)[1]);
    assert Tail(port) == [Tail(port)[0], Tail(port)[1]];
  }

  lemma PartsAt(head: seq<string>, a: string, b: string, ice: seq<string>, c: string, d: string, e: string, f: string)
    requires |head| == 5
    ensures var all, n := head + [a] + ([b] + ice + [c]) + [d] + [e, f], |ice|;
      && |all| == 11 + n && all[..5] == head && all[7..7 + n] == ice && all[5] == a && all[6] == b
      && all[7 + n] == c && all[8 + n] == d && all[9 + n] == e && all[10 + n] == f
  {
  }

  method PrintHead(buf: array<char>, ghost all: seq<string>, local: Local) returns (pos: nat)
    requires |all| >= 5 && all[..5] == Head(local) && |Lines(all, CRLF)| < buf.Length
    modifies buf
    ensures pos <= buf.Length && buf[..pos] == Lines(all[..5], CRLF)
  {
    assert forall k :: 0 <= k < 5 ==> all[k] == all[..5][k];
    pos := PrintLine(buf, 0, all, 0, "v=0");
    pos := PrintLine(buf, pos, all, 1, "o=- " + local.sessid + " 2 IN IP4 127.0.0.1");
    pos := PrintLine(buf, pos, all, 2, "s=-");
    pos := PrintLine(buf, pos, all, 3, "t=0 0");
    pos := PrintLine(buf, pos, all, 4, "a=msid-semantic: WMS");
  }

  /** The loop over libnice's lines. */
  method PrintIce(buf: array<char>, start: nat, ghost all: seq<string>, ghost at: nat, ice: string) returns (pos: nat)
    requires at + |IceLines(Split(ice, "\n"))| <= |all|
    requires all[at..at + |IceLines(Split(ice, "\n"))|] == IceLines(Split(ice, "\n"))
    requires |Lines(all, CRLF)| < buf.Length && start <= buf.Length && buf[..start] == Lines(all[..at], CRLF)
    modifies buf
    ensures pos <= buf.Length && buf[..pos] == Lines(all[..at + |IceLines(Split(ice, "\n"))|], CRLF)
  {
    var lines := Split(ice, "\n");
    pos := start;
    var i := 0;
    ghost var n := at;
    while i < |lines|
      invariant i <= |lines| && pos <= buf.Length && n == at + |IceLines(lines[..i])| <= |all|
      invariant buf[..pos] == Lines(all[..n], CRLF)
    {
      IceNext(lines, i, all, at);
      pos := PrintIfIce(buf, pos, all, n, lines[i]);
      n := if IsIce(lines[i]) then n + 1 else n;
      i := i + 1;
    }
    assert lines[..i] == lines;
  }

  method PrintIfIce(buf: array<char>, start: nat, ghost all: seq<string>, ghost n: nat, line: string) returns (pos: nat)
    requires IsIce(line) ==> n < |all| && all[n] == line
    requires n <= |all| && |Lines(all, CRLF)| < buf.Length && start <= buf.Length && buf[..start] == Lines(all[..n], CRLF)
    modifies buf
    ensures pos <= buf.Length && buf[..pos] == Lines(all[..if IsIce(line) then n + 1 else n], CRLF)
  {
    pos := start;
    if IsIce(line) {
      pos := PrintLine(buf, pos, all, n, line);
    }
  }

  /** One line of the printer: line `i` of `all`, which fits as a whole. */
  method PrintLine(buf: array<char>, pos: nat, ghost all: seq<string>, ghost i: nat, line: string) returns (end: nat)
    requires i < |all| && line == all[i] && |Lines(all, CRLF)| < buf.Length
    requires pos <= buf.Length && buf[..pos] == Lines(all[..i], CRLF)
    modifies buf
    ensures end <= buf.Length && buf[..end] == Lines(all[..i + 1], CRLF)
  {
    LinesPrefix(all, i + 1, CRLF);
    assert all[..i + 1][..i] == all[..i];
    end := Append(buf, pos, line);
    end := Append(buf, end, CRLF);
  }

  lemma LinesPrefix(lines: seq<string>, i: nat, end: string)
    requires i <= |lines|
    ensures |Lines(lines[..i], end)| <= |Lines(lines, end)|
  {
    LinesAppend(lines[..i], lines[i..], end);
    assert lines == lines[..i] + lines[i..];
  }

  lemma {:induction false} IcePrefix(lines: seq<string>, i: nat)
    requires i <= |lines|
    ensures IceLines(lines[..i]) <= IceLines(lines)
    decreases |lines| - i
  {
    if i < |lines| {
      assert lines[..i + 1][..i] == lines[..i];
      IcePrefix(lines, i + 1);
    } else {
      assert lines[..i] == lines;
    }
  }

  /** The next line of the printer's loop is the next of the selected lines. */
  lemma IceNext(lines: seq<string>, i: nat, all: seq<string>, at: nat)
    requires i < |lines| && at + |IceLines(lines)| <= |all| && all[at..at + |IceLines(lines)|] == IceLines(lines)
    ensures var k := |IceLines(lines[..i])|;
      && |IceLines(lines[..i + 1])| == (if IsIce(lines[i]) then k + 1 else k) <= |IceLines(lines)|
      && (IsIce(lines[i]) ==> at + k < |all| && all[at + k] == lines[i])
  {
    var selected, k := IceLines(lines), |IceLines(lines[..i])|;
    assert lines[..i + 1][..i] == lines[..i];
    IcePrefix(lines, i + 1);
    if IsIce(lines[i]) {
      assert all[at + k] == all[at..at + |selected|][k];
      assert IceLines(lines[..i + 1])[k] == lines[i];
    }
  }
}
