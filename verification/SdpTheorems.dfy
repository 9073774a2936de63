/** What the parser makes of any offer, and of the descriptions that the printer makes. */
module SdpTheorems {
  import opened Bytes
  import opened Channels
  import opened Sdp
  import opened Text

  // The rewritten text

  lemma {:induction false} TextOf(p: Parse, lines: seq<string>)
    requires ReadLines(p, lines).status.Reading?
    ensures ReadLines(p, lines).text == p.text + Lines(lines, "\n")
  {
    if lines != [] {
      TextOf(p, lines[..|lines| - 1]);
    }
  }

  /** An offer that is read to its end is handed on with every CRLF turned into LF and
      one LF after it. */
  lemma RewrittenExact(role: Role, remotePort: int, offer: string)
    requires Parsed(role, remotePort, offer).status.Reading? && offer != ""
    ensures var text := Parsed(role, remotePort, offer).text;
      && text == Replaced(offer, CRLF, "\n") + "\n"
      && |text| == |offer| - Occurrences(offer, CRLF) + 1
      && (|text| < BUFFER_SIZE <==> |offer| <= 65534 + Occurrences(offer, CRLF))
  {
    TextOf(Parse(role, remotePort, "", Reading), Split(offer, CRLF));
    PiecesReplaced(offer, CRLF, "\n");
    ReplacedLength(offer, CRLF, "\n");
  }

  // Ports and roles

  /** The number in the fourth column of a media line, if there is one. */
  predicate GoodMedia(line: string) {
    |Split(line, " ")| >= 4 && Atoi(Split(line, " ")[3]) > 0
  }

  /** How many lines are read before a bad media line stops the parser. */
  function ReadUntil(lines: seq<string>): (n: nat)
    ensures n <= |lines|
    ensures forall i :: 0 <= i < n && "m=application" <= lines[i] ==> GoodMedia(lines[i])
    ensures n < |lines| ==> "m=application" <= lines[n] && !GoodMedia(lines[n])
  {
    if lines == [] || ("m=application" <= lines[0] && !GoodMedia(lines[0])) then 0 else 1 + ReadUntil(lines[1..])
  }

  /** The line is a setup line with this text between its first two colons. */
  predicate SetupIs(line: string, value: string) {
    "a=setup:" <= line && |Pieces(line, ":")| > 1 && Pieces(line, ":")[1] == value
  }

  /** The role of the peer that wrote the last setup line with a definite role. */
  function LastSetup(lines: seq<string>): Option<Role> {
    if lines == [] then None
    else if SetupIs(lines[|lines| - 1], "active") then Some(Client)
    else if SetupIs(lines[|lines| - 1], "passive") then Some(Server)
    else LastSetup(lines[..|lines| - 1])
  }

  function LastPort(lines: seq<string>): Option<int> {
    if lines == [] then None
    else if "m=application" <= lines[|lines| - 1] && |Split(lines[|lines| - 1], " ")| >= 4 then
      Some(Atoi(Split(lines[|lines| - 1], " ")[3]))
    else LastPort(lines[..|lines| - 1])
  }

  lemma MediaIsNoSetup(line: string)
    ensures !(IsMedia(line) && IsSetup(line))
  {
    assert MEDIA[0] == 'm' && SETUP[0] == 'a';
    assert IsMedia(line) ==> line[0] == MEDIA[0];
    assert IsSetup(line) ==> line[0] == SETUP[0];
  }

  /** Lines without a bad media line are all read. */
  lemma {:induction false} GoodLines(p: Parse, lines: seq<string>)
    requires p.status.Reading? && forall i :: 0 <= i < |lines| && IsMedia(lines[i]) ==> GoodMedia(lines[i])
    ensures var q := ReadLines(p, lines);
      && q.status.Reading?
      && q.role == (if LastSetup(lines).Some? then LastSetup(lines).value.Opposite() else p.role)
      && q.remotePort == (if LastPort(lines).Some? then LastPort(lines).value else p.remotePort)
  {
    if lines != [] {
      var init := lines[..|lines| - 1];
      assert forall i :: 0 <= i < |init| ==> init[i] == lines[i];
      GoodLines(p, init);
      MediaIsNoSetup(lines[|lines| - 1]);
    }
  }

  /** Everything the parser does to any offer.  It stops at the first bad media line;
      of what it read, the last definite setup line decides the role, which is the
      opposite of the other peer's and otherwise as before; the last media line decides
      the port. */
  lemma ParsedExact(role: Role, remotePort: int, offer: string)
    ensures var lines := Split(offer, CRLF);
      var n, q := ReadUntil(lines), Parsed(role, remotePort, offer);
      var read := lines[..n];
      && q.status == (if n == |lines| then Reading else if |Split(lines[n], " ")| < 4 then Crashed else Refused)
      && q.role == (if LastSetup(read).Some? then LastSetup(read).value.Opposite() else role)
      && q.remotePort == (if LastPort(read).Some? then LastPort(read).value else remotePort)
      && q.text == Lines(read, "\n")
  {
    ReadsUntil(Parse(role, remotePort, "", Reading), Split(offer, CRLF));
  }

  lemma ReadsUntil(p: Parse, lines: seq<string>)
    requires p.status.Reading? && p.text == ""
    ensures var n, q := ReadUntil(lines), ReadLines(p, lines);
      var read := lines[..n];
      && q.status == (if n == |lines| then Reading else if |Split(lines[n], " ")| < 4 then Crashed else Refused)
      && q.role == (if LastSetup(read).Some? then LastSetup(read).value.Opposite() else p.role)
      && q.remotePort == (if LastPort(read).Some? then LastPort(read).value else p.remotePort)
      && q.text == Lines(read, "\n")
  {
    var n := ReadUntil(lines);
    GoodLines(p, lines[..n]);
    TextOf(p, lines[..n]);
    if n < |lines| {
      assert lines[..n + 1][..n] == lines[..n];
      StopsThere(p, lines, n + 1);
    } else {
      assert lines[..n] == lines;
    }
  }

  // Descriptions of the printer

  predicate Plain(line: string) {
    !IsMedia(line) && !IsSetup(line)
  }

  lemma {:induction false} ReadAppend(p: Parse, a: seq<string>, b: seq<string>)
    requires ReadLines(p, a).status.Reading?
    ensures ReadLines(p, a + b) == ReadLines(ReadLines(p, a), b)
    decreases |b|
  {
    if b == [] {
      assert a + b == a;
    } else {
      assert (a + b)[..|a + b| - 1] == a + b[..|b| - 1];
      ReadAppend(p, a, b[..|b| - 1]);
    }
  }

  lemma {:induction false} ReadPlain(p: Parse, lines: seq<string>)
    requires p.status.Reading? && forall i :: 0 <= i < |lines| ==> Plain(lines[i])
    ensures ReadLines(p, lines) == p.(text := p.text + Lines(lines, "\n"))
  {
    if lines != [] {
      ReadPlain(p, lines[..|lines| - 1]);
    }
  }

  lemma PrefixStart(line: string)
    ensures IsMedia(line) ==> |line| >= 4 && line[0] == 'm'
    ensures IsSetup(line) ==> |line| >= 4 && line[3] == 'e'
    ensures IsIce(line) ==> |line| >= 4 && line[0] == 'a' && line[2] == 'i' && line[3] == 'c'
  {
    var media, setup, ufrag, pwd := MEDIA, SETUP, "a=ice-ufrag:", "a=ice-pwd:";
    assert media[0] == 'm' && setup[3] == 'e';
    assert ufrag[0] == pwd[0] == 'a' && ufrag[2] == pwd[2] == 'i' && ufrag[3] == pwd[3] == 'c';
    assert media <= line ==> line[0] == media[0];
    assert setup <= line ==> line[3] == setup[3];
    assert ufrag <= line ==> line[0] == ufrag[0] && line[2] == ufrag[2] && line[3] == ufrag[3];
    assert pwd <= line ==> line[0] == pwd[0] && line[2] == pwd[2] && line[3] == pwd[3];
  }

  /** A line that differs from both prefixes in its first or fourth character. */
  lemma PlainLine(line: string)
    requires line == "" || (line[0] != 'm' && (|line| < 4 || line[3] != 'e'))
    ensures Plain(line)
  {
    PrefixStart(line);
  }

  lemma PlainHead(local: Local)
    ensures forall i :: 0 <= i < 5 ==> Plain(Head(local)[i])
  {
    PlainLine("v=0");
    PlainLine("o=- " + local.sessid + " 2 IN IP4 127.0.0.1");
    PlainLine("s=-");
    PlainLine("t=0 0");
    PlainLine("a=msid-semantic: WMS");
  }

  lemma {:induction false} IceIsIce(lines: seq<string>)
    ensures forall i :: 0 <= i < |IceLines(lines)| ==> IsIce(IceLines(lines)[i]) && IceLines(lines)[i] in lines
  {
    if lines != [] {
      IceIsIce(lines[..|lines| - 1]);
    }
  }

  lemma PlainIce(line: string)
    requires IsIce(line)
    ensures Plain(line)
  {
    PrefixStart(line);
  }

  lemma PlainMiddle(local: Local)
    ensures forall i :: 0 <= i < |Middle(local)| ==> Plain(Middle(local)[i])
  {
    var lines := Split(local.ice, "\n");
    IceIsIce(lines);
    forall i | 0 <= i < |IceLines(lines)|
      ensures Plain(IceLines(lines)[i])
    {
      PlainIce(IceLines(lines)[i]);
    }
    PlainLine("c=IN IP4 0.0.0.0");
    PlainLine("a=fingerprint:sha-256 " + local.fingerprint);
  }

  lemma PlainTail(port: int)
    ensures forall i :: 0 <= i < 2 ==> Plain(Tail(port)[i])
    ensures Plain("")
  {
    PlainLine("a=mid:data");
    PlainLine("a=sctpmap:" + Decimal(port) + " webrtc-datachannel 1024");
  }

  lemma FourColumns(a: string, b: string, c: string, d: string)
    requires ' ' !in a && ' ' !in b && ' ' !in c && ' ' !in d
    ensures Pieces((a + " ") + (b + " ") + (c + " ") + d, " ") == [a, b, c, d]
  {
    PiecesOfWord(d, " ");
    PiecesAfterWord(c, " ", d);
    PiecesAfterWord(b, " ", c + " " + d);
    PiecesAfterWord(a, " ", b + " " + (c + " " + d));
    Regrouped(a + " ", b + " ", c + " ", d);
  }

  lemma Regrouped(a: string, b: string, c: string, d: string)
    ensures a + b + c + d == a + (b + (c + d))
  {
  }

  lemma MediaColumns(port: int)
    ensures IsMedia(MediaLine(port)) && Split(MediaLine(port), " ") == ["m=application", "1", "DTLS/SCTP", Decimal(port)]
  {
    var start, number := "m=application 1 DTLS/SCTP ", Decimal(port);
    DecimalFree(port, ' ');
    FourColumns("m=application", "1", "DTLS/SCTP", number);
    assert start == ("m=application" + " ") + ("1" + " ") + ("DTLS/SCTP" + " ");
  }

  lemma ReadMedia(p: Parse, port: int)
    requires p.status.Reading?
    ensures ReadLine(p, MediaLine(port)) ==
            if port <= 0 then p.(status := Refused)
            else p.(remotePort := port, text := p.text + MediaLine(port) + "\n")
  {
    MediaColumns(port);
    AtoiDecimal(port);
  }

  lemma SetupColumns(role: Role)
    ensures IsSetup(SetupLine(role)) && Setup(SetupLine(role)) == if role.Client? then "active" else "passive"
  {
    var value := if role.Client? then "active" else "passive";
    PiecesOfWord(value, ":");
    PiecesAfterWord("a=setup", ":", value);
    assert SetupLine(role) == "a=setup" + ":" + value;
    assert SetupLine(role) == SETUP + value;
  }

  lemma ReadSetup(p: Parse, role: Role)
    requires p.status.Reading?
    ensures ReadLine(p, SetupLine(role)) == p.(role := role.Opposite(), text := p.text + SetupLine(role) + "\n")
  {
    SetupColumns(role);
    MediaIsNoSetup(SetupLine(role));
  }

  /** What is read of a description up to its media line, and after it. */
  lemma ReadPrinted(p: Parse, role: Role, port: int, local: Local)
    requires p.status.Reading?
    ensures var all, q := PrintedLines(role, port, local) + [""], ReadLines(p, PrintedLines(role, port, local) + [""]);
      if port <= 0 then q == Parse(p.role, p.remotePort, p.text + Lines(Head(local), "\n"), Refused)
      else q == Parse(role.Opposite(), port, p.text + Lines(all, "\n"), Reading)
  {
    PlainHead(local);
    ReadPlain(p, Head(local));
    var q := ReadLines(p, Head(local));
    ReadMedia(q, port);
    var all := PrintedLines(role, port, local) + [""];
    if port <= 0 {
      assert all[..6] == Head(local) + [MediaLine(port)];
      assert all[..6][..5] == Head(local);
      StopsThere(p, all, 6);
    } else {
      ReadRest(ReadLine(q, MediaLine(port)), role, port, local);
      ReadParts(p, Head(local), MediaLine(port), Middle(local) + [SetupLine(role)] + (Tail(port) + [""]));
      assert all == Head(local) + [MediaLine(port)] + (Middle(local) + [SetupLine(role)] + (Tail(port) + [""]));
      TextOf(p, all);
    }
  }

  lemma ReadParts(p: Parse, a: seq<string>, line: string, b: seq<string>)
    requires ReadLines(p, a).status.Reading? && ReadLine(ReadLines(p, a), line).status.Reading?
    ensures ReadLines(p, a + [line] + b) == ReadLines(ReadLine(ReadLines(p, a), line), b)
  {
    assert (a + [line])[..|a|] == a;
    ReadAppend(p, a + [line], b);
  }

  lemma ReadRest(p: Parse, role: Role, port: int, local: Local)
    requires p.status.Reading?
    ensures var q := ReadLines(p, Middle(local) + [SetupLine(role)] + (Tail(port) + [""]));
      q.status.Reading? && q.role == role.Opposite() && q.remotePort == p.remotePort
  {
    PlainMiddle(local);
    ReadPlain(p, Middle(local));
    var q := ReadLines(p, Middle(local));
    ReadSetup(q, role);
    ReadParts(p, Middle(local), SetupLine(role), Tail(port) + [""]);
    PlainTail(port);
    ReadPlain(ReadLine(q, SetupLine(role)), Tail(port) + [""]);
  }

  ghost predicate Free(lines: seq<string>) {
    forall i :: 0 <= i < |lines| ==> '\n' !in lines[i]
  }

  lemma FreeHead(local: Local)
    requires '\n' !in local.sessid
    ensures Free(Head(local))
  {
    var a, b := "o=- ", " 2 IN IP4 127.0.0.1";
    assert '\n' !in a && '\n' !in b;
    assert '\n' !in a + local.sessid + b;
  }

  lemma FreeMiddle(local: Local)
    requires '\n' !in local.fingerprint
    ensures Free(Middle(local))
  {
    var lines, a := Split(local.ice, "\n"), "a=fingerprint:sha-256 ";
    PiecesFree(local.ice, '\n');
    IceIsIce(lines);
    assert Free(IceLines(lines)) by {
      forall i | 0 <= i < |IceLines(lines)|
        ensures '\n' !in IceLines(lines)[i]
      {
        assert IceLines(lines)[i] in lines;
      }
    }
    assert '\n' !in a;
    assert '\n' !in a + local.fingerprint;
  }

  lemma FreeTail(port: int)
    ensures Free(Tail(port)) && '\n' !in MediaLine(port)
  {
    var a, b, c := "a=sctpmap:", " webrtc-datachannel 1024", "m=application 1 DTLS/SCTP ";
    DecimalFree(port, '\n');
    assert '\n' !in a && '\n' !in b && '\n' !in c;
    assert '\n' !in a + Decimal(port) + b && '\n' !in c + Decimal(port);
  }

  lemma FreeAppend(a: seq<string>, b: seq<string>)
    requires Free(a) && Free(b)
    ensures Free(a + b)
  {
  }

  /** No line of a description holds a line end. */
  lemma PrintedFree(role: Role, port: int, local: Local)
    requires OneLine(local)
    ensures Free(PrintedLines(role, port, local))
  {
    FreeHead(local);
    FreeTail(port);
    FreeMiddle(local);
    assert Free([MediaLine(port)]) && Free([SetupLine(role)]);
    FreeAppend(Head(local), [MediaLine(port)]);
    FreeAppend(Head(local) + [MediaLine(port)], Middle(local));
    FreeAppend(Head(local) + [MediaLine(port)] + Middle(local), [SetupLine(role)]);
    FreeAppend(Head(local) + [MediaLine(port)] + Middle(local) + [SetupLine(role)], Tail(port));
  }

  lemma PrintedSplit(role: Role, port: int, local: Local)
    requires OneLine(local)
    ensures Split(Printed(role, port, local), CRLF) == PrintedLines(role, port, local) + [""]
  {
    PrintedFree(role, port, local);
    PiecesOfLines(PrintedLines(role, port, local), CRLF);
  }

  lemma {:induction false} IceAppend(a: seq<string>, b: seq<string>)
    ensures IceLines(a + b) == IceLines(a) + IceLines(b)
    decreases |b|
  {
    if b == [] {
      assert a + b == a;
    } else {
      assert (a + b)[..|a + b| - 1] == a + b[..|b| - 1];
      IceAppend(a, b[..|b| - 1]);
    }
  }

  lemma {:induction false} IceOfNone(lines: seq<string>)
    requires forall i :: 0 <= i < |lines| ==> !IsIce(lines[i])
    ensures IceLines(lines) == []
  {
    if lines != [] {
      IceOfNone(lines[..|lines| - 1]);
    }
  }

  lemma {:induction false} IceOfIce(lines: seq<string>)
    requires forall i :: 0 <= i < |lines| ==> IsIce(lines[i])
    ensures IceLines(lines) == lines
  {
    if lines != [] {
      IceOfIce(lines[..|lines| - 1]);
    }
  }

  lemma NotIce(lines: seq<string>)
    requires forall i :: 0 <= i < |lines| ==> |lines[i]| < 3 || lines[i][2] != 'i'
    ensures IceLines(lines) == []
  {
    forall i | 0 <= i < |lines|
      ensures !IsIce(lines[i])
    {
      PrefixStart(lines[i]);
    }
    IceOfNone(lines);
  }

  lemma IceOfHead(local: Local)
    ensures IceLines(Head(local)) == []
  {
    NotIce(Head(local));
  }

  lemma IceOfMiddle(local: Local)
    ensures IceLines(Middle(local)) == IceLines(Split(local.ice, "\n"))
  {
    var ice, a, b := IceLines(Split(local.ice, "\n")), ["c=IN IP4 0.0.0.0"], ["a=fingerprint:sha-256 " + local.fingerprint];
    IceOfEnds(local);
    IceIsIce(Split(local.ice, "\n"));
    IceOfIce(ice);
    IceAppend(a, ice);
    IceAppend(a + ice, b);
  }

  lemma IceOfEnds(local: Local)
    ensures IceLines(["c=IN IP4 0.0.0.0"]) == [] && IceLines(["a=fingerprint:sha-256 " + local.fingerprint]) == []
  {
    var a, b := "c=IN IP4 0.0.0.0", "a=fingerprint:sha-256 ";
    assert a[2] == 'I' && (b + local.fingerprint)[2] == 'f';
    NotIce([a]);
    NotIce([b + local.fingerprint]);
  }

  lemma IceOfRest(role: Role, port: int)
    ensures IceLines([MediaLine(port)]) == [] && IceLines([SetupLine(role)]) == []
    ensures IceLines(Tail(port)) == [] && IceLines(["", ""]) == []
  {
    IceOfMedia(port);
    IceOfTail(port);
    IceOfSetup(role);
    NotIce(["", ""]);
  }

  lemma IceOfMedia(port: int)
    ensures IceLines([MediaLine(port)]) == []
  {
    NotIce([MediaLine(port)]);
  }

  lemma IceOfSetup(role: Role)
    ensures IceLines([SetupLine(role)]) == []
  {
    NotIce([SetupLine(role)]);
  }

  lemma IceOfTail(port: int)
    ensures IceLines(Tail(port)) == []
  {
    NotIce(Tail(port));
  }

  /** The ICE lines of a description are those of the printer's agent, in their order. */
  lemma PrintedIce(role: Role, port: int, local: Local)
    ensures IceLines(PrintedLines(role, port, local) + ["", ""]) == IceLines(Split(local.ice, "\n"))
  {
    IceOfHead(local);
    IceOfMiddle(local);
    IceOfRest(role, port);
    var a := Head(local) + [MediaLine(port)];
    IceAppend(Head(local), [MediaLine(port)]);
    IceAppend(a, Middle(local));
    IceAppend(a + Middle(local), [SetupLine(role)]);
    IceAppend(a + Middle(local) + [SetupLine(role)], Tail(port));
    IceAppend(PrintedLines(role, port, local), ["", ""]);
  }

  /** What `PrintedRecovered` says of the text. */
  lemma TextIce(role: Role, port: int, local: Local, text: string)
    requires OneLine(local) && text == Lines(PrintedLines(role, port, local) + [""], "\n")
    ensures IceLines(Split(text, "\n")) == IceLines(Split(local.ice, "\n"))
  {
    var all := PrintedLines(role, port, local) + [""];
    PrintedFree(role, port, local);
    FreeAppend(PrintedLines(role, port, local), [""]);
    PiecesOfLines(all, "\n");
    LinesAppend(PrintedLines(role, port, local), [""], "\n");
    LinesOne("", "\n");
    assert all + [""] == PrintedLines(role, port, local) + ["", ""];
    PrintedIce(role, port, local);
  }

  /** The round trip.  Any peer that reads a description made by any other takes its port
      and the opposite role, and hands on the other's ICE lines; it refuses the
      description, and changes nothing, just when the port is not positive. */
  lemma PrintedRecovered(myRole: Role, myPort: int, role: Role, port: int, local: Local)
    requires OneLine(local)
    ensures var q := Parsed(myRole, myPort, Printed(role, port, local));
      if port > 0 then
        && q.status == Reading && q.remotePort == port && q.role == role.Opposite()
        && IceLines(Split(q.text, "\n")) == IceLines(Split(local.ice, "\n"))
      else q.status == Refused && q.remotePort == myPort && q.role == myRole
  {
    PrintedSplit(role, port, local);
    ReadPrinted(Parse(myRole, myPort, "", Reading), role, port, local);
    if port > 0 {
      TextIce(role, port, local, Parsed(myRole, myPort, Printed(role, port, local)).text);
    }
  }
}
