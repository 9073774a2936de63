/** What stands in a session description, in literal text. */
module Descriptions {
  import opened Channels
  import opened Sdp
  import opened SdpTheorems
  import opened Text

  // The lines of libnice that are copied

  /** `chosen` holds the lines at the positions `at`, which go up, and these are the lines
      with an ICE user name or password and no other. */
  ghost predicate Chooses(lines: seq<string>, chosen: seq<string>, at: seq<nat>) {
    && |chosen| == |at|
    && (forall i, j :: 0 <= i < j < |at| ==> at[i] < at[j])
    && (forall i :: 0 <= i < |at| ==> at[i] < |lines| && chosen[i] == lines[at[i]])
    && (forall k :: 0 <= k < |lines| ==> (k in at <==> "a=ice-ufrag:" <= lines[k] || "a=ice-pwd:" <= lines[k]))
  }

  function Positions(lines: seq<string>): (at: seq<nat>)
    ensures forall i :: 0 <= i < |at| ==> at[i] < |lines|
  {
    if lines == [] then []
    else
      var last := |lines| - 1;
      Positions(lines[..last]) + if "a=ice-ufrag:" <= lines[last] || "a=ice-pwd:" <= lines[last] then [last] else []
  }

  lemma {:induction false} IceChosen(lines: seq<string>)
    ensures Chooses(lines, IceLines(lines), Positions(lines))
  {
    if lines != [] {
      var last := |lines| - 1;
      IceChosen(lines[..last]);
      ChoosesNext(lines, IceLines(lines[..last]), Positions(lines[..last]));
    }
  }

  lemma ChoosesNext(lines: seq<string>, chosen: seq<string>, at: seq<nat>)
    requires lines != [] && Chooses(lines[..|lines| - 1], chosen, at)
    ensures var last := |lines| - 1;
      if "a=ice-ufrag:" <= lines[last] || "a=ice-pwd:" <= lines[last] then
        Chooses(lines, chosen + [lines[last]], at + [last])
      else Chooses(lines, chosen, at)
  {
    var last := |lines| - 1;
    assert forall k :: 0 <= k < last ==> lines[..last][k] == lines[k];
    assert forall k: nat {:trigger k in at} :: k in at ==> k < last;
    assert forall k :: k in at + [last] <==> k in at || k == last;
  }

  /** The positions are fixed by the lines: at most one sequence is the chosen one. */
  lemma ChosenUnique(lines: seq<string>, a: seq<string>, b: seq<string>, at: seq<nat>, bt: seq<nat>)
    requires Chooses(lines, a, at) && Chooses(lines, b, bt)
    ensures a == b
  {
    forall k
      ensures k in at <==> k in bt
    {
      if k in at {
        assert 0 <= k < |lines|;
      }
      if k in bt {
        assert 0 <= k < |lines|;
      }
    }
    SortedUnique(at, bt);
  }

  lemma {:induction false} SortedUnique(a: seq<nat>, b: seq<nat>)
    requires forall i, j :: 0 <= i < j < |a| ==> a[i] < a[j]
    requires forall i, j :: 0 <= i < j < |b| ==> b[i] < b[j]
    requires forall k :: k in a <==> k in b
    ensures a == b
  {
    assert |b| > 0 ==> b[0] in b;
    if a != [] {
      var p, q := |a| - 1, |b| - 1;
      assert a[p] in b && b[|b| - 1] in a;
      assert a[p] == b[q];
      forall k
        ensures k in a[..p] <==> k in b[..q]
      {
        assert k in a <==> k in a[..p] || k == a[p];
        assert k in b <==> k in b[..q] || k == b[q];
      }
      SortedUnique(a[..p], b[..q]);
    }
  }

  // The description

  /** The lines of a description around those that are copied from libnice. */
  function Layout(role: Role, port: int, local: Local, chosen: seq<string>): seq<string> {
    ["v=0", "o=- " + local.sessid + " 2 IN IP4 127.0.0.1", "s=-", "t=0 0", "a=msid-semantic: WMS",
      "m=application 1 DTLS/SCTP " + Decimal(port), "c=IN IP4 0.0.0.0"] + chosen +
    ["a=fingerprint:sha-256 " + local.fingerprint, "a=setup:" + (if role == Client then "active" else "passive"),
      "a=mid:data", "a=sctpmap:" + Decimal(port) + " webrtc-datachannel 1024"]
  }

  lemma LayoutLines(role: Role, port: int, local: Local)
    ensures Layout(role, port, local, IceLines(Split(local.ice, "\n"))) == PrintedLines(role, port, local)
  {
    var chosen := IceLines(Split(local.ice, "\n"));
    assert "a=setup:" + "active" == "a=setup:active" && "a=setup:" + "passive" == "a=setup:passive";
    Grouped(Head(local), [MediaLine(port)], "c=IN IP4 0.0.0.0", chosen, "a=fingerprint:sha-256 " + local.fingerprint,
            [SetupLine(role)], Tail(port));
  }

  /** A description and the text that the other peer's libnice gets of it, line by line.
      The lines chosen from libnice stand as they are and in their order.  A description
      with a port that is not positive is refused at its media line. */
  lemma PrintedText(myRole: Role, myPort: int, role: Role, port: int, local: Local)
    requires OneLine(local)
    ensures exists chosen, at :: (
      && Chooses(Split(local.ice, "\n"), chosen, at)
      && Printed(role, port, local) == Lines(Layout(role, port, local, chosen), "\r\n")
      && (port > 0 ==>
        Parsed(myRole, myPort, Printed(role, port, local)).text == Lines(Layout(role, port, local, chosen) + [""], "\n")))
  {
    IceChosen(Split(local.ice, "\n"));
    LayoutLines(role, port, local);
    PrintedSplit(role, port, local);
    ReadPrinted(Parse(myRole, myPort, "", Reading), role, port, local);
  }

  lemma Grouped(a: seq<string>, b: seq<string>, c: string, d: seq<string>, e: string, f: seq<string>, g: seq<string>)
    ensures a + b + ([c] + d + [e]) + f + g == (a + b + [c]) + d + ([e] + f + g)
  {
  }

  // Numbers read from a description

  /** `atoi` reads digits in base ten, after spaces and one sign, up to what is no digit. */
  lemma {:induction false} DigitsLaw(s: string, n: nat, c: char, rest: string)
    requires forall i :: 0 <= i < |s| ==> '0' <= s[i] <= '9'
    ensures '0' <= c <= '9' ==> Digits(s + [c], n) == 10 * Digits(s, n) + (c as int - '0' as int)
    ensures !('0' <= c <= '9') ==> Digits(s + [c] + rest, n) == Digits(s, n)
    decreases |s|
  {
    if s == "" {
      assert s + [c] == [c] && s + [c] + rest == [c] + rest && [c][1..] == "";
    } else {
      assert (s + [c])[1..] == s[1..] + [c] && (s + [c] + rest)[1..] == s[1..] + [c] + rest;
      DigitsLaw(s[1..], 10 * n + Value(s[0]), c, rest);
    }
  }

  lemma AtoiDigits(s: string)
    requires s != "" && '0' <= s[0] <= '9'
    ensures Atoi(s) == Digits(s, 0)
  {
  }

  /** One digit more, and anything behind the digits. */
  lemma AtoiLaw(s: string, c: char, rest: string)
    requires s != "" && forall i :: 0 <= i < |s| ==> '0' <= s[i] <= '9'
    ensures '0' <= c <= '9' ==> Atoi(s + [c]) == 10 * Atoi(s) + (c as int - '0' as int)
    ensures !('0' <= c <= '9') ==> Atoi(s + [c] + rest) == Atoi(s)
  {
    DigitsLaw(s, 0, c, rest);
    AtoiDigits(s);
    AtoiDigits(s + [c]);
    AtoiDigits(s + [c] + rest);
  }

  lemma DigitLaw(c: char)
    requires '0' <= c <= '9'
    ensures Atoi([c]) == c as int - '0' as int
  {
    DigitsLaw("", 0, c, "");
    assert "" + [c] == [c];
    AtoiDigits([c]);
  }

  /** A sign or a space before the digits. */
  lemma SignLaw(s: string, c: char, t: string)
    requires s != "" && '0' <= s[0] <= '9' && t == [c] + s && c in {'-', '+', ' '}
    ensures Atoi(t) == if c == '-' then -Atoi(s) else Atoi(s)
  {
    assert t[1..] == s && t[0] == c;
    AtoiDigits(s);
  }
}
