/** Candidates collected one per line, and taken apart again (APIs/sy_rtcdc.c). */
module Candidates {
  import opened Bytes
  import opened Text

  const LINE_SIZE := 128

  /** A candidate that fits the line buffer with its NUL. */
  predicate Fits(candidate: string) {
    '\n' !in candidate && |candidate| < LINE_SIZE
  }

  ghost predicate AllFit(candidates: seq<string>) {
    forall i :: 0 <= i < |candidates| ==> Fits(candidates[i])
  }

  /** The length of the line at the start of `s`, if it has an end. */
  function LineEnd(s: string): (r: Option<nat>)
    ensures r.Some? ==> r.value < |s| && s[r.value] == '\n' && '\n' !in s[..r.value]
    ensures r.None? ==> '\n' !in s
  {
    if s == "" then None
    else if s[0] == '\n' then Some(0)
    else
      var r := LineEnd(s[1..]);
      assert r.Some? ==> s[..r.value + 1] == [s[0]] + s[1..][..r.value];
      assert s == [s[0]] + s[1..];
      if r.None? then None else Some(r.value + 1)
  }

  /** The lines of `s`; `None` when `getline_candidates` leaves its buffer or the text. */
  function Unframed(s: string): Option<seq<string>>
    decreases |s|
  {
    if s == "" then Some([])
    else
      var end := LineEnd(s);
      if end.None? || end.value >= LINE_SIZE then None
      else
        var rest := Unframed(s[end.value + 1..]);
        if rest.None? then None else Some([s[..end.value]] + rest.value)
  }

  /** `getline_candidates`: the line at `from`, and where the next one starts. */
  method GetLine(s: string, from: nat) returns (line: string, next: nat)
    requires from < |s| && LineEnd(s[from..]).Some? && LineEnd(s[from..]).value < LINE_SIZE
    ensures line == s[from..][..LineEnd(s[from..]).value] && next == from + LineEnd(s[from..]).value + 1 <= |s|
  {
    ghost var end := LineEnd(s[from..]).value;
    assert forall k :: 0 <= k < end ==> s[from..][..end][k] == s[from + k];
    var buf := new char[LINE_SIZE];
    var i := 0;
    while s[from + i] != '\n'
      invariant i <= end && buf[..i] == s[from..][..i]
      decreases end - i
    {
      assert i != end;
      buf[i] := s[from + i];
      i := i + 1;
    }
    line := buf[..i];
    next := from + i + 1;
  }

  /** `parse_candidates`; the remaining length decreases. */
  method ParseCandidates(s: string) returns (lines: seq<string>)
    requires Unframed(s).Some?
    ensures Unframed(s) == Some(lines)
  {
    lines := [];
    var at: nat := 0;
    assert s[0..] == s && [] + Unframed(s).value == Unframed(s).value;
    while at < |s|
      invariant at <= |s| && Unframed(s[at..]).Some?
      invariant Unframed(s) == Some(lines + Unframed(s[at..]).value)
      decreases |s| - at
    {
      var line, next := GetLine(s, at);
      NextLine(s, at, next, line, lines);
      lines, at := lines + [line], next;
    }
    assert s[at..] == "" && lines + [] == lines;
  }

  lemma NextLine(s: string, at: nat, next: nat, line: string, lines: seq<string>)
    requires at < |s| && Unframed(s[at..]).Some? && LineEnd(s[at..]).Some?
    requires next == at + LineEnd(s[at..]).value + 1 <= |s| && line == s[at..][..LineEnd(s[at..]).value]
    ensures Unframed(s[next..]).Some?
    ensures lines + Unframed(s[at..]).value == lines + [line] + Unframed(s[next..]).value
  {
    assert s[at..][LineEnd(s[at..]).value + 1..] == s[next..];
    assert lines + ([line] + Unframed(s[next..]).value) == lines + [line] + Unframed(s[next..]).value;
  }

  lemma LinesCons(line: string, rest: seq<string>)
    ensures Lines([line] + rest, "\n") == line + "\n" + Lines(rest, "\n")
  {
    LinesAppend([line], rest, "\n");
    LinesOne(line, "\n");
  }

  lemma {:induction false} FirstEnd(line: string, rest: string)
    requires '\n' !in line
    ensures LineEnd(line + "\n" + rest) == Some(|line|)
    decreases |line|
  {
    if line == "" {
      assert ("" + "\n" + rest)[0] == '\n';
    } else {
      FirstEnd(line[1..], rest);
      assert (line + "\n" + rest)[1..] == line[1..] + "\n" + rest;
    }
  }

  /** Candidates found by one peer reach the other unchanged and in order. */
  lemma {:induction false} CollectedUnframes(candidates: seq<string>)
    requires AllFit(candidates)
    ensures Unframed(Lines(candidates, "\n")) == Some(candidates)
  {
    if candidates != [] {
      var line, rest := candidates[0], candidates[1..];
      assert candidates == [line] + rest && Fits(candidates[0]);
      LinesCons(line, rest);
      FirstEnd(line, Lines(rest, "\n"));
      CollectedUnframes(rest);
      var s := line + "\n" + Lines(rest, "\n");
      assert s[|line| + 1..] == Lines(rest, "\n") && s[..|line|] == line;
    }
  }

  lemma {:induction false} UnframedCollects(s: string, candidates: seq<string>)
    requires Unframed(s) == Some(candidates)
    ensures AllFit(candidates) && s == Lines(candidates, "\n")
    decreases |s|
  {
    if s != "" {
      var end := LineEnd(s).value;
      var line, rest := s[..end], s[end + 1..];
      CutAt(s, end);
      UnframedFirst(s, candidates, end);
      UnframedCollects(rest, candidates[1..]);
      LinesCons(line, candidates[1..]);
    }
  }

  lemma CutAt(s: string, end: nat)
    requires end < |s| && s[end] == '\n'
    ensures s == s[..end] + "\n" + s[end + 1..]
  {
  }

  lemma UnframedFirst(s: string, candidates: seq<string>, end: nat)
    requires s != "" && Unframed(s) == Some(candidates) && LineEnd(s) == Some(end)
    ensures candidates != [] && candidates == [s[..end]] + candidates[1..] && Fits(s[..end])
    ensures Unframed(s[end + 1..]) == Some(candidates[1..])
  {
  }

  /** Taking apart is the exact inverse of collecting: the parser returns a list just
      when the text is that list collected and every candidate fits. */
  lemma UnframedIff(s: string, candidates: seq<string>)
    ensures Unframed(s) == Some(candidates) <==> AllFit(candidates) && s == Lines(candidates, "\n")
  {
    if AllFit(candidates) && s == Lines(candidates, "\n") {
      CollectedUnframes(candidates);
    }
    if Unframed(s) == Some(candidates) {
      UnframedCollects(s, candidates);
    }
  }

  lemma OneMoreLine(candidates: seq<string>, candidate: string)
    ensures Lines(candidates + [candidate], "\n") == Lines(candidates, "\n") + candidate + "\n"
  {
    assert (candidates + [candidate])[..|candidates|] == candidates;
  }

  /** What `on_candidate` appends to: the candidates found so far, one on a line. */
  class CandidateSet {
    var text: string

    constructor ()
      ensures text == "" && Unframed(text) == Some([])
    {
      text := "";
    }

    /** `on_candidate`: the other peer will find this candidate after those before it
        exactly if it fits. */
    method OnCandidate(candidate: string)
      modifies this
      ensures text == old(text) + candidate + "\n"
      ensures Unframed(old(text)).Some? ==>
        (Unframed(text) == Some(Unframed(old(text)).value + [candidate]) <==> '\n' !in candidate && |candidate| < 128)
    {
      ghost var before := Unframed(text);
      text := text + candidate;
      text := text + "\n";
      if before.Some? {
        UnframedIff(old(text), before.value);
        UnframedIff(text, before.value + [candidate]);
        OneMoreLine(before.value, candidate);
        assert AllFit(before.value + [candidate]) <==> Fits(candidate) by {
          assert (before.value + [candidate])[|before.value|] == candidate;
        }
      }
    }
  }
}
