/** Text functions of C and GLib: splitting, joining lines, decimal numbers. */
module Text {

  /** The pieces of `s` between the separators, found from the left. */
  function Pieces(s: string, sep: string): (r: seq<string>)
    requires sep != ""
    ensures |r| >= 1
    decreases |s|
  {
    if |s| < |sep| then [s]
    else if s[..|sep|] == sep then [""] + Pieces(s[|sep|..], sep)
    else
      var rest := Pieces(s[1..], sep);
      [[s[0]] + rest[0]] + rest[1..]
  }

  /** `g_strsplit` without a limit: nothing comes from the empty string. */
  function Split(s: string, sep: string): seq<string>
    requires sep != ""
  {
    if s == "" then [] else Pieces(s, sep)
  }

  /** Every line followed by `end`. */
  function Lines(lines: seq<string>, end: string): string {
    if lines == [] then "" else Lines(lines[..|lines| - 1], end) + lines[|lines| - 1] + end
  }

  /** Every occurrence of `sep`, found from the left, replaced by `mark`. */
  function Replaced(s: string, sep: string, mark: string): string
    requires sep != ""
    decreases |s|
  {
    if |s| < |sep| then s
    else if s[..|sep|] == sep then mark + Replaced(s[|sep|..], sep, mark)
    else [s[0]] + Replaced(s[1..], sep, mark)
  }

  function Occurrences(s: string, sep: string): nat
    requires sep != ""
    decreases |s|
  {
    if |s| < |sep| then 0
    else if s[..|sep|] == sep then 1 + Occurrences(s[|sep|..], sep)
    else Occurrences(s[1..], sep)
  }

  lemma {:induction false} LinesAppend(a: seq<string>, b: seq<string>, end: string)
    ensures Lines(a + b, end) == Lines(a, end) + Lines(b, end)
    decreases |b|
  {
    if b == [] {
      assert a + b == a;
    } else {
      var last := b[|b| - 1];
      assert (a + b)[..|a + b| - 1] == a + b[..|b| - 1];
      LinesAppend(a, b[..|b| - 1], end);
    }
  }

  lemma LinesOne(line: string, end: string)
    ensures Lines([line], end) == line + end
  {
    assert [line][..0] == [];
  }

  /** Text put before the first line. */
  lemma LinesFirst(start: string, lines: seq<string>, end: string)
    requires lines != []
    ensures Lines([start + lines[0]] + lines[1..], end) == start + Lines(lines, end)
  {
    LinesAppend([start + lines[0]], lines[1..], end);
    LinesOne(start + lines[0], end);
    assert lines == [lines[0]] + lines[1..];
    LinesAppend([lines[0]], lines[1..], end);
    LinesOne(lines[0], end);
    assert (start + lines[0]) + end + Lines(lines[1..], end) == start + (lines[0] + end + Lines(lines[1..], end));
  }

  /** Splitting and ending every piece with `mark` replaces the separators. */
  lemma {:induction false} PiecesReplaced(s: string, sep: string, mark: string)
    requires sep != ""
    ensures Lines(Pieces(s, sep), mark) == Replaced(s, sep, mark) + mark
    decreases |s|
  {
    if |s| < |sep| {
      LinesOne(s, mark);
    } else if s[..|sep|] == sep {
      PiecesReplaced(s[|sep|..], sep, mark);
      EmptyFirst(Pieces(s[|sep|..], sep), Replaced(s[|sep|..], sep, mark), mark);
    } else {
      PiecesReplaced(s[1..], sep, mark);
      LinesFirst([s[0]], Pieces(s[1..], sep), mark);
      assert [s[0]] + (Replaced(s[1..], sep, mark) + mark) == [s[0]] + Replaced(s[1..], sep, mark) + mark;
    }
  }

  lemma EmptyFirst(rest: seq<string>, text: string, mark: string)
    requires Lines(rest, mark) == text + mark
    ensures Lines([""] + rest, mark) == mark + text + mark
  {
    LinesAppend([""], rest, mark);
    LinesOne("", mark);
    assert "" + mark + (text + mark) == mark + text + mark;
  }

  /** A replacement one character shorter saves one character for each occurrence. */
  lemma {:induction false} ReplacedLength(s: string, sep: string, mark: string)
    requires sep != "" && |sep| == |mark| + 1
    ensures |Replaced(s, sep, mark)| + Occurrences(s, sep) == |s|
    decreases |s|
  {
    if |s| < |sep| {
    } else if s[..|sep|] == sep {
      ReplacedLength(s[|sep|..], sep, mark);
    } else {
      ReplacedLength(s[1..], sep, mark);
    }
  }

  /** The separator ends with a character that is nowhere before in it. */
  predicate IsSeparator(sep: string) {
    sep != "" && sep[|sep| - 1] !in sep[..|sep| - 1]
  }

  function Last(sep: string): char
    requires sep != ""
  {
    sep[|sep| - 1]
  }

  lemma {:induction false} PiecesOfWord(word: string, sep: string)
    requires IsSeparator(sep) && Last(sep) !in word
    ensures Pieces(word, sep) == [word]
    decreases |word|
  {
    if |word| >= |sep| {
      assert word[..|sep|][|sep| - 1] != Last(sep);
      PiecesOfWord(word[1..], sep);
      assert word == [word[0]] + word[1..];
    }
  }

  /** The first piece ends at the first separator. */
  lemma {:induction false} PiecesAfterWord(word: string, sep: string, rest: string)
    requires IsSeparator(sep) && Last(sep) !in word
    ensures Pieces(word + sep + rest, sep) == [word] + Pieces(rest, sep)
    decreases |word|
  {
    var s := word + sep + rest;
    if word == "" {
      assert s[..|sep|] == sep && s[|sep|..] == rest;
    } else {
      var k := |sep| - 1;
      assert s[..|sep|][k] != Last(sep) by {
        if k < |word| {
          assert s[k] == word[k];
        } else {
          assert s[k] == sep[..k][k - |word|];
        }
      }
      assert s[1..] == word[1..] + sep + rest;
      PiecesAfterWord(word[1..], sep, rest);
      assert word == [word[0]] + word[1..];
    }
  }

  /** Splitting recovers separated lines, and an empty piece after the last. */
  lemma {:induction false} PiecesOfLines(lines: seq<string>, sep: string)
    requires IsSeparator(sep) && forall i :: 0 <= i < |lines| ==> Last(sep) !in lines[i]
    ensures Pieces(Lines(lines, sep), sep) == lines + [""]
    decreases |lines|
  {
    if lines != [] {
      var word, rest := lines[0], lines[1..];
      assert lines == [word] + rest;
      LinesAppend([word], rest, sep);
      LinesOne(word, sep);
      PiecesAfterWord(word, sep, Lines(rest, sep));
      PiecesOfLines(rest, sep);
    }
  }

  /** No piece holds the separator's last character when the separator is one character. */
  lemma {:induction false} PiecesFree(s: string, c: char)
    ensures forall i :: 0 <= i < |Pieces(s, [c])| ==> c !in Pieces(s, [c])[i]
    decreases |s|
  {
    if s != "" {
      PiecesFree(s[1..], c);
    }
  }

  // Decimal numbers

  function Digit(d: nat): char
    requires d < 10
  {
    '0' + d as char
  }

  predicate IsDigit(c: char) {
    '0' <= c <= '9'
  }

  function Value(c: char): nat
    requires IsDigit(c)
  {
    c as int - '0' as int
  }

  function Natural(n: nat): (r: string)
    ensures r != "" && forall i :: 0 <= i < |r| ==> IsDigit(r[i])
  {
    (if n < 10 then "" else Natural(n / 10)) + [Digit(n % 10)]
  }

  /** `%d` */
  function Decimal(n: int): string {
    if n < 0 then "-" + Natural(-n) else Natural(n)
  }

  predicate IsSpace(c: char) {
    c == ' ' || c == '\t' || c == '\n' || c == '\r' || c as int == 11 || c as int == 12
  }

  /** The value of the digits at the start of `s` after `n`. */
  function Digits(s: string, n: nat): nat {
    if s == "" || !IsDigit(s[0]) then n else Digits(s[1..], 10 * n + Value(s[0]))
  }

  function Negated(n: int): int {
    -n
  }

  /** `atoi`, on numbers that fit. */
  function Atoi(s: string): int {
    if s == "" then 0
    else if IsSpace(s[0]) then Atoi(s[1..])
    else if s[0] == '-' then Negated(Digits(s[1..], 0))
    else if s[0] == '+' then Digits(s[1..], 0)
    else Digits(s, 0)
  }

  lemma {:induction false} DigitsSnoc(s: string, n: nat, d: nat)
    requires d < 10 && forall i :: 0 <= i < |s| ==> IsDigit(s[i])
    ensures Digits(s + [Digit(d)], n) == 10 * Digits(s, n) + d
    decreases |s|
  {
    var t := s + [Digit(d)];
    if s == "" {
      assert t[1..] == "";
    } else {
      assert t[1..] == s[1..] + [Digit(d)];
      DigitsSnoc(s[1..], 10 * n + Value(s[0]), d);
    }
  }

  lemma {:induction false} DigitsNatural(n: nat)
    ensures Digits(Natural(n), 0) == n
  {
    if n < 10 {
      DigitsSnoc("", 0, n);
      assert "" + [Digit(n)] == [Digit(n)];
    } else {
      DigitsNatural(n / 10);
      DigitsSnoc(Natural(n / 10), 0, n % 10);
    }
  }

  /** Printing a number and reading it gives it back. */
  lemma AtoiDecimal(n: int)
    ensures Atoi(Decimal(n)) == n
  {
    if n < 0 {
      DigitsNatural(-n);
      assert ("-" + Natural(-n))[1..] == Natural(-n);
    } else {
      DigitsNatural(n);
      assert IsDigit(Natural(n)[0]);
    }
  }

  lemma DecimalFree(n: int, c: char)
    requires !IsDigit(c) && c != '-'
    ensures c !in Decimal(n)
  {
  }
}
