/** Bytes, fixed-width integers in network byte order, and C strings. */
module Bytes {

  type byte = x: int | 0 <= x < 0x100
  type u16 = x: int | 0 <= x < 0x1_0000
  type u32 = x: int | 0 <= x < 0x1_0000_0000

  datatype Option<+T> = None | Some(value: T)

  /** A `char *`: NULL or a text without its terminating NUL. */
  datatype CString = Null | Str(text: seq<byte>) {
    /** NULL and "" carry the same text. */
    function Text(): seq<byte> {
      if Null? then [] else text
    }
  }

  function PutU16(n: u16): (s: seq<byte>)
    ensures |s| == 2
  {
    [n / 0x100, n % 0x100]
  }

  function GetU16(s: seq<byte>, at: nat): u16
    requires at + 2 <= |s|
  {
    var high: int := s[at];
    high * 0x100 + s[at + 1]
  }

  function PutU32(n: u32): (s: seq<byte>)
    ensures |s| == 4
  {
    PutU16(n / 0x1_0000) + PutU16(n % 0x1_0000)
  }

  function GetU32(s: seq<byte>, at: nat): u32
    requires at + 4 <= |s|
  {
    var high: int := GetU16(s, at);
    high * 0x1_0000 + GetU16(s, at + 2)
  }

  predicate NulFree(s: seq<byte>) {
    forall i :: 0 <= i < |s| ==> s[i] != 0
  }

  /** What `strlen` and `strndup` see of a buffer: the bytes before the first NUL. */
  function UntilNul(s: seq<byte>): (r: seq<byte>)
    ensures |r| <= |s| && r == s[..|r|] && NulFree(r)
    ensures |r| < |s| ==> s[|r|] == 0
  {
    if s == [] || s[0] == 0 then [] else [s[0]] + UntilNul(s[1..])
  }

  lemma UntilNulExact(s: seq<byte>)
    ensures UntilNul(s) == s <==> NulFree(s)
    ensures |UntilNul(s)| == |s| <==> NulFree(s)
  {
    var r := UntilNul(s);
    if |r| < |s| {
      assert !NulFree(s);
    } else {
      assert s[..|r|] == s;
    }
  }

  /** At most `len` bytes of `s` from position `from` on. */
  function Slice(s: seq<byte>, from: nat, len: nat): (r: seq<byte>)
    ensures |r| <= len
  {
    if |s| <= from then []
    else if |s| - from <= len then s[from..]
    else s[from..from + len]
  }
}
