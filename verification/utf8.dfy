/**
 * Go's len on a string: the number of bytes of its UTF-8 encoding. The
 * validation library's Length rule measures strings the same way.
 */
module Utf8 {

  /** Bytes of the UTF-8 encoding of one character. */
  function Utf8Width(c: char): (n: nat)
    ensures 1 <= n <= 4
    ensures n == 1 <==> c as int < 0x80
  {
    if c as int < 0x80 then 1
    else if c as int < 0x800 then 2
    else if c as int < 0x1_0000 then 3
    else 4
  }

  /** len(s): the number of bytes of s's UTF-8 encoding. */
  function Utf8Length(s: string): (n: nat)
    ensures |s| <= n <= 4 * |s|
  {
    if s == [] then 0 else Utf8Width(s[0]) + Utf8Length(s[1..])
  }

  /** An ASCII string's length in bytes is its length in characters. */
  lemma {:induction false} AsciiLength(s: string)
    requires forall i :: 0 <= i < |s| ==> s[i] as int < 0x80
    ensures Utf8Length(s) == |s|
  {
    if s != [] {
      AsciiLength(s[1..]);
    }
  }

  /** A string of n copies of one two-byte character is 2n bytes long. */
  lemma {:induction false} TwoByteRun(s: string, c: char)
    requires 0x80 <= c as int < 0x800
    requires forall i :: 0 <= i < |s| ==> s[i] == c
    ensures Utf8Length(s) == 2 * |s|
  {
    if s != [] {
      TwoByteRun(s[1..], c);
    }
  }
}
