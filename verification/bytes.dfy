/** Go's byte, and the bytes of a Go string: the UTF-8 encoding of its characters. */
module Bytes {
  newtype Byte = x: int | 0 <= x < 256

  predicate IsAscii(s: string)
  {
    forall i :: 0 <= i < |s| ==> s[i] as int < 128
  }

  /** The UTF-8 encoding of an ASCII string: one byte per character. */
  function Ascii(s: string): (r: seq<Byte>)
    requires IsAscii(s)
    ensures |r| == |s|
    ensures forall i :: 0 <= i < |s| ==> r[i] as int == s[i] as int
  {
    seq(|s|, i requires 0 <= i < |s| => s[i] as int as Byte)
  }

  lemma AsciiAppend(a: string, b: string)
    requires IsAscii(a) && IsAscii(b)
    ensures IsAscii(a + b) && Ascii(a + b) == Ascii(a) + Ascii(b)
  {
  }

  lemma AsciiInjective(a: string, b: string)
    requires IsAscii(a) && IsAscii(b)
    ensures Ascii(a) == Ascii(b) ==> a == b
  {
    if Ascii(a) == Ascii(b) {
      forall i | 0 <= i < |a|
        ensures a[i] == b[i]
      {
        assert Ascii(a)[i] == Ascii(b)[i];
      }
    }
  }
  /** The UTF-8 encoding of one character: one byte below 0x80, else two to four bytes, each at least 0x80. */
  function Utf8Char(c: char): (r: seq<Byte>)
    ensures 1 <= |r| <= 4
    ensures |r| == 1 <==> c as int < 128
    ensures |r| == 1 ==> r[0] as int == c as int
    ensures |r| > 1 ==> forall i :: 0 <= i < |r| ==> r[i] as int >= 128
  {
    var n := c as int;
    if n < 0x80 then [n as Byte]
    else if n < 0x800 then [(0xC0 + n / 0x40) as Byte, (0x80 + n % 0x40) as Byte]
    else if n < 0x1_0000 then [(0xE0 + n / 0x1000) as Byte, (0x80 + n / 0x40 % 0x40) as Byte, (0x80 + n % 0x40) as Byte]
    else [(0xF0 + n / 0x4_0000) as Byte, (0x80 + n / 0x1000 % 0x40) as Byte, (0x80 + n / 0x40 % 0x40) as Byte,
          (0x80 + n % 0x40) as Byte]
  }

  /** The bytes of a Go string; len(s) in Go is the length of this sequence. */
  function Utf8(s: string): (r: seq<Byte>)
    ensures |r| >= |s|
    ensures |r| == |s| <==> IsAscii(s)
    decreases |s|
  {
    if |s| == 0 then [] else Utf8Char(s[0]) + Utf8(s[1..])
  }

  /** On an ASCII string, UTF-8 is one byte per character. */
  lemma {:induction false} Utf8Ascii(s: string)
    requires IsAscii(s)
    ensures Utf8(s) == Ascii(s)
    decreases |s|
  {
    if |s| > 0 {
      Utf8Ascii(s[1..]);
      assert Ascii(s) == Ascii([s[0]]) + Ascii(s[1..]);
    }
  }

  lemma {:induction false} Utf8Append(a: string, b: string)
    ensures Utf8(a + b) == Utf8(a) + Utf8(b)
    decreases |a|
  {
    if |a| > 0 {
      assert (a + b)[1..] == a[1..] + b;
      Utf8Append(a[1..], b);
    } else {
      assert a + b == b;
    }
  }
}
