/**
 * The UUID values of github.com/google/uuid as the provider uses them:
 * sixteen bytes, printed as 8-4-4-4-12 lower-case hex, and parsed back from
 * the four text forms uuid.Parse accepts.
 */
module Uuid {
  import opened Wrappers
  import opened Bytes
  import Text

  type Uuid = s: seq<Byte> | |s| == 16 witness [0, 0, 0, 0, 0, 0, 0, 0, 0, 0, 0, 0, 0, 0, 0, 0]

  /** uuid.Nil, the zero value of uuid.UUID. */
  const Nil: Uuid := [0, 0, 0, 0, 0, 0, 0, 0, 0, 0, 0, 0, 0, 0, 0, 0]

  predicate IsHex(c: char)
  {
    '0' <= c <= '9' || 'a' <= c <= 'f' || 'A' <= c <= 'F'
  }

  function HexDigit(d: nat): (c: char)
    requires d < 16
    ensures IsHex(c) && c != '-' && c != '.'
  {
    if d < 10 then ('0' as int + d) as char else ('a' as int + d - 10) as char
  }

  /** The digit value of a hex character; upper and lower case are both accepted. */
  function HexValue(c: char): (v: nat)
    requires IsHex(c)
    ensures v < 16
  {
    if '0' <= c <= '9' then c as int - '0' as int
    else if 'a' <= c <= 'f' then c as int - 'a' as int + 10
    else c as int - 'A' as int + 10
  }

  lemma HexValueOfDigit(d: nat)
    requires d < 16
    ensures HexValue(HexDigit(d)) == d
  {
  }

  /** The positions of the four dashes in the printed form. */
  predicate IsDashPosition(k: int)
  {
    k == 8 || k == 13 || k == 18 || k == 23
  }

  /** Where the high digit of byte i sits in the printed form: 0, 2, 4, 6, 9, 11, 14, … */
  function BytePosition(i: nat): (p: nat)
    requires i < 16
    ensures p + 1 < 36 && !IsDashPosition(p) && !IsDashPosition(p + 1)
  {
    2 * i + (if i >= 4 then 1 else 0) + (if i >= 6 then 1 else 0)
          + (if i >= 8 then 1 else 0) + (if i >= 10 then 1 else 0)
  }

  /** Which hex digit of the 32 a non-dash position of the printed form holds. */
  function DigitIndex(k: nat): (n: nat)
    requires k < 36 && !IsDashPosition(k)
    ensures n < 32
  {
    k - (if k > 8 then 1 else 0) - (if k > 13 then 1 else 0)
      - (if k > 18 then 1 else 0) - (if k > 23 then 1 else 0)
  }

  /** Digit n of the 32, high nibble of each byte first. */
  function Nibble(u: Uuid, n: nat): nat
    requires n < 32
  {
    if n % 2 == 0 then u[n / 2] as int / 16 else u[n / 2] as int % 16
  }

  /** uuid.UUID.String(). */
  function ToString(u: Uuid): (r: string)
    ensures |r| == 36
    ensures IsAscii(r)
    ensures forall k :: 0 <= k < 36 ==> (r[k] == '-' <==> IsDashPosition(k))
    ensures '.' !in r
  {
    seq(36, k requires 0 <= k < 36 =>
      if IsDashPosition(k) then '-' else HexDigit(Nibble(u, DigitIndex(k))))
  }

  /** xvalues: the value of a byte that is a hex digit in either case, 255 for every other byte. */
  function XValue(b: Byte): (v: nat)
    ensures v < 16 || v == 255
    ensures v < 16 <==> b as int < 128 && IsHex(b as int as char)
    ensures v < 16 ==> v == HexValue(b as int as char)
  {
    if '0' as int <= b as int <= '9' as int then b as int - '0' as int
    else if 'a' as int <= b as int <= 'f' as int then b as int - 'a' as int + 10
    else if 'A' as int <= b as int <= 'F' as int then b as int - 'A' as int + 10
    else 255
  }

  /**
   * xtob: the byte two digit bytes spell, and whether both were digits. The
   * byte is computed either way, as (hi << 4) | lo on bytes.
   */
  function Xtob(hi: Byte, lo: Byte): (r: (Byte, bool))
    ensures r.1 <==> XValue(hi) < 16 && XValue(lo) < 16
    ensures r.1 ==> r.0 as int == XValue(hi) * 16 + XValue(lo)
    ensures XValue(lo) == 255 ==> r.0 == 255
  {
    var v := if XValue(lo) == 255 then 255 else XValue(hi) * 16 % 256 + XValue(lo);
    (v as Byte, XValue(hi) != 255 && XValue(lo) != 255)
  }

  /** The pair of bytes at position p. */
  function PairAt(b: seq<Byte>, p: nat): (Byte, bool)
    requires p + 1 < |b|
  {
    Xtob(b[p], b[p + 1])
  }

  /** The errors of uuid.Parse. */
  datatype ParseError = InvalidLength(n: nat) | InvalidUrnPrefix | InvalidFormat

  /** What uuid.Parse returns: a UUID, complete or not, and an error. */
  datatype Parsed = Parsed(uuid: Uuid, err: Option<ParseError>)

  /** The first n of the sixteen pairs are all hex. */
  predicate PairsOk(b: seq<Byte>, position: nat -> nat, n: nat)
    requires n <= 16
    requires forall j :: 0 <= j < 16 ==> position(j) + 1 < |b|
  {
    forall j :: 0 <= j < n ==> PairAt(b, position(j)).1
  }

  /** The index of the first pair from i on that is not two hex digits; 16 when there is none. */
  function FirstBadPair(b: seq<Byte>, position: nat -> nat, i: nat): (k: nat)
    requires i <= 16
    requires forall j :: 0 <= j < 16 ==> position(j) + 1 < |b|
    ensures i <= k <= 16
    ensures forall j :: i <= j < k ==> PairAt(b, position(j)).1
    ensures k < 16 ==> !PairAt(b, position(k)).1
    decreases 16 - i
  {
    if i == 16 || !PairAt(b, position(i)).1 then i else FirstBadPair(b, position, i + 1)
  }

  /** The first n pairs are hex exactly when n does not pass the first bad pair. */
  lemma PairsOkUpTo(b: seq<Byte>, position: nat -> nat, n: nat)
    requires n <= 16
    requires forall j :: 0 <= j < 16 ==> position(j) + 1 < |b|
    ensures PairsOk(b, position, n) <==> n <= FirstBadPair(b, position, 0)
  {
    var k := FirstBadPair(b, position, 0);
    if n > k {
      assert !PairAt(b, position(k)).1;
    }
  }

  /**
   * The loop over the sixteen pairs: byte i comes from the pair at
   * position(i), and the loop returns at the first pair that is not hex,
   * with the bytes filled so far. keepFailed says whether the failed pair's
   * byte was stored before the check (the 32-digit form) or not.
   */
  function ReadPairs(b: seq<Byte>, position: nat -> nat, keepFailed: bool): (r: Parsed)
    requires forall i :: 0 <= i < 16 ==> position(i) + 1 < |b|
    ensures r.err.None? <==> PairsOk(b, position, 16)
    ensures r.err.Some? ==> r.err == Some(InvalidFormat)
    ensures forall i {:trigger r.uuid[i]} :: 0 <= i < 16 && PairsOk(b, position, i + 1) ==> r.uuid[i] == PairAt(b, position(i)).0
    ensures forall i {:trigger r.uuid[i]} :: 0 <= i < 16 && PairsOk(b, position, i) && !PairAt(b, position(i)).1 ==>
      r.uuid[i] == if keepFailed then PairAt(b, position(i)).0 else 0
    ensures forall i {:trigger r.uuid[i]} :: 0 <= i < 16 && !PairsOk(b, position, i) ==> r.uuid[i] == 0
  {
    var k := FirstBadPair(b, position, 0);
    var u: Uuid := seq(16, i requires 0 <= i < 16 =>
      if i < k || (i == k && keepFailed) then PairAt(b, position(i)).0 else 0);
    PairsOkUpTo(b, position, 16);
    forall i | 0 <= i <= 16
      ensures PairsOk(b, position, i) <==> i <= k
    {
      PairsOkUpTo(b, position, i);
    }
    Parsed(u, if k == 16 then None else Some(InvalidFormat))
  }

  const Dash := '-' as int as Byte

  /**
   * The check uuid.Parse applies once a prefix is gone: dashes at 8, 13, 18
   * and 23, hex pairs at the sixteen byte positions. Bytes after the 36th
   * are never looked at.
   */
  function ParseCanonical(b: seq<Byte>): (r: Parsed)
    requires |b| >= 36
    ensures b[8] != Dash || b[13] != Dash || b[18] != Dash || b[23] != Dash ==> r == Parsed(Nil, Some(InvalidFormat))
  {
    if b[8] != Dash || b[13] != Dash || b[18] != Dash || b[23] != Dash then Parsed(Nil, Some(InvalidFormat))
    else ReadPairs(b, CanonicalPosition, false)
  }

  function CanonicalPosition(i: nat): nat
  {
    if i < 16 then BytePosition(i) else 0
  }

  /** strings.EqualFold of a byte string against "urn:uuid:" (ASCII case folding is all that can apply). */
  predicate IsUrnPrefix(b: seq<Byte>)
  {
    |b| == 9 && IsAscii("urn:uuid:")
    && forall i :: 0 <= i < 9 ==> LowerByte(b[i]) == Ascii("urn:uuid:")[i]
  }

  function LowerByte(b: Byte): Byte
  {
    if 'A' as int <= b as int <= 'Z' as int then b + 32 else b
  }

  /**
   * uuid.Parse on the bytes of a string: 36 bytes as they are, 45 after a
   * case-insensitive "urn:uuid:", 38 after dropping the first byte (the
   * braces are not checked), or 32 hex digits with no dashes. Any other
   * length is an error. On an error the UUID filled so far is returned.
   */
  function ParseBytes(b: seq<Byte>): (r: Parsed)
    ensures |b| !in {32, 36, 38, 45} <==> r.err == Some(InvalidLength(|b|))
    ensures r.err.Some? && r.err != Some(InvalidFormat) ==> r.uuid == Nil
  {
    if |b| == 36 then ParseCanonical(b)
    else if |b| == 45 then
      if IsUrnPrefix(b[..9]) then ParseCanonical(b[9..]) else Parsed(Nil, Some(InvalidUrnPrefix))
    else if |b| == 38 then ParseCanonical(b[1..])
    else if |b| == 32 then ReadPairs(b, i => 2 * i, true)
    else Parsed(Nil, Some(InvalidLength(|b|)))
  }

  /** uuid.Parse(s): the length switch counts the bytes of s, not its characters. */
  function ParseResult(s: string): (r: Parsed)
    ensures |Utf8(s)| !in {32, 36, 38, 45} ==> r.err == Some(InvalidLength(|Utf8(s)|))
  {
    ParseBytes(Utf8(s))
  }

  /** The UUID uuid.Parse gives when it returns no error. */
  function Parse(s: string): (r: Option<Uuid>)
    ensures r.Some? <==> ParseResult(s).err.None?
    ensures r.Some? ==> r.value == ParseResult(s).uuid
    ensures |Utf8(s)| !in {32, 36, 38, 45} ==> r.None?
  {
    var p := ParseResult(s);
    if p.err.None? then Some(p.uuid) else None
  }

  /** Pairs that read alike give the same result. */
  lemma ReadPairsAgree(b: seq<Byte>, t: seq<Byte>, position: nat -> nat, keepFailed: bool)
    requires forall j :: 0 <= j < 16 ==> position(j) + 1 < |b| && position(j) + 1 < |t|
    requires forall j :: 0 <= j < 16 ==> PairAt(b, position(j)) == PairAt(t, position(j))
    ensures ReadPairs(b, position, keepFailed) == ReadPairs(t, position, keepFailed)
  {
    PairsOkAgree(b, t, position);
    var r1, r2 := ReadPairs(b, position, keepFailed), ReadPairs(t, position, keepFailed);
    forall i | 0 <= i < 16
      ensures r1.uuid[i] == r2.uuid[i]
    {
      assert PairsOk(b, position, i) == PairsOk(t, position, i);
      assert PairsOk(b, position, i + 1) == PairsOk(t, position, i + 1);
    }
    assert r1.uuid == r2.uuid;
  }

  lemma PairsOkAgree(b: seq<Byte>, t: seq<Byte>, position: nat -> nat)
    requires forall j :: 0 <= j < 16 ==> position(j) + 1 < |b| && position(j) + 1 < |t|
    requires forall j :: 0 <= j < 16 ==> PairAt(b, position(j)) == PairAt(t, position(j))
    ensures forall n :: 0 <= n <= 16 ==> PairsOk(b, position, n) == PairsOk(t, position, n)
  {
    forall n | 0 <= n <= 16
      ensures PairsOk(b, position, n) == PairsOk(t, position, n)
    {
    }
  }

  lemma ParseCanonicalOnlyReadsPrefix(b: seq<Byte>)
    requires |b| >= 36
    ensures ParseCanonical(b) == ParseCanonical(b[..36])
  {
    var t := b[..36];
    forall j | 0 <= j < 16
      ensures PairAt(b, CanonicalPosition(j)) == PairAt(t, CanonicalPosition(j))
    {
    }
    ReadPairsAgree(b, t, CanonicalPosition, false);
  }

  /** The bytes of the printed form: its characters are all ASCII. */
  lemma ToStringBytes(u: Uuid)
    ensures IsAscii(ToString(u)) && Utf8(ToString(u)) == Ascii(ToString(u))
  {
    Utf8Ascii(ToString(u));
  }

  /** When every pair spells the byte of u, the pairs read as u, with no error. */
  lemma ReadPairsAllHex(b: seq<Byte>, position: nat -> nat, keepFailed: bool, u: Uuid)
    requires forall i :: 0 <= i < 16 ==> position(i) + 1 < |b|
    requires forall i :: 0 <= i < 16 ==> PairAt(b, position(i)) == (u[i], true)
    ensures ReadPairs(b, position, keepFailed) == Parsed(u, None)
  {
    var r := ReadPairs(b, position, keepFailed);
    assert PairsOk(b, position, 16);
    ReadPairsBytes(b, position, keepFailed, u);
    assert r.uuid == u;
  }

  lemma ReadPairsBytes(b: seq<Byte>, position: nat -> nat, keepFailed: bool, u: Uuid)
    requires forall i :: 0 <= i < 16 ==> position(i) + 1 < |b|
    requires forall i :: 0 <= i < 16 ==> PairAt(b, position(i)) == (u[i], true)
    ensures forall i :: 0 <= i < 16 ==> ReadPairs(b, position, keepFailed).uuid[i] == u[i]
  {
    var r := ReadPairs(b, position, keepFailed);
    forall i | 0 <= i < 16
      ensures r.uuid[i] == u[i]
    {
      assert PairsOk(b, position, i + 1);
    }
  }

  /** Byte i of u is spelled at its position in the printed form. */
  lemma PrintedPair(u: Uuid, i: nat)
    requires i < 16
    ensures IsAscii(ToString(u)) && PairAt(Ascii(ToString(u)), BytePosition(i)) == (u[i], true)
  {
    var b := Ascii(ToString(u));
    var p := BytePosition(i);
    assert DigitIndex(p) == 2 * i && DigitIndex(p + 1) == 2 * i + 1;
    HexValueOfDigit(u[i] as int / 16);
    HexValueOfDigit(u[i] as int % 16);
    assert XValue(b[p]) == u[i] as int / 16;
    assert XValue(b[p + 1]) == u[i] as int % 16;
  }

  /** Parsing the bytes of the printed form gives the UUID back, with no error. */
  lemma ParseCanonicalToString(u: Uuid)
    ensures IsAscii(ToString(u)) && ParseCanonical(Ascii(ToString(u))) == Parsed(u, None)
  {
    var b := Ascii(ToString(u));
    forall i | 0 <= i < 16
      ensures PairAt(b, CanonicalPosition(i)) == (u[i], true)
    {
      PrintedPair(u, i);
    }
    assert b[8] == Dash && b[13] == Dash && b[18] == Dash && b[23] == Dash;
    ReadPairsAllHex(b, CanonicalPosition, false, u);
  }

  /** Parsing the printed form gives the UUID back. */
  lemma ParseToString(u: Uuid)
    ensures Parse(ToString(u)) == Some(u)
  {
    ToStringBytes(u);
    ParseCanonicalToString(u);
  }

  /**
   * The 38-byte form drops its first byte unchecked and ignores its last,
   * so the printed form between any two ASCII characters (quotes, in
   * particular) parses as well.
   */
  lemma ParseEnclosed(u: Uuid, open: char, close: char)
    requires open as int < 128 && close as int < 128
    ensures Parse([open] + ToString(u) + [close]) == Some(u)
  {
    var b := EnclosedBytes(u, open, close);
    ParseCanonicalOnlyReadsPrefix(b[1..]);
    ParseCanonicalToString(u);
  }

  /** The bytes of the printed form between two ASCII characters. */
  lemma EnclosedBytes(u: Uuid, open: char, close: char) returns (b: seq<Byte>)
    requires open as int < 128 && close as int < 128
    ensures b == Utf8([open] + ToString(u) + [close])
    ensures |b| == 38 && IsAscii(ToString(u)) && b[1..][..36] == Ascii(ToString(u))
  {
    var s := [open] + ToString(u) + [close];
    ToStringBytes(u);
    assert IsAscii(s);
    Utf8Ascii(s);
    b := Ascii(s);
  }

  /**
   * A delimiter of more than one byte moves the text out of the 38-byte
   * form: with an opening 'é' (two bytes) the input is 39 bytes long and
   * is refused for its length, though it has 38 characters.
   */
  lemma NonAsciiDelimiterRefused(u: Uuid, close: char)
    requires close as int < 128
    ensures |['\U{e9}'] + ToString(u) + [close]| == 38
    ensures ParseResult(['\U{e9}'] + ToString(u) + [close]).err == Some(InvalidLength(39))
  {
    var s := ['\U{e9}'] + ToString(u) + [close];
    ToStringBytes(u);
    Utf8Append(['\U{e9}'], ToString(u) + [close]);
    Utf8Append(ToString(u), [close]);
    assert s == ['\U{e9}'] + (ToString(u) + [close]);
    assert |Utf8(['\U{e9}'])| == 2;
  }

  /** 12345678-0000-0000-0000-000000000000: the first four bytes of the PartialParse input. */
  const PartialUuid: Uuid := [0x12, 0x34, 0x56, 0x78, 0, 0, 0, 0, 0, 0, 0, 0, 0, 0, 0, 0]

  /**
   * A bad pair ends the parse with the bytes read before it: for
   * "12345678-zzzz-0000-0000-000000000000" the UUID returned alongside
   * the error is 12345678-0000-0000-0000-000000000000.
   */
  lemma PartialParse(s: string)
    requires s == "12345678-zzzz-0000-0000-000000000000"
    ensures ParseResult(s).err == Some(InvalidFormat)
    ensures ParseResult(s).uuid == PartialUuid
  {
    PartialParseChars(s);
    Utf8Ascii(s);
    var b := Ascii(s);
    PairOfDigits(b, 0, 0x31, 0x32);
    PairOfDigits(b, 2, 0x33, 0x34);
    PairOfDigits(b, 4, 0x35, 0x36);
    PairOfDigits(b, 6, 0x37, 0x38);
    assert XValue(b[9]) == 255;
    PartialParseBytes(b);
  }

  /** The characters of the PartialParse input that the parse looks at. */
  lemma PartialParseChars(s: string)
    requires s == "12345678-zzzz-0000-0000-000000000000"
    ensures |s| == 36 && IsAscii(s)
    ensures s[0] == '1' && s[1] == '2' && s[2] == '3' && s[3] == '4'
    ensures s[4] == '5' && s[5] == '6' && s[6] == '7' && s[7] == '8' && s[9] == 'z'
    ensures s[8] == '-' && s[13] == '-' && s[18] == '-' && s[23] == '-'
  {
    PartialParseDigits(s);
    PartialParseLastDigits(s);
  }

  lemma PartialParseDigits(s: string)
    requires s == "12345678-zzzz-0000-0000-000000000000"
    ensures s[0] == '1' && s[1] == '2' && s[2] == '3' && s[3] == '4'
  {
  }

  lemma PartialParseLastDigits(s: string)
    requires s == "12345678-zzzz-0000-0000-000000000000"
    ensures s[4] == '5' && s[5] == '6' && s[6] == '7' && s[7] == '8' && s[9] == 'z'
  {
  }

  /** The pair at p when its two bytes are known. */
  lemma PairOfDigits(b: seq<Byte>, p: nat, hi: Byte, lo: Byte)
    requires p + 1 < |b| && b[p] == hi && b[p + 1] == lo
    ensures PairAt(b, p) == Xtob(hi, lo)
  {
  }

  /** The byte-level form of PartialParse: four good pairs, then a bad one. */
  lemma PartialParseBytes(b: seq<Byte>)
    requires |b| == 36 && b[8] == Dash && b[13] == Dash && b[18] == Dash && b[23] == Dash
    requires PairAt(b, 0) == (0x12, true) && PairAt(b, 2) == (0x34, true)
    requires PairAt(b, 4) == (0x56, true) && PairAt(b, 6) == (0x78, true)
    requires !PairAt(b, 9).1
    ensures ParseCanonical(b) == Parsed(PartialUuid, Some(InvalidFormat))
  {
    var r := ReadPairs(b, CanonicalPosition, false);
    assert CanonicalPosition(4) == 9;
    forall i | 0 <= i < 16
      ensures r.uuid[i] == PartialUuid[i]
    {
      if i < 4 {
        assert PairsOk(b, CanonicalPosition, i + 1);
      } else if i == 4 {
        assert PairsOk(b, CanonicalPosition, 4);
      } else {
        assert !PairsOk(b, CanonicalPosition, i);
      }
    }
  }

  /** Two UUIDs print alike only when they are equal. */
  lemma ToStringInjective(u: Uuid, v: Uuid)
    ensures ToString(u) == ToString(v) <==> u == v
  {
    if ToString(u) == ToString(v) {
      ParseToString(u);
      ParseToString(v);
    }
  }
}
