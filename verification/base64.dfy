/**
 * Base64 as section 4 of RFC 4648 defines it (Go's base64.StdEncoding):
 * every three bytes become four characters of a 64-letter alphabet, and a
 * final group of one or two bytes is padded with "==" or "=".
 */
module Base64 {
  import opened Wrappers
  import opened Bytes

  /** The letter for a 6-bit value, by the ranges of Table 1 of RFC 4648. */
  function Letter(v: nat): (c: char)
    requires v < 64
    ensures c as int < 128 && c != '='
  {
    if v < 26 then ('A' as int + v) as char
    else if v < 52 then ('a' as int + v - 26) as char
    else if v < 62 then ('0' as int + v - 52) as char
    else if v == 62 then '+'
    else '/'
  }

  /** The alphabet of Table 1 of RFC 4648. */
  const Alphabet: string := seq(64, v requires 0 <= v < 64 => Letter(v))


  /** The value a character encodes, or None for characters outside the alphabet. */
  function CharValue(c: char): (r: Option<nat>)
    ensures r.Some? ==> r.value < 64
  {
    if 'A' <= c <= 'Z' then Some(c as int - 'A' as int)
    else if 'a' <= c <= 'z' then Some(c as int - 'a' as int + 26)
    else if '0' <= c <= '9' then Some(c as int - '0' as int + 52)
    else if c == '+' then Some(62)
    else if c == '/' then Some(63)
    else None
  }

  lemma CharValueOfAlphabet(v: nat)
    requires v < 64
    ensures CharValue(Alphabet[v]) == Some(v)
  {
  }

  /** The four 6-bit groups of three bytes, most significant first. */
  function Sextets(b0: Byte, b1: Byte, b2: Byte): (r: seq<nat>)
    ensures |r| == 4 && forall i :: 0 <= i < 4 ==> r[i] < 64
  {
    var x0, x1, x2 := b0 as int, b1 as int, b2 as int;
    [x0 / 4, (x0 % 4) * 16 + x1 / 16, (x1 % 16) * 4 + x2 / 64, x2 % 64]
  }

  function Letters(vs: seq<nat>): (r: string)
    requires forall i :: 0 <= i < |vs| ==> vs[i] < 64
    ensures |r| == |vs|
    ensures forall i :: 0 <= i < |r| ==> r[i] == Letter(vs[i]) && r[i] as int < 128
  {
    seq(|vs|, i requires 0 <= i < |vs| => Alphabet[vs[i]])
  }

  /** base64.StdEncoding.EncodeToString. */
  function Encode(bs: seq<Byte>): (r: string)
    ensures |r| == 4 * ((|bs| + 2) / 3)
    ensures forall i :: 0 <= i < |r| ==> r[i] as int < 128
    decreases |bs|
  {
    if |bs| == 0 then ""
    else if |bs| == 1 then Letters(Sextets(bs[0], 0, 0)[..2]) + "=="
    else if |bs| == 2 then Letters(Sextets(bs[0], bs[1], 0)[..3]) + "="
    else Letters(Sextets(bs[0], bs[1], bs[2])) + Encode(bs[3..])
  }

  /** The three bytes four 6-bit groups spell. */
  function Octets(c0: nat, c1: nat, c2: nat, c3: nat): (r: seq<Byte>)
    requires c0 < 64 && c1 < 64 && c2 < 64 && c3 < 64
    ensures |r| == 3
  {
    [(c0 * 4 + c1 / 16) as Byte, ((c1 % 16) * 16 + c2 / 4) as Byte, ((c2 % 4) * 64 + c3) as Byte]
  }

  /** Decoding per section 4 of RFC 4648; None on a character outside the alphabet or a bad length. */
  function Decode(s: string): (r: Option<seq<Byte>>)
    decreases |s|
  {
    if |s| == 0 then Some([])
    else if |s| < 4 then None
    else
      var v0, v1, v2, v3 := CharValue(s[0]), CharValue(s[1]), CharValue(s[2]), CharValue(s[3]);
      if !v0.Some? || !v1.Some? then None
      else if |s| == 4 && s[2] == '=' && s[3] == '=' then
        Some(Octets(v0.value, v1.value, 0, 0)[..1])
      else if !v2.Some? then None
      else if |s| == 4 && s[3] == '=' then
        Some(Octets(v0.value, v1.value, v2.value, 0)[..2])
      else if !v3.Some? then None
      else
        match Decode(s[4..])
        case Some(rest) => Some(Octets(v0.value, v1.value, v2.value, v3.value) + rest)
        case None => None
  }

  lemma OctetsOfSextets(b0: Byte, b1: Byte, b2: Byte)
    ensures var c := Sextets(b0, b1, b2); Octets(c[0], c[1], c[2], c[3]) == [b0, b1, b2]
  {
  }

  lemma OctetsOfPaddedSextets(b0: Byte, b1: Byte)
    ensures var c := Sextets(b0, b1, 0); Octets(c[0], c[1], c[2], 0)[..2] == [b0, b1]
    ensures var c := Sextets(b0, 0, 0); Octets(c[0], c[1], 0, 0)[..1] == [b0]
  {
  }

  lemma DecodeOneByte(b0: Byte)
    ensures Decode(Encode([b0])) == Some([b0])
  {
    var c := Sextets(b0, 0, 0);
    CharValueOfAlphabet(c[0]);
    CharValueOfAlphabet(c[1]);
    OctetsOfPaddedSextets(b0, 0);
  }

  lemma DecodeTwoBytes(b0: Byte, b1: Byte)
    ensures Decode(Encode([b0, b1])) == Some([b0, b1])
  {
    var s := Encode([b0, b1]);
    var c := Sextets(b0, b1, 0);
    CharValueOfAlphabet(c[0]);
    CharValueOfAlphabet(c[1]);
    CharValueOfAlphabet(c[2]);
    OctetsOfPaddedSextets(b0, b1);
    assert s == Letters(c[..3]) + "=";
    assert s[0] == Alphabet[c[0]] && s[1] == Alphabet[c[1]] && s[2] == Alphabet[c[2]];
    assert s[2] != '=' && s[3] == '=';
  }

  /** Decoding undoes encoding. */
  lemma {:induction false} DecodeEncode(bs: seq<Byte>)
    ensures Decode(Encode(bs)) == Some(bs)
    decreases |bs|
  {
    var s := Encode(bs);
    if |bs| == 1 {
      assert bs == [bs[0]];
      DecodeOneByte(bs[0]);
    } else if |bs| == 2 {
      assert bs == [bs[0], bs[1]];
      DecodeTwoBytes(bs[0], bs[1]);
    } else if |bs| >= 3 {
      DecodeEncode(bs[3..]);
      DecodeGroup(bs);
    }
  }

  /** Four alphabet letters followed by a decodable rest decode to their three bytes and the rest. */
  lemma DecodeLetters(c: seq<nat>, rest: string, tail: seq<Byte>)
    requires |c| == 4 && forall i :: 0 <= i < 4 ==> c[i] < 64
    requires Decode(rest) == Some(tail)
    ensures Decode(Letters(c) + rest) == Some(Octets(c[0], c[1], c[2], c[3]) + tail)
  {
    var s := Letters(c) + rest;
    CharValueOfAlphabet(c[0]);
    CharValueOfAlphabet(c[1]);
    CharValueOfAlphabet(c[2]);
    CharValueOfAlphabet(c[3]);
    assert s[0] == Alphabet[c[0]] && s[1] == Alphabet[c[1]];
    assert s[2] == Alphabet[c[2]] && s[3] == Alphabet[c[3]];
    assert s[4..] == rest;
  }

  /** One full group decodes back, given that the rest does. */
  lemma DecodeGroup(bs: seq<Byte>)
    requires |bs| >= 3 && Decode(Encode(bs[3..])) == Some(bs[3..])
    ensures Decode(Encode(bs)) == Some(bs)
  {
    var c := Sextets(bs[0], bs[1], bs[2]);
    assert Encode(bs) == Letters(c) + Encode(bs[3..]);
    DecodeLetters(c, Encode(bs[3..]), bs[3..]);
    OctetsOfSextets(bs[0], bs[1], bs[2]);
    FirstThree(bs);
  }

  lemma FirstThree(bs: seq<Byte>)
    requires |bs| >= 3
    ensures [bs[0], bs[1], bs[2]] + bs[3..] == bs
  {
  }

  /** Two byte strings encode alike only when they are equal. */
  lemma EncodeInjective(a: seq<Byte>, b: seq<Byte>)
    ensures Encode(a) == Encode(b) <==> a == b
  {
    if Encode(a) == Encode(b) {
      DecodeEncode(a);
      DecodeEncode(b);
    }
  }
}
