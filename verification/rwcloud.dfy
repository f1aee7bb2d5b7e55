/**
 * The encoded cluster ID of internal/utils/rwcloud: the NsID UUID spelled
 * in 26 base-32 digits (with two prefix bits 10 in front of its 128 bits),
 * embedded in "rwc-<digits>-<name>" and Base64-encoded.
 */
module RwCloud {
  import opened Bytes
  import opened Uuid
  import opened Arith
  import Base64

  /** The digits, the lower-case "base32hex" alphabet of section 7 of RFC 4648. */
  const Base32Chars := "0123456789abcdefghijklmnopqrstuv"

  /** Go's uint is 64 bits wide: a left shift drops whatever passes bit 63. */
  const UintModulus: nat := 0x1_0000_0000_0000_0000

  /** The bytes read as one unsigned big-endian number. */
  function BigEndian(bs: seq<Byte>): nat
  {
    if |bs| == 0 then 0 else BigEndian(bs[..|bs| - 1]) * 256 + bs[|bs| - 1] as int
  }

  /** The k lowest base-32 digits of n, most significant first. */
  function Digits(n: int, k: nat): (r: seq<nat>)
    decreases k
    ensures |r| == k
    ensures forall i :: 0 <= i < k ==> r[i] < 32
  {
    if k == 0 then [] else Digits(n / 32, k - 1) + [n % 32]
  }

  /** Spells base-32 digits with the alphabet. */
  function Spell(ds: seq<nat>): (r: string)
    requires forall i :: 0 <= i < |ds| ==> ds[i] < 32
    ensures |r| == |ds|
    ensures forall i :: 0 <= i < |ds| ==> r[i] == Base32Chars[ds[i]]
  {
    seq(|ds|, i requires 0 <= i < |ds| => Base32Chars[ds[i]])
  }

  /** The number ToBase32 spells: the bits 10 followed by the 128 bits of the UUID. */
  function PrefixedValue(u: Uuid): nat
  {
    2 * Pow2(8 * |u|) + BigEndian(u)
  }

  /** Reference for ToBase32: the 26-digit base-32 spelling of PrefixedValue(u). */
  function Base32(u: Uuid): string
  {
    Spell(Digits(PrefixedValue(u), 26))
  }

  /**
   * ToBase32 as written: a uint buffer that takes one byte at a time and
   * gives out 5-bit groups, most significant first, while it holds five
   * bits or more. The buffer is never masked, so high bits fall off the
   * 64-bit word; the emitted digits are the ones of the reference all the
   * same.
   */
  method ToBase32(u: Uuid) returns (r: string)
    ensures r == Base32(u)
  {
    var buffer: nat := 2;
    var bufferLen: nat := 2;
    r := "";
    ghost var v: nat := 2;
    for i := 0 to 16
      invariant v == 2 * Pow2(8 * i) + BigEndian(u[..i])
      invariant bufferLen < 5 && bufferLen + 5 * |r| == 2 + 8 * i
      invariant buffer < UintModulus
      invariant buffer % Pow2(bufferLen) == v % Pow2(bufferLen)
      invariant r == Spell(Digits(v / Pow2(bufferLen), |r|))
    {
      var b := u[i] as int;
      ShiftIn(buffer, v, bufferLen, b);
      NextByte(u, i, v);
      // buffer = (buffer << 8) | uint(uuid[i]); the low byte of the shifted word is zero.
      buffer := (buffer * 256) % UintModulus + b;
      v := v * 256 + b;
      bufferLen := bufferLen + 8;
      r, bufferLen := EmitGroups(buffer, bufferLen, r, v);
    }
    assert bufferLen == 0 && |r| == 26;
    assert u[..16] == u;
    assert v / Pow2(0) == PrefixedValue(u);
  }

  /**
   * The inner loop of ToBase32: gives out 5-bit groups of the buffer, most
   * significant first, until fewer than five bits are left.
   */
  method EmitGroups(buffer: nat, len0: nat, r0: string, ghost v: nat) returns (r: string, bufferLen: nat)
    requires len0 < 13
    requires buffer % Pow2(len0) == v % Pow2(len0)
    requires r0 == Spell(Digits(v / Pow2(len0), |r0|))
    ensures bufferLen < 5 && bufferLen + 5 * |r| == len0 + 5 * |r0|
    ensures buffer % Pow2(bufferLen) == v % Pow2(bufferLen)
    ensures r == Spell(Digits(v / Pow2(bufferLen), |r|))
  {
    r, bufferLen := r0, len0;
    while bufferLen >= 5
      invariant bufferLen < 13 && bufferLen + 5 * |r| == len0 + 5 * |r0|
      invariant buffer % Pow2(bufferLen) == v % Pow2(bufferLen)
      invariant r == Spell(Digits(v / Pow2(bufferLen), |r|))
      decreases bufferLen
    {
      var shift := bufferLen - 5;
      EmitStep(buffer, v, bufferLen, r);
      var charIdx := (buffer / Pow2(shift)) % 32;
      r := r + [Base32Chars[charIdx]];
      bufferLen := bufferLen - 5;
    }
  }

  /** One 5-bit group out: the next digit of the exact value, lower bits still alike. */
  lemma EmitStep(buffer: nat, v: nat, len: nat, r: string)
    requires len >= 5
    requires buffer % Pow2(len) == v % Pow2(len)
    requires r == Spell(Digits(v / Pow2(len), |r|))
    ensures buffer % Pow2(len - 5) == v % Pow2(len - 5)
    ensures r + [Base32Chars[(buffer / Pow2(len - 5)) % 32]] == Spell(Digits(v / Pow2(len - 5), |r| + 1))
  {
    var p := Pow2(len - 5);
    Pow2Split(len);
    EmittedDigit(buffer, v, p);
    NextDigit(v / p, |r|);
  }

  lemma Pow2Split(len: nat)
    requires len >= 5
    ensures Pow2(len) == Pow2(len - 5) * 32
  {
    Pow2Add(len - 5, 5);
    Pow2Five();
  }

  /** Spelling one more digit of q appends the digit q % 32 to the spelling of q / 32. */
  lemma NextDigit(q: int, k: nat)
    ensures Spell(Digits(q, k + 1)) == Spell(Digits(q / 32, k)) + [Base32Chars[q % 32]]
  {
    SpellAppend(Digits(q / 32, k), q % 32);
  }

  lemma SpellAppend(xs: seq<nat>, d: nat)
    requires forall i :: 0 <= i < |xs| ==> xs[i] < 32
    requires d < 32
    ensures Spell(xs + [d]) == Spell(xs) + [Base32Chars[d]]
  {
  }

  lemma Pow2Five()
    ensures Pow2(5) == 32
  {
    assert Pow2(2) == 4;
  }

  /** Taking byte i in extends the exact value by that byte. */
  lemma NextByte(u: Uuid, i: nat, v: int)
    requires i < 16
    requires v == 2 * Pow2(8 * i) + BigEndian(u[..i])
    ensures v * 256 + u[i] as int == 2 * Pow2(8 * (i + 1)) + BigEndian(u[..i + 1])
  {
    var p, b := Pow2(8 * i), BigEndian(u[..i]);
    assert u[..i + 1][..i] == u[..i];
    assert BigEndian(u[..i + 1]) == b * 256 + u[i] as int;
    Pow2Add(8 * i, 8);
    Pow2Value8();
    assert 8 * (i + 1) == 8 * i + 8;
    assert Pow2(8 * (i + 1)) == p * 256;
    assert v * 256 == 2 * (p * 256) + b * 256;
  }

  /** The left shift of a uint by eight bits keeps the low 56 bits, moved up. */
  lemma WrapShift(buffer: nat)
    ensures (buffer * 256) % UintModulus == (buffer % Pow2(56)) * 256
    ensures buffer % Pow2(56) < Pow2(56)
    ensures UintModulus == Pow2(56) * 256
  {
    Pow2Value56();
    ShiftInMod(buffer, 0, Pow2(56));
  }

  lemma Pow2Value56()
    ensures Pow2(56) == 0x100_0000_0000_0000
  {
    Pow2Value8();
    Pow2Add(8, 8);
    Pow2Add(16, 16);
    Pow2Add(32, 16);
    Pow2Add(48, 8);
  }

  /** Taking a byte in keeps the buffer and the exact value alike in their low bits. */
  lemma ShiftIn(buffer: nat, v: nat, len: nat, b: nat)
    requires len < 5 && b < 256
    requires buffer % Pow2(len) == v % Pow2(len)
    ensures (buffer * 256) % UintModulus + b < UintModulus
    ensures ((buffer * 256) % UintModulus + b) % Pow2(len + 8) == (v * 256 + b) % Pow2(len + 8)
    ensures (v * 256 + b) / Pow2(len + 8) == v / Pow2(len)
  {
    WrapShift(buffer);
    var a := buffer % Pow2(56);
    var p := Pow2(len);
    Pow2Add(len, 8);
    Pow2Value8();
    assert Pow2(len + 8) == p * 256;
    Pow2Add(len, 56 - len);
    assert p * Pow2(56 - len) == Pow2(56);
    ModMod(buffer, p, Pow2(56 - len));
    assert a % p == v % p;
    ShiftInMod(a, b, p);
    ShiftInMod(v, b, p);
    DivDiv(v * 256 + b, 256, p);
  }

  /** The group the buffer gives out is the group of the exact value. */
  lemma EmittedDigit(buffer: nat, v: nat, p: nat)
    requires p > 0
    requires buffer % (p * 32) == v % (p * 32)
    ensures (buffer / p) % 32 == (v / p) % 32
    ensures buffer % p == v % p
    ensures (v / p) / 32 == v / (p * 32)
  {
    DivMod(buffer, p, 32);
    DivMod(v, p, 32);
    ModMod(buffer, p, 32);
    ModMod(v, p, 32);
    DivDiv(v, p, 32);
  }

  lemma Pow2Value8()
    ensures Pow2(5) == 32 && Pow2(8) == 256
  {
    assert Pow2(1) == 2 && Pow2(2) == 4 && Pow2(3) == 8 && Pow2(4) == 16;
    assert Pow2(6) == 64 && Pow2(7) == 128;
  }

  /** The alphabet's letters follow the digits in code order. */
  function Digit32(d: nat): char
    requires d < 32
  {
    if d < 10 then ('0' as int + d) as char else ('a' as int + d - 10) as char
  }

  lemma Base32CharsInOrder(d: nat)
    requires d < 32
    ensures Base32Chars[d] == Digit32(d)
  {
  }

  lemma Base32CharsDistinct(a: nat, b: nat)
    requires a < 32 && b < 32
    ensures Base32Chars[a] == Base32Chars[b] <==> a == b
  {
    Base32CharsInOrder(a);
    Base32CharsInOrder(b);
  }

  lemma {:induction false} BigEndianBound(bs: seq<Byte>)
    ensures BigEndian(bs) < Pow2(8 * |bs|)
    decreases |bs|
  {
    if |bs| > 0 {
      var init := bs[..|bs| - 1];
      BigEndianBound(init);
      Pow2Add(8 * |init|, 8);
      Pow2Value8();
      assert 8 * |bs| == 8 * |init| + 8;
      MulMono(256, Pow2(8 * |init|) - 1, BigEndian(init));
    }
  }

  lemma {:induction false} BigEndianInjective(a: seq<Byte>, b: seq<Byte>)
    requires |a| == |b| && BigEndian(a) == BigEndian(b)
    ensures a == b
    decreases |a|
  {
    if |a| > 0 {
      var n := |a| - 1;
      DivModUnique(BigEndian(a), 256, BigEndian(a[..n]), a[n] as int);
      DivModUnique(BigEndian(b), 256, BigEndian(b[..n]), b[n] as int);
      BigEndianInjective(a[..n], b[..n]);
      assert a == a[..n] + [a[n]] && b == b[..n] + [b[n]];
    }
  }

  /** The first of the k digits is the group of n above the lowest 5(k-1) bits. */
  lemma {:induction false} FirstDigit(n: nat, k: nat)
    requires k >= 1
    ensures Digits(n, k)[0] == (n / Pow2(5 * (k - 1))) % 32
    decreases k
  {
    if k > 1 {
      FirstDigit(n / 32, k - 1);
      Pow2Add(5, 5 * (k - 2));
      Pow2Five();
      assert 5 * (k - 1) == 5 + 5 * (k - 2);
      DivDiv(n, 32, Pow2(5 * (k - 2)));
    }
  }

  /** Below 32^k, the k digits determine the number. */
  lemma {:induction false} DigitsInjective(n: nat, m: nat, k: nat)
    requires n < Pow2(5 * k) && m < Pow2(5 * k)
    requires Digits(n, k) == Digits(m, k)
    ensures n == m
    decreases k
  {
    if k == 0 {
    } else {
      Pow2Add(5, 5 * (k - 1));
      Pow2Five();
      assert 5 * k == 5 + 5 * (k - 1);
      assert Digits(n, k)[k - 1] == n % 32 && Digits(m, k)[k - 1] == m % 32;
      assert Digits(n / 32, k - 1) == Digits(n, k)[..k - 1];
      assert Digits(m / 32, k - 1) == Digits(m, k)[..k - 1];
      DivBelow(n, 32, Pow2(5 * (k - 1)));
      DivBelow(m, 32, Pow2(5 * (k - 1)));
      DigitsInjective(n / 32, m / 32, k - 1);
    }
  }

  /**
   * The value spelled is below 2^130, and its top five bits are 10 followed
   * by the top three bits of the UUID. The exponents are written in terms of
   * |u| (16) so that they stay symbolic.
   */
  lemma PrefixedValueBounds(u: Uuid)
    ensures PrefixedValue(u) < Pow2(8 * |u| + 2)
    ensures PrefixedValue(u) / Pow2(8 * |u| - 3) == 16 + BigEndian(u) / Pow2(8 * |u| - 3)
    ensures 0 <= BigEndian(u) / Pow2(8 * |u| - 3) < 8
  {
    var m := 8 * |u| - 3;
    var p := Pow2(m);
    BigEndianBound(u);
    Pow2Add(m, 3);
    Pow2Add(m + 3, 2);
    assert Pow2(3) == 8 && Pow2(2) == 4;
    assert Pow2(8 * |u|) == p * 8;
    assert PrefixedValue(u) == p * 16 + BigEndian(u);
    TopBits(BigEndian(u), p);
  }

  /** Adding 16 whole units of p in front of a value below 8p. */
  lemma TopBits(be: int, p: int)
    requires p > 0 && 0 <= be < p * 8
    ensures (p * 16 + be) / p == 16 + be / p
    ensures 0 <= be / p < 8
    ensures p * 16 + be < p * 32
  {
    var q: int, r: int := be / p, be % p;
    DivNonNegative(be, p);
    assert be == p * q + r;
    assert p * (16 + q) == p * 16 + p * q;
    DivModUnique(p * 16 + be, p, 16 + q, r);
    DivBelow(be, p, 8);
  }

  /**
   * The spelling has 26 characters, all from the alphabet, and the first is
   * one of g..n: the group 10 followed by the top three bits of byte 0.
   */
  lemma Base32Shape(u: Uuid)
    ensures |Base32(u)| == 26
    ensures forall i :: 0 <= i < 26 ==> Base32(u)[i] in Base32Chars
    ensures Base32(u)[0] in "ghijklmn"
  {
    var n := PrefixedValue(u);
    var k := |Digits(n, 26)|;
    FirstDigit(n, k);
    PrefixedValueBounds(u);
    assert 5 * (k - 1) == 8 * |u| - 3;
    var t := n / Pow2(8 * |u| - 3);
    assert 16 <= t < 24;
    DivModUnique(t, 32, 0, t);
    var d := Digits(n, 26)[0];
    assert d == t;
    FirstLetters(d);
  }

  lemma FirstLetters(d: nat)
    requires 16 <= d < 24
    ensures Base32Chars[d] in "ghijklmn"
  {
    assert Base32Chars[16..24] == "ghijklmn";
    assert Base32Chars[d] == Base32Chars[16..24][d - 16];
  }

  /** Distinct UUIDs are spelled differently. */
  lemma Base32Injective(u: Uuid, w: Uuid)
    ensures Base32(u) == Base32(w) <==> u == w
  {
    if Base32(u) == Base32(w) {
      var du, dw := Digits(PrefixedValue(u), 26), Digits(PrefixedValue(w), 26);
      forall i | 0 <= i < 26
        ensures du[i] == dw[i]
      {
        Base32CharsDistinct(du[i], dw[i]);
      }
      assert du == dw;
      PrefixedValueBounds(u);
      PrefixedValueBounds(w);
      var k := |du|;
      assert 5 * k == 8 * |u| + 2;
      DigitsInjective(PrefixedValue(u), PrefixedValue(w), k);
      BigEndianInjective(u, w);
    }
  }

  /** The bytes the encoded cluster ID carries: "rwc-", the base-32 NsID, "-", then the name's bytes. */
  function ClusterIdText(nsID: Uuid, name: seq<Byte>): (r: seq<Byte>)
    ensures |r| == 31 + |name| && r[31..] == name
  {
    Base32Ascii(nsID);
    Ascii("rwc-" + Base32(nsID) + "-") + name
  }

  /**
   * BuildEncodedClusterID: the Base64 text whose decoding is exactly
   * "rwc-<ToBase32(nsID)>-<name>".
   */
  method BuildEncodedClusterID(nsID: Uuid, name: seq<Byte>) returns (r: string)
    ensures Base64.Decode(r) == Wrappers.Some(ClusterIdText(nsID, name))
    ensures |r| == 4 * ((31 + |name| + 2) / 3)
  {
    var b32 := ToBase32(nsID);
    Base32Ascii(nsID);
    r := Base64.Encode(Ascii("rwc-" + b32 + "-") + name);
    Base64.DecodeEncode(ClusterIdText(nsID, name));
  }

  /** The spelling is plain ASCII, so its bytes are its characters. */
  lemma Base32Ascii(u: Uuid)
    ensures IsAscii("rwc-" + Base32(u) + "-")
  {
    var ds := Digits(PrefixedValue(u), 26);
    var s := "rwc-" + Base32(u) + "-";
    forall i | 0 <= i < |s|
      ensures s[i] as int < 128
    {
      if 4 <= i < 30 {
        Base32CharsInOrder(ds[i - 4]);
        assert s[i] == Base32(u)[i - 4] == Base32Chars[ds[i - 4]];
      }
    }
  }

  /** Two encoded cluster IDs are equal exactly when their namespaces and names are. */
  lemma ClusterIdInjective(u: Uuid, a: seq<Byte>, w: Uuid, b: seq<Byte>)
    ensures ClusterIdText(u, a) == ClusterIdText(w, b) <==> u == w && a == b
  {
    if ClusterIdText(u, a) == ClusterIdText(w, b) {
      Base32Ascii(u);
      Base32Ascii(w);
      var pu, pw := "rwc-" + Base32(u) + "-", "rwc-" + Base32(w) + "-";
      assert Ascii(pu) == ClusterIdText(u, a)[..31];
      assert Ascii(pw) == ClusterIdText(w, b)[..31];
      AsciiInjective(pu, pw);
      assert Base32(u) == pu[4..30] == pw[4..30] == Base32(w);
      Base32Injective(u, w);
    }
  }
}
