/** Hexadecimal strings and bit vectors: two digits make a byte, the last two first, and each byte makes
    eight bits, the least significant first. */
module Codec {
  import opened Numbers

  predicate IsHex(c: char) { '0' <= c <= '9' || 'a' <= c <= 'f' || 'A' <= c <= 'F' }

  function Digit(c: char): (d: nat)
    requires IsHex(c)
    ensures d < 16
  {
    if '0' <= c <= '9' then (c - '0') as nat
    else if 'a' <= c <= 'f' then 10 + (c - 'a') as nat
    else 10 + (c - 'A') as nat
  }

  /** The digits the output uses are lower case. */
  function DigitChar(d: nat): (c: char)
    requires d < 16
    ensures IsHex(c) && Digit(c) == d && !('A' <= c <= 'F')
  {
    if d < 10 then '0' + d as char else 'a' + (d - 10) as char
  }

  const LOWER_DIGITS := "0123456789abcdef"
  const UPPER_DIGITS := "0123456789ABCDEF"

  /** Where c stands in the digits. */
  function Position(c: char, digits: string): (k: nat)
    requires c in digits
    ensures k < |digits| && digits[k] == c && c !in digits[..k]
  {
    if digits[0] == c then 0 else 1 + Position(c, digits[1..])
  }

  /** The number a digit stands for: its position in one of the two rows. */
  function DigitValue(c: char): nat
    requires c in LOWER_DIGITS || c in UPPER_DIGITS
  {
    if c in LOWER_DIGITS then Position(c, LOWER_DIGITS) else Position(c, UPPER_DIGITS)
  }

  /** A character is read if and only if it stands in one of the rows, as its position there; a number is
      written as the character at its position in the lower-case row. */
  lemma {:induction false} DigitsByPosition(c: char, d: nat)
    requires d < 16
    ensures IsHex(c) <==> c in LOWER_DIGITS || c in UPPER_DIGITS
    ensures IsHex(c) ==> Digit(c) == DigitValue(c)
    ensures DigitChar(d) == LOWER_DIGITS[d]
  {
    AtPosition(d);
    if c in LOWER_DIGITS { AtPosition(Position(c, LOWER_DIGITS)); }
    if c in UPPER_DIGITS { AtPosition(Position(c, UPPER_DIGITS)); }
    if IsHex(c) {
      AtPosition(Digit(c));
      assert c == if 'A' <= c <= 'F' then UPPER_DIGITS[Digit(c)] else LOWER_DIGITS[Digit(c)];
    }
  }

  lemma {:induction false} AtPosition(k: nat)
    requires k < 16
    ensures IsHex(LOWER_DIGITS[k]) && Digit(LOWER_DIGITS[k]) == k && DigitChar(k) == LOWER_DIGITS[k]
    ensures IsHex(UPPER_DIGITS[k]) && Digit(UPPER_DIGITS[k]) == k
  {}

  function Lower(s: string): (r: string)
    requires AllHex(s)
    ensures |r| == |s| && AllHex(r)
  {
    if |s| == 0 then "" else Lower(s[..|s| - 1]) + [DigitChar(Digit(s[|s| - 1]))]
  }

  predicate AllHex(s: string) { forall i | 0 <= i < |s| :: IsHex(s[i]) }
  predicate AllBits(b: seq<int>) { forall i | 0 <= i < |b| :: b[i] == 0 || b[i] == 1 }
  predicate AllBytes(b: seq<nat>) { forall i | 0 <= i < |b| :: b[i] < 256 }

  // ---- what the strings and vectors denote ----

  function HexValue(s: string): nat
    requires AllHex(s)
  {
    if |s| == 0 then 0
    else DigitsByPosition(s[|s| - 1], 0); 16 * HexValue(s[..|s| - 1]) + DigitValue(s[|s| - 1])
  }

  /** Bit i weighs 2^i. */
  function BitValue(b: seq<int>): int { if |b| == 0 then 0 else b[0] + 2 * BitValue(b[1..]) }

  // ---- bytes in between ----

  /** The k lowest bits of v. */
  function Bits(v: nat, k: nat): (b: seq<int>)
    ensures |b| == k && AllBits(b)
  {
    if k == 0 then [] else [v % 2] + Bits(v / 2, k - 1)
  }

  function BytesOfHex(s: string): (r: seq<nat>)
    requires AllHex(s)
    ensures AllBytes(r) && |r| == |s| / 2
  {
    if |s| < 2 then [] else [16 * Digit(s[|s| - 2]) + Digit(s[|s| - 1])] + BytesOfHex(s[..|s| - 2])
  }

  function BitsOfBytes(r: seq<nat>): (b: seq<int>)
    ensures AllBits(b) && |b| == 8 * |r|
  {
    if |r| == 0 then [] else Bits(r[0], 8) + BitsOfBytes(r[1..])
  }

  function BytesOfBits(b: seq<int>): (r: seq<nat>)
    requires AllBits(b)
    ensures AllBytes(r) && |r| == |b| / 8
  {
    if |b| < 8 then [] else ByteBound(b[..8]); [BitValue(b[..8])] + BytesOfBits(b[8..])
  }

  function HexOfBytes(r: seq<nat>): (s: string)
    requires AllBytes(r)
    ensures AllHex(s) && |s| == 2 * |r|
  {
    if |r| == 0 then "" else HexOfBytes(r[1..]) + [DigitChar(r[0] / 16), DigitChar(r[0] % 16)]
  }

  lemma {:induction false} BitBound(b: seq<int>)
    requires AllBits(b)
    ensures 0 <= BitValue(b) < Pow2(|b|)
  {
    if |b| != 0 { BitBound(b[1..]); }
  }

  lemma {:induction false} ByteBound(b: seq<int>)
    requires AllBits(b) && |b| == 8
    ensures 0 <= BitValue(b) < 256
  {
    BitBound(b);
    assert Pow2(8) == 256;
  }

  // ---- the two conversions ----

  /** hexstr2intvec; only p = 2 is supported. */
  method HexToBits(instr: string, p: nat) returns (ok: bool, out: seq<int>)
    requires AllHex(instr)
    ensures ok <==> p == 2
    ensures ok ==> out == BitsOfBytes(BytesOfHex(instr)) && BitValue(out) == HexValue(instr[|instr| % 2..])
  {
    ok, out := p == 2, [];
    if !ok { return; }
    NumberKept(instr, []);
    hide HexValue, BitValue;
    var rawBytes := ReadBytes(instr);
    for k := 0 to |rawBytes|
      invariant out + BitsOfBytes(rawBytes[k..]) == BitsOfBytes(rawBytes)
    {
      var byte := ByteToBits(rawBytes[k]);
      assert rawBytes[k..][1..] == rawBytes[k + 1..];
      assert BitsOfBytes(rawBytes[k..]) == byte + BitsOfBytes(rawBytes[k + 1..]);
      out := out + byte;
    }
    assert rawBytes[|rawBytes|..] == [];
  }

  lemma {:induction false} NoTwoDigits(s: string)
    requires AllHex(s) && |s| < 2
    ensures BytesOfHex(s) == []
  {}

  lemma {:induction false} LastTwoDigits(s: string, ix: nat)
    requires AllHex(s) && ix + 2 <= |s|
    ensures BytesOfHex(s[..ix + 2]) == [16 * Digit(s[ix]) + Digit(s[ix + 1])] + BytesOfHex(s[..ix])
  {
    assert s[..ix + 2][..ix] == s[..ix];
  }

  /** Two digits at a time, from the end; an odd first digit is never reached. */
  method ReadBytes(instr: string) returns (rawBytes: seq<nat>)
    requires AllHex(instr)
    ensures rawBytes == BytesOfHex(instr)
  {
    hide Digit, BytesOfHex, AllBytes;
    rawBytes := [];
    var ix := |instr| - 2;
    ghost var total := BytesOfHex(instr);
    ghost var rest := total;
    assert instr[..|instr|] == instr;
    while ix >= 0
      invariant -2 <= ix <= |instr| - 2
      invariant rest == BytesOfHex(instr[..ix + 2]) && rawBytes + rest == total
      decreases ix + 2
    {
      var byte := 16 * Digit(instr[ix]) + Digit(instr[ix + 1]);
      LastTwoDigits(instr, ix);
      rest := BytesOfHex(instr[..ix]);
      rawBytes := rawBytes + [byte];
      ix := ix - 2;
    }
    NoTwoDigits(instr[..ix + 2]);
  }

  lemma {:induction false} OneBit(v: nat, k: nat)
    ensures Bits(v, 0) == [] && Bits(v, k + 1) == [v % 2] + Bits(v / 2, k)
  {}

  method ByteToBits(byte: nat) returns (out: seq<int>)
    ensures out == Bits(byte, 8)
  {
    hide Bits, AllBits;
    var tmp: nat := byte;
    out := [];
    for j := 0 to 8
      invariant out + Bits(tmp, 8 - j) == Bits(byte, 8)
    {
      OneBit(tmp, 7 - j);
      assert out + ([tmp % 2] + Bits(tmp / 2, 7 - j)) == out + [tmp % 2] + Bits(tmp / 2, 7 - j);
      out := out + [tmp % 2];
      tmp := tmp / 2;
    }
    OneBit(tmp, 0);
  }

  lemma {:induction false} NextByte(bits: seq<int>, ix: nat)
    requires AllBits(bits) && |bits| % 8 == 0 && ix % 8 == 0 && ix < |bits|
    ensures ix + 8 <= |bits| && (ix + 8) % 8 == 0
    ensures AllBits(bits[ix..ix + 8]) && AllBits(bits[ix..]) && AllBits(bits[ix + 8..])
    ensures BytesOfBits(bits[ix..]) == [BitValue(bits[ix..ix + 8])] + BytesOfBits(bits[ix + 8..])
  {
    hide BitValue;
    assert bits[ix..ix + 8] == bits[ix..][..8] && bits[ix..][8..] == bits[ix + 8..];
  }

  lemma {:induction false} NoBytes()
    ensures BytesOfBits([]) == []
  {}

  /** The loop over the vector, which is read in eights. */
  method BitsToBytes(inBits: seq<int>) returns (outBytes: seq<nat>)
    requires AllBits(inBits) && |inBits| % 8 == 0
    ensures outBytes == BytesOfBits(inBits)
  {
    hide BitValue, BytesOfBits, AllBits, AllBytes;
    outBytes := [];
    var ix := 0;
    assert inBits[0..] == inBits;
    while ix < |inBits|
      invariant 0 <= ix <= |inBits| && ix % 8 == 0 && AllBits(inBits[ix..])
      invariant outBytes + BytesOfBits(inBits[ix..]) == BytesOfBits(inBits)
    {
      NextByte(inBits, ix);
      var byte := BitsToByte(inBits[ix..ix + 8]);
      assert outBytes + ([byte] + BytesOfBits(inBits[ix + 8..])) == outBytes + [byte] + BytesOfBits(inBits[ix + 8..]);
      outBytes := outBytes + [byte];
      ix := ix + 8;
    }
    assert inBits[ix..] == [];
    NoBytes();
    assert outBytes + [] == outBytes;
  }

  /** intvec2hexstr. */
  method BitsToHex(inBits: seq<int>, p: nat) returns (ok: bool, outstr: string)
    requires AllBits(inBits) && |inBits| % 8 == 0
    ensures ok <==> p == 2
    ensures ok ==> outstr == HexOfBytes(BytesOfBits(inBits)) && HexValue(outstr) == BitValue(inBits)
  {
    NumberKept("", inBits);
    hide BytesOfBits, HexOfBytes, HexValue, BitValue;
    ok, outstr := p == 2, "";
    if !ok { return; }
    var outBytes := BitsToBytes(inBits);
    outstr := WriteBytes(outBytes);
  }

  /** The bits, shifted to their places, or-ed together: their places differ, so this is a sum. */
  method BitsToByte(eight: seq<int>) returns (tmp: nat)
    requires AllBits(eight) && |eight| == 8
    ensures tmp == BitValue(eight) && tmp < 256
  {
    var sum, weight := 0, 1;
    for jx := 0 to 8
      invariant weight == Pow2(jx) && sum == BitValue(eight[..jx])
    {
      AppendBit(eight[..jx], eight[jx]);
      assert eight[..jx + 1] == eight[..jx] + [eight[jx]];
      sum := sum + eight[jx] * weight;
      weight := 2 * weight;
    }
    assert eight[..8] == eight;
    ByteBound(eight);
    tmp := sum;
  }

  /** Two digits per byte, the last byte first. */
  method WriteBytes(outBytes: seq<nat>) returns (outstr: string)
    requires AllBytes(outBytes)
    ensures outstr == HexOfBytes(outBytes)
  {
    outstr := "";
    var ix := |outBytes| - 1;
    assert outBytes[..|outBytes|] == outBytes;
    while ix >= 0
      invariant -1 <= ix < |outBytes|
      invariant outstr + HexOfBytes(outBytes[..ix + 1]) == HexOfBytes(outBytes)
    {
      LastByteFirst(outBytes[..ix + 1]);
      assert outBytes[..ix + 1][..ix] == outBytes[..ix];
      outstr := outstr + [DigitChar(outBytes[ix] / 16), DigitChar(outBytes[ix] % 16)];
      ix := ix - 1;
    }
  }

  lemma {:induction false} AppendBit(b: seq<int>, v: int)
    ensures BitValue(b + [v]) == BitValue(b) + v * Pow2(|b|)
  {
    if |b| == 0 {
      assert (b + [v])[1..] == [];
    } else {
      AppendBit(b[1..], v);
      assert (b + [v])[1..] == b[1..] + [v];
    }
  }

  lemma {:induction false} LastByteFirst(r: seq<nat>)
    requires AllBytes(r) && |r| != 0
    ensures HexOfBytes(r) == [DigitChar(r[|r| - 1] / 16), DigitChar(r[|r| - 1] % 16)] + HexOfBytes(r[..|r| - 1])
  {
    if |r| == 1 {
      assert r[1..] == [] && r[..0] == [];
    } else {
      LastByteFirst(r[1..]);
      assert r[1..][..|r| - 2] == r[..|r| - 1][1..];
    }
  }

  // ---- round trips ----

  lemma {:induction false} BitsOfValue(b: seq<int>)
    requires AllBits(b)
    ensures BitValue(b) >= 0 && Bits(BitValue(b), |b|) == b
  {
    if |b| != 0 { BitsOfValue(b[1..]); }
  }

  lemma {:induction false} ValueOfBits(v: nat, k: nat)
    requires v < Pow2(k)
    ensures BitValue(Bits(v, k)) == v
  {
    if k != 0 { ValueOfBits(v / 2, k - 1); }
  }

  lemma {:induction false} BytesBitsBytes(r: seq<nat>)
    requires AllBytes(r)
    ensures BytesOfBits(BitsOfBytes(r)) == r
  {
    if |r| != 0 {
      var b := BitsOfBytes(r);
      assert b[..8] == Bits(r[0], 8) && b[8..] == BitsOfBytes(r[1..]);
      assert Pow2(8) == 256;
      ValueOfBits(r[0], 8);
      BytesBitsBytes(r[1..]);
    }
  }

  lemma {:induction false} BitsBytesBits(b: seq<int>)
    requires AllBits(b) && |b| % 8 == 0
    ensures BitsOfBytes(BytesOfBits(b)) == b
  {
    if |b| != 0 {
      BitsOfValue(b[..8]);
      BitsBytesBits(b[8..]);
      assert BytesOfBits(b)[1..] == BytesOfBits(b[8..]);
      assert b == b[..8] + b[8..];
    }
  }

  lemma {:induction false} BytesHexBytes(r: seq<nat>)
    requires AllBytes(r)
    ensures BytesOfHex(HexOfBytes(r)) == r
  {
    if |r| != 0 {
      var s := HexOfBytes(r);
      assert s[..|s| - 2] == HexOfBytes(r[1..]);
      BytesHexBytes(r[1..]);
    }
  }

  lemma {:induction false} LowerTwoMore(s: string)
    requires AllHex(s) && 2 <= |s|
    ensures Lower(s) == Lower(s[..|s| - 2]) + [DigitChar(Digit(s[|s| - 2])), DigitChar(Digit(s[|s| - 1]))]
  {
    assert s[..|s| - 1][..|s| - 2] == s[..|s| - 2];
  }

  lemma {:induction false} HexOfOneMore(hi: nat, lo: nat, r: seq<nat>)
    requires hi < 16 && lo < 16 && AllBytes(r)
    ensures HexOfBytes([16 * hi + lo] + r) == HexOfBytes(r) + [DigitChar(hi), DigitChar(lo)]
  {
    hide DigitChar, Digit;
    var all := [16 * hi + lo] + r;
    assert all[1..] == r && all[0] / 16 == hi && all[0] % 16 == lo;
  }

  lemma {:induction false} BytesOfTwoMore(u: string, hi: char, lo: char)
    requires AllHex(u) && IsHex(hi) && IsHex(lo)
    ensures AllHex(u + [hi, lo]) && BytesOfHex(u + [hi, lo]) == [16 * Digit(hi) + Digit(lo)] + BytesOfHex(u)
  {
    hide Digit, IsHex;
    var s := u + [hi, lo];
    assert s[..|s| - 2] == u;
  }

  lemma {:induction false} LowerOfTwoMore(u: string, hi: char, lo: char)
    requires AllHex(u) && IsHex(hi) && IsHex(lo)
    ensures AllHex(u + [hi, lo]) && Lower(u + [hi, lo]) == Lower(u) + [DigitChar(Digit(hi)), DigitChar(Digit(lo))]
  {
    hide Digit, IsHex, DigitChar, Lower;
    var s := u + [hi, lo];
    assert s[..|s| - 2] == u;
    LowerTwoMore(s);
  }

  lemma {:induction false} HexBytesHex(s: string)
    requires AllHex(s)
    ensures HexOfBytes(BytesOfHex(s)) == Lower(s[|s| % 2..])
  {
    hide Digit, DigitChar, HexOfBytes, Lower, IsHex;
    if |s| < 2 {
      assert s[|s| % 2..] == "";
      EmptyHex();
    } else {
      var u, hi, lo := s[..|s| - 2], s[|s| - 2], s[|s| - 1];
      assert s == u + [hi, lo];
      assert s[|s| % 2..] == u[|u| % 2..] + [hi, lo];
      HexBytesHex(u);
      BytesOfTwoMore(u, hi, lo);
      HexOfOneMore(Digit(hi), Digit(lo), BytesOfHex(u));
      LowerOfTwoMore(u[|u| % 2..], hi, lo);
    }
  }

  lemma {:induction false} EmptyHex()
    ensures HexOfBytes([]) == "" && Lower("") == ""
  {}

  lemma {:induction false} LowerSame(s: string)
    requires AllHex(s) && forall i | 0 <= i < |s| :: !('A' <= s[i] <= 'F')
    ensures Lower(s) == s
  {
    if |s| != 0 {
      LowerSame(s[..|s| - 1]);
      assert s == s[..|s| - 1] + [s[|s| - 1]];
    }
  }

  /** Bits read from a hex string print as that string in lower case, without its first digit if the
      length is odd; so an even-length lower-case string comes back as it was. */
  lemma {:induction false} HexRoundTrip(s: string)
    requires AllHex(s)
    ensures HexOfBytes(BytesOfBits(BitsOfBytes(BytesOfHex(s)))) == Lower(s[|s| % 2..])
    ensures HexOfBytes(BytesOfBits(BitsOfBytes(BytesOfHex(s)))) == s
            <==> |s| % 2 == 0 && forall i | 0 <= i < |s| :: !('A' <= s[i] <= 'F')
  {
    BytesBitsBytes(BytesOfHex(s));
    HexBytesHex(s);
    if |s| % 2 == 0 {
      assert s[0..] == s;
      LowerIsLower(s);
      if forall i | 0 <= i < |s| :: !('A' <= s[i] <= 'F') { LowerSame(s); }
    }
  }

  lemma {:induction false} LowerIsLower(s: string)
    requires AllHex(s)
    ensures forall i | 0 <= i < |s| :: !('A' <= Lower(s)[i] <= 'F')
  {
    if |s| != 0 { LowerIsLower(s[..|s| - 1]); }
  }

  /** Bits printed as hex and read again are the same bits. */
  lemma {:induction false} BitRoundTrip(b: seq<int>)
    requires AllBits(b) && |b| % 8 == 0
    ensures BitsOfBytes(BytesOfHex(HexOfBytes(BytesOfBits(b)))) == b
  {
    BytesHexBytes(BytesOfBits(b));
    BitsBytesBits(b);
  }

  // ---- both conversions keep the number ----

  function ByteValue(r: seq<nat>): nat { if |r| == 0 then 0 else r[0] + 256 * ByteValue(r[1..]) }

  lemma {:induction false} BitsThen(b: seq<int>, c: seq<int>)
    ensures BitValue(b + c) == BitValue(b) + Pow2(|b|) * BitValue(c)
  {
    if |b| == 0 {
      assert b + c == c;
    } else {
      BitsThen(b[1..], c);
      assert (b + c)[1..] == b[1..] + c;
      calc { 2 * (Pow2(|b| - 1) * BitValue(c)); (2 * Pow2(|b| - 1)) * BitValue(c); Pow2(|b|) * BitValue(c); }
    }
  }

  lemma {:induction false} BitsOfBytesValue(r: seq<nat>)
    requires AllBytes(r)
    ensures BitValue(BitsOfBytes(r)) == ByteValue(r)
  {
    if |r| != 0 {
      assert Pow2(8) == 256;
      ValueOfBits(r[0], 8);
      BitsOfBytesValue(r[1..]);
      BitsThen(Bits(r[0], 8), BitsOfBytes(r[1..]));
    }
  }

  lemma {:induction false} TwoMoreDigits(u: string, hi: char, lo: char)
    requires AllHex(u) && IsHex(hi) && IsHex(lo)
    ensures AllHex(u + [hi, lo]) && HexValue(u + [hi, lo]) == 256 * HexValue(u) + 16 * Digit(hi) + Digit(lo)
  {
    hide Digit, DigitValue, IsHex;
    var s := u + [hi, lo];
    assert s[..|s| - 1] == u + [hi] && s[..|s| - 1][..|u|] == u;
    DigitsByPosition(hi, 0);
    DigitsByPosition(lo, 0);
  }

  lemma {:induction false} BytesOfHexValue(s: string)
    requires AllHex(s)
    ensures ByteValue(BytesOfHex(s)) == HexValue(s[|s| % 2..])
  {
    hide Digit, DigitValue, IsHex;
    if |s| < 2 {
      assert s[|s| % 2..] == "";
    } else {
      var u, hi, lo := s[..|s| - 2], s[|s| - 2], s[|s| - 1];
      BytesOfHexValue(u);
      TwoMoreDigits(u[|u| % 2..], hi, lo);
      assert s[|s| % 2..] == u[|u| % 2..] + [hi, lo];
      assert BytesOfHex(s)[1..] == BytesOfHex(u);
    }
  }

  /** The bits read from a string denote the number its digits denote, the first one left out if their
      number is odd; and the string printed from bits denotes the number the bits denote. */
  lemma {:induction false} NumberKept(s: string, b: seq<int>)
    requires AllHex(s) && AllBits(b) && |b| % 8 == 0
    ensures BitValue(BitsOfBytes(BytesOfHex(s))) == HexValue(s[|s| % 2..])
    ensures HexValue(HexOfBytes(BytesOfBits(b))) == BitValue(b)
  {
    hide HexValue, BitValue, ByteValue, BytesOfHex, HexOfBytes, BytesOfBits, BitsOfBytes;
    BitsOfBytesValue(BytesOfHex(s));
    BytesOfHexValue(s);
    var r := BytesOfBits(b);
    var t := HexOfBytes(r);
    BytesHexBytes(r);
    BytesOfHexValue(t);
    assert t[|t| % 2..] == t;
    BitsOfBytesValue(r);
    BitsBytesBits(b);
  }

  // ---- a concrete pair ----

  lemma {:induction false} FourDigits()
    ensures AllHex("1F") && AllHex("") && IsHex('1') && IsHex('F') && IsHex('0') && IsHex('a')
    ensures Digit('1') == 1 && Digit('F') == 15 && Digit('0') == 0 && Digit('a') == 10
    ensures DigitChar(1) == '1' && DigitChar(15) == 'f' && DigitChar(0) == '0' && DigitChar(10) == 'a'
  {}

  lemma {:induction false} ExampleBytes()
    ensures AllHex("1F0a") && BytesOfHex("1F0a") == [10, 31] && HexOfBytes([10, 31]) == "1f0a"
  {
    FourDigits();
    EmptyHex();
    NoTwoDigits("");
    hide *;
    BytesOfTwoMore("", '1', 'F');
    assert "" + ['1', 'F'] == "1F" && "1F" + ['0', 'a'] == "1F0a";
    BytesOfTwoMore("1F", '0', 'a');
    assert [31] + [] == [31] && [10] + [31] == [10, 31];
    SmallBytes();
    HexOfOneMore(1, 15, []);
    HexOfOneMore(0, 10, [31]);
    assert "" + ['1', 'f'] == "1f" && "1f" + ['0', 'a'] == "1f0a";
  }

  lemma {:induction false} SmallBytes()
    ensures AllBytes([]) && AllBytes([31])
  {}

  lemma {:induction false} EightBits(b: seq<int>)
    requires |b| == 8
    ensures BitValue(b) == b[0] + 2 * b[1] + 4 * b[2] + 8 * b[3] + 16 * b[4] + 32 * b[5] + 64 * b[6] + 128 * b[7]
  {
    assert BitValue(b[8..]) == 0 && BitValue(b[7..]) == b[7] + 2 * BitValue(b[8..]);
    assert BitValue(b[6..]) == b[6] + 2 * BitValue(b[7..]) && BitValue(b[5..]) == b[5] + 2 * BitValue(b[6..]);
    assert BitValue(b[4..]) == b[4] + 2 * BitValue(b[5..]) && BitValue(b[3..]) == b[3] + 2 * BitValue(b[4..]);
    assert BitValue(b[2..]) == b[2] + 2 * BitValue(b[3..]) && BitValue(b[1..]) == b[1] + 2 * BitValue(b[2..]);
  }

  /** Upper and lower case, the low byte first, its low bit first. */
  lemma {:induction false} Example()
    ensures var b := [0, 1, 0, 1, 0, 0, 0, 0, 1, 1, 1, 1, 1, 0, 0, 0];
            BitsOfBytes(BytesOfHex("1F0a")) == b && HexOfBytes(BytesOfBits(b)) == "1f0a"
  {
    ExampleBytes();
    hide BytesOfHex, HexOfBytes, BitValue;
    var b := [0, 1, 0, 1, 0, 0, 0, 0, 1, 1, 1, 1, 1, 0, 0, 0];
    EightBits([0, 1, 0, 1, 0, 0, 0, 0]);
    EightBits([1, 1, 1, 1, 1, 0, 0, 0]);
    assert b[..8] == [0, 1, 0, 1, 0, 0, 0, 0] && b[8..] == [1, 1, 1, 1, 1, 0, 0, 0];
    assert b[8..][..8] == b[8..] && b[8..][8..] == [];
    assert BytesOfBits(b[8..]) == [31] + BytesOfBits([]);
    assert BytesOfBits(b) == [10] + BytesOfBits(b[8..]) == [10, 31];
    BitsBytesBits(b);
  }
}
