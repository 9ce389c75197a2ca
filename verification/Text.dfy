/** The text encodings that UserOperations, addresses and database keys are built from. */
module Text {
  import opened Wrappers

  type Byte = b: int | 0 <= b < 256

  predicate OccursAt(text: string, part: string, i: nat) {
    i + |part| <= |text| && text[i..i + |part|] == part
  }

  predicate Contains(text: string, part: string) {
    exists i :: 0 <= i <= |text| && OccursAt(text, part, i)
  }

  /** A text contains a part if it is that part with something before and after. */
  lemma ContainsIff(text: string, part: string)
    ensures Contains(text, part) <==> exists before, after :: text == before + part + after
  {
    if Contains(text, part) {
      var i :| 0 <= i <= |text| && OccursAt(text, part, i);
      assert text == text[..i] + part + text[i + |part|..];
    }
    if before, after :| text == before + part + after {
      assert text[|before|..|before| + |part|] == part;
      assert OccursAt(text, part, |before|);
    }
  }

  // ---------------------------------------------------------------------------------------------
  // Digits
  // ---------------------------------------------------------------------------------------------

  function DigitChar(d: nat, upper: bool): char
    requires d < 16
  {
    if d < 10 then ('0' as int + d) as char
    else if upper then ('A' as int + d - 10) as char
    else ('a' as int + d - 10) as char
  }

  function DigitValue(c: char): (r: Option<nat>)
    ensures r.Some? ==> r.value < 16
  {
    if '0' <= c <= '9' then Some(c as int - '0' as int)
    else if 'a' <= c <= 'f' then Some(c as int - 'a' as int + 10)
    else if 'A' <= c <= 'F' then Some(c as int - 'A' as int + 10)
    else None
  }

  lemma DigitReadsBack(d: nat, upper: bool)
    requires d < 16
    ensures DigitValue(DigitChar(d, upper)) == Some(d)
    ensures DigitChar(d, upper) !in {':', '-', '+', 'x', 'X', 'o', 'O'}
  {
  }

  /** Minimal digits of a number, as `big.Int` prints them. */
  function Digits(n: nat, base: nat): string
    requires 2 <= base <= 16
  {
    if n < base then [DigitChar(n, false)] else Digits(n / base, base) + [DigitChar(n % base, false)]
  }

  /** The number that a string of digits denotes; an empty string is no number. */
  function ParseDigits(s: string, base: nat): Option<nat>
    requires 2 <= base <= 16
  {
    if s == [] then None else
    var d :- DigitValue(s[|s| - 1]);
    if d >= base then None
    else if |s| == 1 then Some(d)
    else
      var front :- ParseDigits(s[..|s| - 1], base);
      Some(front * base + d)
  }

  lemma {:induction false} DigitsReadBack(n: nat, base: nat)
    requires 2 <= base <= 16
    ensures ParseDigits(Digits(n, base), base) == Some(n)
  {
    hide DigitChar, DigitValue, ParseDigits;
    if n < base {
      DigitReadsBack(n, false);
      ParseOne(DigitChar(n, false), base);
    } else {
      QuotientAndRemainder(n, base);
      DigitsUnfold(n, base);
      Smaller(n, base);
      hide Digits;
      DigitsReadBack(n / base, base);
      DigitsStep(n / base, n % base, base);
    }
  }

  lemma Smaller(n: nat, base: nat)
    requires 2 <= base <= n
    ensures 0 <= n / base < n && n % base < base
  {
  }

  lemma ParseOne(c: char, base: nat)
    requires 2 <= base <= 16 && DigitValue(c).Some? && DigitValue(c).value < base
    ensures ParseDigits([c], base) == DigitValue(c)
  {
    hide DigitValue;
  }

  lemma QuotientAndRemainder(n: nat, base: nat)
    requires base > 0
    ensures n == (n / base) * base + n % base
  {
  }

  lemma DigitsStep(q: nat, d: nat, base: nat)
    requires 2 <= base <= 16 && d < base && ParseDigits(Digits(q, base), base) == Some(q)
    ensures ParseDigits(Digits(q, base) + [DigitChar(d, false)], base) == Some(q * base + d)
  {
    hide DigitChar, DigitValue, Digits, ParseDigits;
    DigitReadsBack(d, false);
    ParseMore(Digits(q, base), DigitChar(d, false), base);
  }

  lemma ParseMore(front: string, c: char, base: nat)
    requires 2 <= base <= 16 && ParseDigits(front, base).Some?
    requires DigitValue(c).Some? && DigitValue(c).value < base
    ensures ParseDigits(front + [c], base) == Some(ParseDigits(front, base).value * base + DigitValue(c).value)
  {
    hide DigitValue;
    assert (front + [c])[..|front|] == front;
  }

  lemma {:induction false} DigitsArePlain(n: nat, base: nat)
    requires 2 <= base <= 16
    ensures ':' !in Digits(n, base) && '-' !in Digits(n, base) && '+' !in Digits(n, base)
    ensures Digits(n, base) != []
  {
    if n < base {
      DigitReadsBack(n, false);
    } else {
      DigitsArePlain(n / base, base);
      DigitReadsBack(n % base, false);
    }
  }

  // ---------------------------------------------------------------------------------------------
  // Byte strings
  // ---------------------------------------------------------------------------------------------

  type Casing = nat -> bool

  const LOWER: Casing := (i: nat) => false

  /** Two hex digits a byte; digit `i` of the text is upper case when the casing says so. */
  function HexOf(b: seq<Byte>, up: Casing, i: nat): string {
    if b == [] then ""
    else [DigitChar(b[0] / 16, up(i)), DigitChar(b[0] % 16, up(i + 1))] + HexOf(b[1..], up, i + 2)
  }

  /** The bytes before the first fault, and whether the whole text was well formed. */
  function DecodeHex(s: string): (seq<Byte>, bool) {
    if s == "" then ([], true)
    else if |s| == 1 || DigitValue(s[0]).None? || DigitValue(s[1]).None? then ([], false)
    else
      var tail := DecodeHex(s[2..]);
      ([DigitValue(s[0]).value * 16 + DigitValue(s[1]).value] + tail.0, tail.1)
  }

  lemma {:induction false} HexReadsBack(b: seq<Byte>, up: Casing, i: nat)
    ensures DecodeHex(HexOf(b, up, i)) == (b, true)
    ensures |HexOf(b, up, i)| == 2 * |b| && ':' !in HexOf(b, up, i)
  {
    if b != [] {
      HexReadsBack(b[1..], up, i + 2);
      DigitReadsBack(b[0] / 16, up(i));
      DigitReadsBack(b[0] % 16, up(i + 1));
      var h := HexOf(b, up, i);
      assert h[2..] == HexOf(b[1..], up, i + 2);
      assert DecodeHex(h).0 == [b[0]] + b[1..] == b;
      assert h[0] != ':' && h[1] != ':';
      assert forall k :: 0 <= k < |h| ==> h[k] == if k < 2 then h[k] else h[2..][k - 2];
    }
  }

  /** `hexutil.Encode`. */
  function EncodeBytes(b: seq<Byte>): string {
    "0x" + HexOf(b, LOWER, 0)
  }

  /** The decoder's byte-string conversion. */
  function DecodeBytes(s: string): Option<seq<Byte>> {
    if |s| < 2 || s[..2] != "0x" then None else
    var d := DecodeHex(s[2..]);
    if d.1 then Some(d.0) else None
  }

  lemma BytesReadBack(b: seq<Byte>)
    ensures DecodeBytes(EncodeBytes(b)) == Some(b)
  {
    HexReadsBack(b, LOWER, 0);
    assert EncodeBytes(b)[2..] == HexOf(b, LOWER, 0);
  }

  /** The byte decoder accepts a text if and only if it starts with the prefix and then has two hex digits a byte. */
  lemma BytesReadIff(s: string, b: seq<Byte>)
    ensures DecodeBytes(s) == Some(b) <==>
            && "0x" <= s && |s| == 2 + 2 * |b|
            && forall i :: 0 <= i < |b| ==> ByteText(s[2 + 2 * i], s[3 + 2 * i], b[i])
  {
    hide DigitValue, DecodeHex;
    if "0x" <= s {
      HexReadsIff(s[2..], b);
      assert forall i :: 0 <= i < |s| - 2 ==> s[2..][i] == s[2 + i];
      assert s[..2] == "0x";
    }
  }

  ghost predicate HexTextOf(s: string, b: seq<Byte>) {
    && |s| == 2 * |b|
    && forall i :: 0 <= i < |b| ==> ByteText(s[2 * i], s[2 * i + 1], b[i])
  }

  predicate ByteText(c: char, d: char, x: Byte) {
    DigitValue(c) == Some(x / 16) && DigitValue(d) == Some(x % 16)
  }

  lemma HexTextCons(s: string, b: seq<Byte>)
    requires |s| >= 2 && b != []
    ensures HexTextOf(s, b) <==> ByteText(s[0], s[1], b[0]) && HexTextOf(s[2..], b[1..])
  {
    hide DigitValue;
    var s', b' := s[2..], b[1..];
    if HexTextOf(s, b) {
      forall i | 0 <= i < |b'|
        ensures ByteText(s'[2 * i], s'[2 * i + 1], b'[i])
      {
        assert ByteText(s[2 * (i + 1)], s[2 * (i + 1) + 1], b[i + 1]);
      }
    }
    if ByteText(s[0], s[1], b[0]) && HexTextOf(s', b') {
      forall i | 0 <= i < |b|
        ensures ByteText(s[2 * i], s[2 * i + 1], b[i])
      {
        if i > 0 {
          assert ByteText(s'[2 * (i - 1)], s'[2 * (i - 1) + 1], b'[i - 1]);
        }
      }
    }
  }

  lemma {:induction false} HexReadsIff(s: string, b: seq<Byte>)
    ensures DecodeHex(s) == (b, true) <==> HexTextOf(s, b)
    decreases |s|
  {
    hide DigitValue;
    if |s| >= 2 && b != [] {
      HexReadsIff(s[2..], b[1..]);
      HexTextCons(s, b);
      hide HexTextOf;
      assert b == [b[0]] + b[1..];
    }
  }

  // ---------------------------------------------------------------------------------------------
  // Integers
  // ---------------------------------------------------------------------------------------------

  /** `hexutil.EncodeBig` of a number that is not negative. */
  function EncodeBig(n: nat): string {
    "0x" + Digits(n, 16)
  }

  /** `big.Int.SetString` with base 0: an optional sign, then a base prefix, then digits. */
  function DecodeBig(s: string): Option<int> {
    if s != "" && s[0] == '-' then
      match DecodeUnsigned(s[1..]) { case None => None case Some(n) => var m: int := n; Some(-m) }
    else if s != "" && s[0] == '+' then DecodeUnsigned(s[1..])
    else DecodeUnsigned(s)
  }

  function DecodeUnsigned(s: string): Option<nat> {
    if |s| < 2 || s[0] != '0' then ParseDigits(s, 10)
    else if s[1] in "xX" then ParseDigits(s[2..], 16)
    else if s[1] in "oO" then ParseDigits(s[2..], 8)
    else if s[1] in "bB" then ParseDigits(s[2..], 2)
    else ParseDigits(s[1..], 8)
  }

  lemma BigReadsBack(n: nat)
    ensures DecodeBig(EncodeBig(n)) == Some(n)
  {
    DigitsReadBack(n, 16);
    assert EncodeBig(n)[2..] == Digits(n, 16);
  }

  lemma {:induction false} DigitsStartPlain(n: nat, base: nat)
    requires 2 <= base <= 16
    ensures Digits(n, base)[0] !in {'-', '+'}
    ensures n > 0 ==> Digits(n, base)[0] != '0'
  {
    assert DigitValue('0') == Some(0);
    hide DigitChar, DigitValue;
    if n >= base {
      DigitsStartPlain(n / base, base);
      QuotientAndRemainder(n, base);
      assert n / base > 0;
      DigitsUnfold(n, base);
      hide Digits;
    } else {
      DigitReadsBack(n, false);
    }
  }

  lemma DigitsUnfold(n: nat, base: nat)
    requires 2 <= base <= 16 && n >= base
    ensures Digits(n, base) == Digits(n / base, base) + [DigitChar(n % base, false)]
  {
    hide DigitChar;
  }

  lemma SignedReads(s: string)
    ensures s != "" && s[0] !in {'-', '+'} ==> DecodeBig(s) == DecodeUnsigned(s) && DecodeBig("+" + s) == DecodeUnsigned(s)
    ensures s != "" && s[0] !in {'-', '+'} ==>
              && (DecodeUnsigned(s).None? <==> DecodeBig("-" + s).None?)
              && (DecodeUnsigned(s).Some? ==> DecodeBig("-" + s).value + DecodeUnsigned(s).value == 0)
  {
    hide DecodeUnsigned;
    assert ("+" + s)[1..] == s && ("-" + s)[1..] == s;
  }

  lemma PrefixedReads(c: char, base: nat, n: nat)
    requires (c in "xX" && base == 16) || (c in "oO" && base == 8) || (c in "bB" && base == 2)
    ensures DecodeUnsigned(['0', c] + Digits(n, base)) == Some(n)
  {
    DigitsReadBack(n, base);
    hide ParseDigits, Digits;
    var s := ['0', c] + Digits(n, base);
    assert s[2..] == Digits(n, base) && s[0] == '0' && s[1] == c;
  }

  lemma DecimalReads(n: nat)
    ensures DecodeUnsigned(Digits(n, 10)) == Some(n)
  {
    DigitsReadBack(n, 10);
    DigitsStartPlain(n, 10);
    assert n == 0 ==> |Digits(n, 10)| == 1;
    hide ParseDigits, Digits;
  }

  /** A leading zero makes the rest octal, unless the zero is all there is or what follows names another base. */
  lemma OctalReads(n: nat)
    ensures DecodeUnsigned("0" + Digits(n, 8)) == Some(n)
  {
    DigitsReadBack(n, 8);
    OctalDigit(n);
    hide ParseDigits, Digits;
    var s := "0" + Digits(n, 8);
    assert s[1..] == Digits(n, 8) && s[1] == Digits(n, 8)[0];
  }

  lemma {:induction false} OctalDigit(n: nat)
    ensures Digits(n, 8) != [] && '0' <= Digits(n, 8)[0] <= '7'
  {
    if n >= 8 {
      OctalDigit(n / 8);
    }
  }

  /** Every number is read from its decimal text, and from its digits in base 16, 8 or 2 after the prefix of that base; a
      sign before it counts. */
  lemma BigTextsRead(n: nat)
    ensures DecodeBig(Digits(n, 10)) == Some(n) && DecodeBig("0x" + Digits(n, 16)) == Some(n)
    ensures DecodeBig("-" + Digits(n, 10)) == DecodeBig("-0X" + Digits(n, 16)) == Some(0 - n)
    ensures DecodeBig("0o" + Digits(n, 8)) == Some(n) && DecodeBig("+0O" + Digits(n, 8)) == Some(n)
    ensures DecodeBig("0b" + Digits(n, 2)) == Some(n) && DecodeBig("+0B" + Digits(n, 2)) == Some(n)
    ensures DecodeBig("0" + Digits(n, 8)) == Some(n)
  {
    hide DecodeBig, DecodeUnsigned;
    DigitsStartPlain(n, 10);
    DigitsArePlain(n, 10);
    DecimalReads(n);
    SignedReads(Digits(n, 10));
    PrefixedReads('x', 16, n);
    SignedReads(['0', 'x'] + Digits(n, 16));
    PrefixedReads('X', 16, n);
    SignedReads(['0', 'X'] + Digits(n, 16));
    assert "-0X" + Digits(n, 16) == "-" + (['0', 'X'] + Digits(n, 16));
    PrefixedReads('o', 8, n);
    SignedReads(['0', 'o'] + Digits(n, 8));
    PrefixedReads('O', 8, n);
    SignedReads(['0', 'O'] + Digits(n, 8));
    assert "+0O" + Digits(n, 8) == "+" + (['0', 'O'] + Digits(n, 8));
    PrefixedReads('b', 2, n);
    SignedReads(['0', 'b'] + Digits(n, 2));
    PrefixedReads('B', 2, n);
    SignedReads(['0', 'B'] + Digits(n, 2));
    assert "+0B" + Digits(n, 2) == "+" + (['0', 'B'] + Digits(n, 2));
    OctalReads(n);
    SignedReads("0" + Digits(n, 8));
    hide Digits;
    assert "0x" + Digits(n, 16) == ['0', 'x'] + Digits(n, 16);
    assert "0o" + Digits(n, 8) == ['0', 'o'] + Digits(n, 8);
    assert "0b" + Digits(n, 2) == ['0', 'b'] + Digits(n, 2);
  }

  predicate LowerCase(s: string) {
    forall c :: c in s ==> !('A' <= c <= 'Z')
  }

  lemma LowerDigit(d: nat)
    requires d < 16
    ensures !('A' <= DigitChar(d, false) <= 'Z')
  {
  }

  lemma {:induction false} LowerDigits(n: nat, base: nat)
    requires 2 <= base <= 16
    ensures LowerCase(Digits(n, base))
  {
    hide DigitChar;
    LowerDigit(n % base);
    if n < base {
      LowerDigit(n);
    } else {
      LowerDigits(n / base, base);
    }
  }

  lemma {:induction false} LowerBytes(b: seq<Byte>, i: nat)
    ensures LowerCase(HexOf(b, LOWER, i))
  {
    hide DigitChar;
    if b != [] {
      LowerDigit(b[0] / 16);
      LowerDigit(b[0] % 16);
      LowerBytes(b[1..], i + 2);
    }
  }

  /** Numbers and byte strings are written in lower case. */
  lemma EncodedLower(n: nat, b: seq<Byte>)
    ensures LowerCase(EncodeBig(n)) && LowerCase(EncodeBytes(b))
  {
    LowerDigits(n, 16);
    LowerBytes(b, 0);
  }

  // ---------------------------------------------------------------------------------------------
  // Addresses
  // ---------------------------------------------------------------------------------------------

  const ADDRESS_SPAN := 0x1_0000000000_0000000000_0000000000_0000000000

  /** A 20-byte address, read as a big-endian number. */
  type Address = a: nat | a < ADDRESS_SPAN

  const ZERO_ADDRESS: Address := 0

  function Pow256(e: nat): nat {
    if e == 0 then 1 else 256 * Pow256(e - 1)
  }

  function BigEndian(n: nat, len: nat): seq<Byte> {
    if len == 0 then [] else BigEndian(n / 256, len - 1) + [n % 256]
  }

  function FromBigEndian(b: seq<Byte>): nat {
    if b == [] then 0 else 256 * FromBigEndian(b[..|b| - 1]) + b[|b| - 1]
  }

  lemma {:induction false} BigEndianReadsBack(n: nat, len: nat)
    requires n < Pow256(len)
    ensures |BigEndian(n, len)| == len && FromBigEndian(BigEndian(n, len)) == n
  {
    if len > 0 {
      BigEndianReadsBack(n / 256, len - 1);
      assert BigEndian(n, len)[..len - 1] == BigEndian(n / 256, len - 1);
    }
  }

  lemma {:induction false} FromBigEndianFits(b: seq<Byte>)
    ensures FromBigEndian(b) < Pow256(|b|)
  {
    if b != [] {
      FromBigEndianFits(b[..|b| - 1]);
    }
  }

  lemma AddressSpan()
    ensures Pow256(20) == ADDRESS_SPAN
  {
    assert Pow256(5) == 0x1_0000000000;
    assert Pow256(10) == 0x1_0000000000_0000000000;
    assert Pow256(15) == 0x1_0000000000_0000000000_0000000000;
    assert Pow256(20) == ADDRESS_SPAN;
  }

  /** `common.BytesToAddress`: the last twenty bytes. */
  function BytesToAddress(b: seq<Byte>): Address {
    var last := if |b| > 20 then b[|b| - 20..] else b;
    FromBigEndianFits(last);
    AddressSpan();
    ShorterFits(last);
    FromBigEndian(last)
  }

  lemma {:induction false} ShorterFits(b: seq<Byte>)
    requires |b| <= 20
    ensures Pow256(|b|) <= Pow256(20)
  {
    PowGrows(|b|, 20);
  }

  lemma {:induction false} PowGrows(a: nat, b: nat)
    requires a <= b
    ensures Pow256(a) <= Pow256(b)
    decreases b - a
  {
    if a < b {
      PowGrows(a + 1, b);
    }
  }

  /** Which letters of an address's text are upper case. It is a checksum of the address, and nothing here depends
      on which one. */
  type Checksum = (Address, nat) -> bool

  function AddressText(a: Address, sum: Checksum): string {
    "0x" + HexOf(BigEndian(a, 20), (i: nat) => sum(a, i), 0)
  }

  /** `common.HexToAddress`: the prefix is optional, an odd digit is padded, faults end the text, and only the last
      twenty bytes count. */
  function HexToAddress(s: string): Address {
    var body := if |s| >= 2 && s[0] == '0' && s[1] in "xX" then s[2..] else s;
    var even := if |body| % 2 == 1 then "0" + body else body;
    BytesToAddress(DecodeHex(even).0)
  }

  lemma AddressReadsBack(a: Address, sum: Checksum)
    ensures HexToAddress(AddressText(a, sum)) == a
    ensures ':' !in AddressText(a, sum)
  {
    hide BigEndian, HexOf, DecodeHex;
    var up := (i: nat) => sum(a, i);
    AddressSpan();
    BigEndianReadsBack(a, 20);
    HexReadsBack(BigEndian(a, 20), up, 0);
    assert AddressText(a, sum)[2..] == HexOf(BigEndian(a, 20), up, 0);
  }

  lemma {:induction false} FromBigEndianReadsBack(b: seq<Byte>)
    ensures BigEndian(FromBigEndian(b), |b|) == b
  {
    if b != [] {
      var n := |b| - 1;
      FromBigEndianReadsBack(b[..n]);
      LowByte(FromBigEndian(b[..n]), b[n]);
      assert b == b[..n] + [b[n]];
    }
  }

  lemma LowByte(q: nat, r: nat)
    requires r < 256
    ensures (256 * q + r) / 256 == q && (256 * q + r) % 256 == r
  {
  }

  /** The bytes of an address are the last twenty of what it was made from. */
  lemma AddressBytes(b: seq<Byte>)
    requires |b| >= 20
    ensures BigEndian(BytesToAddress(b), 20) == b[|b| - 20..]
  {
    hide BigEndian, FromBigEndian;
    FromBigEndianReadsBack(b[|b| - 20..]);
  }

  /** Text without a prefix. */
  predicate Bare(s: string) {
    |s| >= 2 && s[0] == '0' ==> s[1] !in "xX"
  }

  /** The prefix of an address is optional, in either case, and an odd digit is padded in front. */
  lemma AddressPrefixes(s: string)
    requires Bare(s)
    ensures HexToAddress("0x" + s) == HexToAddress("0X" + s) == HexToAddress(s)
    ensures |s| % 2 == 0 ==> HexToAddress(s) == BytesToAddress(DecodeHex(s).0)
    ensures |s| % 2 == 1 ==> HexToAddress(s) == BytesToAddress(DecodeHex("0" + s).0)
  {
    hide BytesToAddress, DecodeHex;
    assert ("0x" + s)[2..] == s && ("0X" + s)[2..] == s;
  }

  /** Digits before the last forty do not count. */
  lemma LastFortyCount(more: string, s: string)
    requires |s| == 40 && |more| % 2 == 0 && DecodeHex(more).1 && DecodeHex(s).1 && Bare(s) && Bare(more + s)
    ensures HexToAddress(more + s) == HexToAddress(s)
  {
    hide BytesToAddress, DecodeHex, HexToAddress;
    AddressPrefixes(more + s);
    AddressPrefixes(s);
    HexConcat(more, s);
    HexLength(s);
    LastTwentyCount(DecodeHex(more).0, DecodeHex(s).0);
  }

  /** Two digits in front are one byte in front. */
  lemma HexFront(s: string)
    requires |s| >= 2 && DigitValue(s[0]).Some? && DigitValue(s[1]).Some?
    ensures DecodeHex(s) ==
            ([DigitValue(s[0]).value * 16 + DigitValue(s[1]).value] + DecodeHex(s[2..]).0, DecodeHex(s[2..]).1)
  {
    hide DigitValue;
  }

  lemma {:induction false} HexConcat(a: string, b: string)
    requires |a| % 2 == 0 && DecodeHex(a).1
    ensures DecodeHex(a + b) == (DecodeHex(a).0 + DecodeHex(b).0, DecodeHex(b).1)
    decreases |a|
  {
    hide DigitValue;
    if a == "" {
      assert a + b == b;
      assert DecodeHex(a).0 + DecodeHex(b).0 == DecodeHex(b).0;
    } else {
      HexFront(a);
      HexConcat(a[2..], b);
      hide DecodeHex;
      assert (a + b)[2..] == a[2..] + b && (a + b)[0] == a[0] && (a + b)[1] == a[1];
      HexFront(a + b);
      assert DecodeHex(a).0[..1] + (DecodeHex(a[2..]).0 + DecodeHex(b).0) == DecodeHex(a).0 + DecodeHex(b).0;
    }
  }

  lemma {:induction false} HexLength(s: string)
    requires |s| % 2 == 0 && DecodeHex(s).1
    ensures 2 * |DecodeHex(s).0| == |s|
    decreases |s|
  {
    hide DigitValue;
    if s != "" {
      HexLength(s[2..]);
    }
  }

  lemma LastTwentyCount(a: seq<Byte>, b: seq<Byte>)
    requires |b| == 20
    ensures BytesToAddress(a + b) == BytesToAddress(b)
  {
    hide FromBigEndian;
    assert |a + b| > 20 ==> (a + b)[|a + b| - 20..] == b;
    assert a == [] ==> a + b == b;
  }

  // ---------------------------------------------------------------------------------------------
  // Joined values
  // ---------------------------------------------------------------------------------------------

  function Join(values: seq<string>): string
    requires values != []
  {
    if |values| == 1 then values[0] else values[0] + ":" + Join(values[1..])
  }

  function Split(s: string): seq<string> {
    if s == "" then [""]
    else if s[0] == ':' then [""] + Split(s[1..])
    else
      var tail := Split(s[1..]);
      if tail == [] then [] else [[s[0]] + tail[0]] + tail[1..]
  }

  lemma {:induction false} SplitNeverEmpty(s: string)
    ensures Split(s) != []
  {
    if s != "" {
      SplitNeverEmpty(s[1..]);
    }
  }

  lemma {:induction false} SplitHead(a: string, rest: string)
    requires ':' !in a
    ensures Split(a + ":" + rest) == [a] + Split(rest)
  {
    var s := a + ":" + rest;
    if a == "" {
      assert s[0] == ':' && s[1..] == rest;
    } else {
      SplitHead(a[1..], rest);
      assert s[1..] == a[1..] + ":" + rest;
      assert [a[0]] + a[1..] == a;
    }
  }

  lemma {:induction false} SplitWhole(a: string)
    requires ':' !in a
    ensures Split(a) == [a]
  {
    if a != "" {
      SplitWhole(a[1..]);
      assert [a[0]] + a[1..] == a;
    }
  }

  lemma {:induction false} SplitUndoesJoin(values: seq<string>)
    requires values != [] && forall i :: 0 <= i < |values| ==> ':' !in values[i]
    ensures Split(Join(values)) == values
  {
    if |values| == 1 {
      SplitWhole(values[0]);
    } else {
      SplitUndoesJoin(values[1..]);
      SplitHead(values[0], Join(values[1..]));
    }
  }
}
