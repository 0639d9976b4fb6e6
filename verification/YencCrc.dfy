// The CRC-32 register the decoder feeds, and the textual forms of a checksum it
// accepts in a trailer.
module YencCrc {
  import opened YencCodec

  // ---- CRC-32, IEEE polynomial, reflected ----

  type uint32 = x: int | 0 <= x < 0x1_0000_0000

  function Power2(k: nat): (p: nat)
    ensures p > 0
  {
    if k == 0 then 1 else 2 * Power2(k - 1)
  }

  lemma Power2Of32()
    ensures Power2(32) == 0x1_0000_0000
  {
    assert Power2(6) == 0x40;
    assert Power2(12) == 0x1000;
    assert Power2(18) == 0x4_0000;
    assert Power2(24) == 0x100_0000;
    assert Power2(28) == 0x1000_0000;
  }

  // The exclusive or of the lowest `width` bits.
  function Xor(a: nat, b: nat, width: nat): (r: nat)
    ensures r < Power2(width)
  {
    if width == 0 then 0 else 2 * Xor(a / 2, b / 2, width - 1) + if a % 2 != b % 2 then 1 else 0
  }

  function Xor32(a: uint32, b: uint32): uint32 {
    Power2Of32();
    Xor(a, b, 32)
  }

  const POLYNOMIAL: uint32 := 0xEDB8_8320

  function ShiftBits(c: uint32, n: nat): uint32
    decreases n
  {
    if n == 0 then c
    else ShiftBits(if c % 2 == 1 then Xor32(c / 2, POLYNOMIAL) else c / 2, n - 1)
  }

  function FoldByte(c: uint32, b: byte): uint32 {
    ShiftBits(Xor32(c, b as int), 8)
  }

  function Fold(c: uint32, p: seq<byte>): uint32
    decreases |p|
  {
    if p == [] then c else Fold(FoldByte(c, p[0]), p[1..])
  }

  const EMPTY_REGISTER: uint32 := 0xFFFF_FFFF

  // The checksum a register stands for is its complement.
  function Sum32(register: uint32): uint32 {
    0xFFFF_FFFF - register
  }

  function Crc32(p: seq<byte>): uint32 {
    Sum32(Fold(EMPTY_REGISTER, p))
  }

  // Feeding the register piece by piece is feeding it the whole.
  lemma {:induction false} FoldConcat(c: uint32, p: seq<byte>, q: seq<byte>)
    ensures Fold(c, p + q) == Fold(Fold(c, p), q)
    decreases |p|
  {
    if p == [] {
      assert p + q == q;
    } else {
      assert (p + q)[1..] == p[1..] + q;
      FoldConcat(FoldByte(c, p[0]), p[1..], q);
    }
  }

  // ---- Hexadecimal text ----

  predicate LowerHex(c: char) { '0' <= c <= '9' || 'a' <= c <= 'f' }

  predicate UpperHex(c: char) { '0' <= c <= '9' || 'A' <= c <= 'F' }

  predicate HexText(s: string, upper: bool) {
    forall k :: 0 <= k < |s| ==> if upper then UpperHex(s[k]) else LowerHex(s[k])
  }

  function HexDigit(n: nat, upper: bool): char
    requires n < 16
  {
    if n < 10 then ('0' as int + n) as char
    else if upper then ('A' as int + n - 10) as char
    else ('a' as int + n - 10) as char
  }

  function HexDigitValue(c: char): nat {
    if '0' <= c <= '9' then c as int - '0' as int
    else if 'a' <= c <= 'f' then c as int - 'a' as int + 10
    else if 'A' <= c <= 'F' then c as int - 'A' as int + 10
    else 0
  }

  // The base-16 value of a text of hexadecimal digits.
  function HexValue(s: string): nat {
    if s == [] then 0 else HexValue(s[..|s| - 1]) * 16 + HexDigitValue(s[|s| - 1])
  }

  // %x and %X
  function Hex(n: nat, upper: bool): (s: string)
    ensures s != [] && HexText(s, upper) && HexValue(s) == n
    ensures s[0] == '0' ==> |s| == 1
    ensures n > 0 ==> s[0] != '0'
  {
    var d := HexDigit(n % 16, upper);
    var s := if n < 16 then [d] else Hex(n / 16, upper) + [d];
    assert s[..|s| - 1] == if n < 16 then [] else Hex(n / 16, upper);
    s
  }

  function Zeros(n: nat): (s: string)
    ensures |s| == n && forall k :: 0 <= k < n ==> s[k] == '0'
  {
    seq(n, _ => '0')
  }

  function PaddedText(s: string): string {
    if |s| < 8 then Zeros(8 - |s|) + s else s
  }

  // %08x and %08X
  function Padded(n: nat, upper: bool): string {
    PaddedText(Hex(n, upper))
  }

  // util.ValidCRCString
  function ValidCRCString(crc: nat): set<string> {
    {Hex(crc, false), Hex(crc, true), Padded(crc, false), Padded(crc, true)}
  }

  lemma {:induction false} LeadingZero(s: string)
    ensures HexValue(['0'] + s) == HexValue(s)
    decreases |s|
  {
    if s == [] {
      assert ['0'] + s == ['0'];
      assert ['0'][..0] == [];
    } else {
      var t := s[..|s| - 1];
      assert (['0'] + s)[..|s|] == ['0'] + t;
      LeadingZero(t);
    }
  }

  lemma {:induction false} ZeroValue(s: string, upper: bool)
    requires HexText(s, upper) && s != [] && s[0] != '0'
    ensures HexValue(s) > 0
    decreases |s|
  {
    if |s| > 1 { ZeroValue(s[..|s| - 1], upper); }
  }

  lemma DigitRoundTrip(c: char, upper: bool)
    requires if upper then UpperHex(c) else LowerHex(c)
    ensures HexDigitValue(c) < 16 && HexDigit(HexDigitValue(c), upper) == c
  {
  }

  lemma SplitDigit(a: nat, c: nat, b: nat, d: nat)
    requires a * 16 + c == b * 16 + d && c < 16 && d < 16
    ensures a == b && c == d
  {
  }

  ghost predicate Shortest(s: string, upper: bool) {
    s != [] && HexText(s, upper) && (s[0] == '0' ==> |s| == 1)
  }

  lemma ShortestInit(s: string, upper: bool)
    requires Shortest(s, upper) && |s| > 1
    ensures Shortest(s[..|s| - 1], upper) && HexValue(s[..|s| - 1]) > 0
  {
    ZeroValue(s[..|s| - 1], upper);
  }

  // A number has one text without a needless zero in front.
  lemma {:induction false} OneShortest(s: string, t: string, upper: bool)
    requires Shortest(s, upper) && Shortest(t, upper) && HexValue(s) == HexValue(t)
    ensures s == t
    decreases |s|
  {
    var s', t', c, d := s[..|s| - 1], t[..|t| - 1], s[|s| - 1], t[|t| - 1];
    DigitRoundTrip(c, upper);
    DigitRoundTrip(d, upper);
    SplitDigit(HexValue(s'), HexDigitValue(c), HexValue(t'), HexDigitValue(d));
    if |s| > 1 { ShortestInit(s, upper); }
    if |t| > 1 { ShortestInit(t, upper); }
    if |s| > 1 && |t| > 1 { OneShortest(s', t', upper); }
    assert s == s' + [c] && t == t' + [d];
  }

  lemma NoLeadingZero(s: string, upper: bool)
    requires Shortest(s, upper)
    ensures Hex(HexValue(s), upper) == s
  {
    OneShortest(Hex(HexValue(s), upper), s, upper);
  }

  lemma OneMoreZero(k: nat, s: string)
    ensures ['0'] + (Zeros(k) + s) == Zeros(k + 1) + s
  {
    assert ['0'] + Zeros(k) == Zeros(k + 1);
  }

  // Otherwise it is that form behind some number of zeros.
  lemma {:induction false} ShortestForm(s: string, upper: bool)
    requires s != [] && HexText(s, upper)
    ensures var t := Hex(HexValue(s), upper);
            |t| <= |s| && s == Zeros(|s| - |t|) + t
    decreases |s|
  {
    if |s| == 1 || s[0] != '0' {
      NoLeadingZero(s, upper);
      assert Zeros(0) + s == s;
    } else {
      var r := s[1..];
      assert s == ['0'] + r;
      LeadingZero(r);
      ShortestForm(r, upper);
      OneMoreZero(|r| - |Hex(HexValue(r), upper)|, Hex(HexValue(r), upper));
    }
  }

  lemma {:induction false} ZerosInFront(k: nat, s: string)
    ensures HexValue(Zeros(k) + s) == HexValue(s)
  {
    if k == 0 {
      assert Zeros(0) + s == s;
    } else {
      assert Zeros(k) + s == ['0'] + (Zeros(k - 1) + s);
      LeadingZero(Zeros(k - 1) + s);
      ZerosInFront(k - 1, s);
    }
  }

  lemma {:induction false} HexLength(n: nat, upper: bool, digits: nat, bound: nat)
    requires digits > 0 && n < bound && bound == Power16(digits)
    ensures |Hex(n, upper)| <= digits
    decreases digits
  {
    if n >= 16 { HexLength(n / 16, upper, digits - 1, Power16(digits - 1)); }
  }

  function Power16(k: nat): nat {
    if k == 0 then 1 else 16 * Power16(k - 1)
  }

  lemma PowerEight()
    ensures Power16(8) == 0x1_0000_0000
  {
    assert Power16(4) == 0x1_0000;
  }

  lemma PaddedValue(s: string, upper: bool)
    requires HexText(s, upper) && |s| <= 8
    ensures |PaddedText(s)| == 8 && HexText(PaddedText(s), upper) && HexValue(PaddedText(s)) == HexValue(s)
  {
    if |s| < 8 { ZerosInFront(8 - |s|, s); }
  }

  lemma PaddedForm(n: nat, upper: bool)
    requires |Hex(n, upper)| <= 8
    ensures |Padded(n, upper)| == 8 && HexText(Padded(n, upper), upper) && HexValue(Padded(n, upper)) == n
  {
    PaddedValue(Hex(n, upper), upper);
  }

  lemma FormIsPrinted(s: string, upper: bool)
    requires s != [] && HexText(s, upper) && (|s| == 8 || |s| == 1 || s[0] != '0')
    ensures s == Hex(HexValue(s), upper) || s == Padded(HexValue(s), upper)
  {
    if |s| == 8 {
      ShortestForm(s, upper);
      assert Zeros(0) + s == s;
    } else {
      NoLeadingZero(s, upper);
    }
  }

  ghost predicate ChecksumText(crc: nat, s: string) {
    && s != [] && (HexText(s, false) || HexText(s, true))
    && HexValue(s) == crc
    && (|s| == 8 || |s| == 1 || s[0] != '0')
  }

  lemma FormsAreTexts(crc: nat, upper: bool)
    requires crc < 0x1_0000_0000
    ensures ChecksumText(crc, Hex(crc, upper)) && ChecksumText(crc, Padded(crc, upper))
  {
    PowerEight();
    HexLength(crc, upper, 8, Power16(8));
    PaddedForm(crc, upper);
  }

  // The accepted texts, without reference to how they are printed: hexadecimal
  // digits in one case, standing for the checksum, either exactly eight of them
  // or with no needless zero in front.
  lemma AcceptedChecksums(crc: nat, s: string)
    requires crc < 0x1_0000_0000
    ensures s in ValidCRCString(crc) <==> ChecksumText(crc, s)
  {
    FormsAreTexts(crc, false);
    FormsAreTexts(crc, true);
    if ChecksumText(crc, s) { FormIsPrinted(s, HexText(s, true)); }
  }
}
