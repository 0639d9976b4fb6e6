// The checksum as the remainder of a polynomial division over the two-element
// field: the definition of CRC-32 that the register implements.
module CrcPolynomial {
  import opened Division
  import opened YencCodec
  import opened YencCrc

  // ---- The generator ----

  // The generator is the sum of these powers of x.
  predicate IsTerm(power: int) {
    || power == 32 || power == 26 || power == 23 || power == 22 || power == 16
    || power == 12 || power == 11 || power == 10 || power == 8 || power == 7
    || power == 5 || power == 4 || power == 2 || power == 1 || power == 0
  }

  function Generator(): (g: Divisor)
    ensures forall i :: 0 <= i < 33 ==> g[i] == IsTerm(32 - i)
  {
    seq(33, i requires 0 <= i < 33 => IsTerm(32 - i))
  }

  // ---- The register's bits ----

  predicate Bit(c: nat, i: nat) {
    if i == 0 then c % 2 == 1 else Bit(c / 2, i - 1)
  }

  // The lowest bit first, which stands for the highest power.
  function Bits(c: uint32): (bits: seq<bool>)
    ensures |bits| == 32 && forall i :: 0 <= i < 32 ==> bits[i] == Bit(c, i)
  {
    seq(32, i requires 0 <= i < 32 => Bit(c, i))
  }

  // The number with these binary digits, the lowest first.
  function NumberOf(bits: seq<bool>): nat {
    if bits == [] then 0 else 2 * NumberOf(bits[1..]) + if bits[0] then 1 else 0
  }

  // The digits of a number below 2^n, the lowest first.
  function BitsOf(x: nat, n: nat): (bits: seq<bool>)
    ensures |bits| == n
  {
    if n == 0 then [] else [x % 2 == 1] + BitsOf(x / 2, n - 1)
  }

  lemma {:induction false} BitsAt(x: nat, n: nat, i: nat)
    requires i < n
    ensures BitsOf(x, n)[i] == Bit(x, i)
  {
    if i > 0 { BitsAt(x / 2, n - 1, i - 1); }
  }

  lemma {:induction false} NumberOfBits(x: nat, n: nat)
    requires x < Power2(n)
    ensures NumberOf(BitsOf(x, n)) == x
  {
    if n > 0 { NumberOfBits(x / 2, n - 1); }
  }

  lemma {:induction false} XorBit(a: nat, b: nat, width: nat, i: nat)
    requires i < width
    ensures Bit(Xor(a, b, width), i) == (Bit(a, i) != Bit(b, i))
    decreases width
  {
    if i > 0 { XorBit(a / 2, b / 2, width - 1, i - 1); }
  }

  lemma {:induction false} NoBit(c: nat, k: nat)
    requires c < Power2(k)
    ensures !Bit(c, k)
    decreases k
  {
    if k > 0 { NoBit(c / 2, k - 1); }
  }

  // The number whose bits from i up are the terms, with the highest power as the
  // lowest bit.
  function Reflection(term: int -> bool, i: nat): nat
    requires i <= 32
    decreases 32 - i
  {
    if i == 32 then 0 else 2 * Reflection(term, i + 1) + if term(31 - i) then 1 else 0
  }

  lemma Reflection28()
    ensures Reflection(IsTerm, 28) == 0xE
  {
  }

  lemma Reflection24()
    ensures Reflection(IsTerm, 24) == 0xED
  {
    Reflection28();
  }

  lemma Reflection20()
    ensures Reflection(IsTerm, 20) == 0xEDB
  {
    Reflection24();
  }

  lemma Reflection16()
    ensures Reflection(IsTerm, 16) == 0xEDB8
  {
    Reflection20();
  }

  lemma Reflection12()
    ensures Reflection(IsTerm, 12) == 0xE_DB88
  {
    Reflection16();
  }

  lemma Reflection8()
    ensures Reflection(IsTerm, 8) == 0xED_B883
  {
    Reflection12();
  }

  lemma Reflection4()
    ensures Reflection(IsTerm, 4) == 0xEDB_8832
  {
    Reflection8();
  }

  lemma PolynomialIsReflection()
    ensures Reflection(IsTerm, 0) == POLYNOMIAL
  {
    Reflection4();
  }

  lemma DoubledBit(x: nat, b: bool, k: nat)
    ensures Bit(2 * x + if b then 1 else 0, k) == if k == 0 then b else Bit(x, k - 1)
  {
  }

  lemma {:induction false} ReflectionBit(term: int -> bool, i: nat, k: nat)
    requires i <= k < 32
    ensures Bit(Reflection(term, i), k - i) == term(31 - k)
    decreases k - i
  {
    DoubledBit(Reflection(term, i + 1), term(31 - i), k - i);
    if i < k { ReflectionBit(term, i + 1, k); }
  }

  lemma PolynomialBits(k: nat)
    requires k < 32
    ensures Bit(POLYNOMIAL, k) == Generator()[k + 1]
  {
    PolynomialIsReflection();
    ReflectionBit(IsTerm, 0, k);
  }

  // ---- The register divides ----

  // One step of the register, fed the next coefficient.
  function FeedBit(c: uint32, b: bool): uint32 {
    if (c % 2 == 1) != b then Xor32(c / 2, POLYNOMIAL) else c / 2
  }

  function Feed(c: uint32, m: seq<bool>): uint32
    decreases |m|
  {
    if m == [] then c else Feed(FeedBit(c, m[0]), m[1..])
  }

  lemma FeedBitAt(c: uint32, b: bool, i: nat)
    requires i < 32
    ensures Bit(FeedBit(c, b), i) == (Bit(c, i + 1) != ((Bit(c, 0) != b) && Generator()[i + 1]))
  {
    PolynomialBits(i);
    XorBit(c / 2, POLYNOMIAL, 32, i);
  }

  lemma NoBit32(c: uint32)
    ensures !Bit(c, 32)
  {
    Power2Of32();
    NoBit(c, 32);
  }

  // Feeding a coefficient is one line of the division.
  lemma FeedReduces(c: uint32, b: bool, rest: seq<bool>)
    requires |rest| >= 32
    ensures AddFront(rest, Bits(FeedBit(c, b))) == Reduce(AddFront([b] + rest, Bits(c)), Generator())
  {
    var p := AddFront([b] + rest, Bits(c));
    NoBit32(c);
    forall i | 0 <= i < |rest| ensures AddFront(rest, Bits(FeedBit(c, b)))[i] == Reduce(p, Generator())[i] {
      assert ([b] + rest)[i + 1] == rest[i];
      ReduceAt(p, Generator(), i);
      if i < 32 { FeedBitAt(c, b, i); }
    }
  }

  lemma {:induction false} FeedDivides(c: uint32, m: seq<bool>)
    ensures Bits(Feed(c, m)) == Remainder(AddFront(m + Repeat(false, 32), Bits(c)), Generator())
    decreases |m|
  {
    if m == [] {
      assert m + Repeat(false, 32) == Repeat(false, 32);
      assert AddFront(Repeat(false, 32), Bits(c)) == Bits(c);
    } else {
      var rest := m[1..] + Repeat(false, 32);
      assert m + Repeat(false, 32) == [m[0]] + rest;
      FeedReduces(c, m[0], rest);
      FeedDivides(FeedBit(c, m[0]), m[1..]);
    }
  }

  // ---- Bytes, the lowest bit first ----

  function MessageBits(p: seq<byte>): (m: seq<bool>)
    ensures |m| == 8 * |p|
  {
    if p == [] then [] else BitsOf(p[0] as int, 8) + MessageBits(p[1..])
  }

  lemma {:induction false} XorSwap(a: nat, b: nat, c: nat, width: nat)
    ensures Xor(Xor(a, b, width), c, width) == Xor(Xor(a, c, width), b, width)
  {
    if width > 0 { XorSwap(a / 2, b / 2, c / 2, width - 1); }
  }

  lemma {:induction false} XorWider(a: nat, b: nat, width: nat)
    requires a < Power2(width) && b < Power2(width)
    ensures Xor(a, b, width + 1) == Xor(a, b, width)
  {
    if width > 0 { XorWider(a / 2, b / 2, width - 1); }
  }

  lemma {:induction false} XorZero(a: nat, width: nat)
    requires a < Power2(width)
    ensures Xor(a, 0, width) == a
  {
    if width > 0 { XorZero(a / 2, width - 1); }
  }

  // The lowest bit of a byte can be fed on its own.
  lemma FeedLowest(c: uint32, x: uint32)
    ensures Xor32(c, x) % 2 == 1 <==> (c % 2 == 1) != (x % 2 == 1)
    ensures ShiftBits(Xor32(c, x), 1) == Xor32(FeedBit(c, x % 2 == 1), x / 2)
  {
    Power2Of32();
    assert Power2(32) == 2 * Power2(31);
    XorWider(c / 2, x / 2, 31);
    XorSwap(c / 2, x / 2, POLYNOMIAL, 32);
    assert Xor32(c, x) / 2 == Xor32(c / 2, x / 2);
  }

  lemma ShiftFirst(c: uint32, n: nat)
    requires n > 0
    ensures ShiftBits(c, n) == ShiftBits(ShiftBits(c, 1), n - 1)
  {
    var next: uint32 := if c % 2 == 1 then Xor32(c / 2, POLYNOMIAL) else c / 2;
    assert ShiftBits(next, 0) == next;
  }

  lemma {:induction false} ShiftsFeed(c: uint32, x: uint32, n: nat)
    requires x < Power2(n)
    ensures ShiftBits(Xor32(c, x), n) == Feed(c, BitsOf(x, n))
    decreases n
  {
    if n == 0 {
      Power2Of32();
      XorZero(c, 32);
    } else {
      ShiftFirst(Xor32(c, x), n);
      FeedLowest(c, x);
      ShiftsFeed(FeedBit(c, x % 2 == 1), x / 2, n - 1);
      assert BitsOf(x, n)[1..] == BitsOf(x / 2, n - 1);
    }
  }

  lemma {:induction false} FeedConcat(c: uint32, m: seq<bool>, n: seq<bool>)
    ensures Feed(c, m + n) == Feed(Feed(c, m), n)
    decreases |m|
  {
    if m == [] {
      assert m + n == n;
    } else {
      assert (m + n)[1..] == m[1..] + n;
      FeedConcat(FeedBit(c, m[0]), m[1..], n);
    }
  }

  lemma {:induction false} FoldFeeds(c: uint32, p: seq<byte>)
    ensures Fold(c, p) == Feed(c, MessageBits(p))
    decreases |p|
  {
    if p != [] {
      var b := p[0] as int;
      assert Power2(8) == 256;
      ShiftsFeed(c, b, 8);
      FeedConcat(c, BitsOf(b, 8), MessageBits(p[1..]));
      FoldFeeds(FoldByte(c, p[0]), p[1..]);
    }
  }

  // ---- The checksum ----

  function Complement(r: seq<bool>): (s: seq<bool>)
    ensures |s| == |r| && forall i :: 0 <= i < |r| ==> s[i] == !r[i]
  {
    seq(|r|, i requires 0 <= i < |r| => !r[i])
  }

  // The message times x^32, its first 32 coefficients complemented.
  function Dividend(p: seq<byte>): (d: seq<bool>)
    ensures |d| == 8 * |p| + 32
  {
    var m := MessageBits(p) + Repeat(false, 32);
    Complement(m[..32]) + m[32..]
  }

  lemma {:induction false} ComplementBit(c: nat, k: nat, i: nat)
    requires c < Power2(k) && i < k
    ensures Bit(Power2(k) - 1 - c, i) == !Bit(c, i)
    decreases k
  {
    assert (Power2(k) - 1 - c) / 2 == Power2(k - 1) - 1 - c / 2;
    if i > 0 { ComplementBit(c / 2, k - 1, i - 1); }
  }

  lemma Sum32Bit(c: uint32, i: nat)
    requires i < 32
    ensures Bit(Sum32(c), i) == !Bit(c, i)
  {
    Power2Of32();
    ComplementBit(c, 32, i);
  }

  lemma {:induction false} ZeroBit(i: nat)
    ensures !Bit(0, i)
  {
    if i > 0 { ZeroBit(i - 1); }
  }

  lemma StartComplements(m: seq<bool>)
    requires |m| >= 32
    ensures AddFront(m, Bits(EMPTY_REGISTER)) == Complement(m[..32]) + m[32..]
  {
    forall i | 0 <= i < 32 ensures Bit(EMPTY_REGISTER, i) {
      ZeroBit(i);
      Sum32Bit(0, i);
    }
  }

  lemma SumOfBits(c: uint32)
    ensures NumberOf(Complement(Bits(c))) == Sum32(c)
  {
    var s := Sum32(c);
    Power2Of32();
    NumberOfBits(s, 32);
    forall i | 0 <= i < 32 ensures BitsOf(s, 32)[i] == Complement(Bits(c))[i] {
      BitsAt(s, 32, i);
      Sum32Bit(c, i);
    }
    assert BitsOf(s, 32) == Complement(Bits(c));
  }

  // The checksum of any bytes is the complement of the remainder that the
  // generator leaves of the dividend, read with the highest power as the lowest
  // bit.
  lemma Crc32IsRemainder(p: seq<byte>, q: seq<bool>, r: seq<bool>)
    requires Divides(Dividend(p), Generator(), q, r)
    ensures Crc32(p) == NumberOf(Complement(r))
  {
    DivisionIsUnique(Dividend(p), Generator(), q, r);
    FoldFeeds(EMPTY_REGISTER, p);
    FeedDivides(EMPTY_REGISTER, MessageBits(p));
    StartComplements(MessageBits(p) + Repeat(false, 32));
    SumOfBits(Fold(EMPTY_REGISTER, p));
  }

  // And there is such a division.
  lemma RemainderExists(p: seq<byte>) returns (q: seq<bool>, r: seq<bool>)
    ensures Divides(Dividend(p), Generator(), q, r)
  {
    q, r := Quotient(Dividend(p), Generator()), Remainder(Dividend(p), Generator());
    LongDivision(Dividend(p), Generator());
  }
}
