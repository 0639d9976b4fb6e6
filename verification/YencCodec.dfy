// The byte transformation of yEnc: the decoder's table-driven fold over a line,
// and the encoding principle of the yEnc 1.3 draft as its specification.
module YencCodec {
  // A byte, as the character of the same code.
  type byte = c: char | c < '\U{100}' witness 'a'

  function Shift(b: byte, n: int): byte {
    ((b as int + n) % 256) as char
  }

  function DecodeMap(b: byte): byte {
    Shift(b, -42)
  }

  function CriticalDecodeMap(b: byte): byte {
    Shift(DecodeMap(b), -64)
  }

  // The bytes a run of encoded bytes stands for, and whether it ended after an
  // escape character.
  function Decode(enc: seq<byte>, critical: bool): (seq<byte>, bool) {
    if enc == [] then ([], critical)
    else if critical then
      var (rest, c) := Decode(enc[1..], false);
      ([CriticalDecodeMap(enc[0])] + rest, c)
    else if enc[0] == '=' then Decode(enc[1..], true)
    else
      var (rest, c) := Decode(enc[1..], false);
      ([DecodeMap(enc[0])] + rest, c)
  }

  // Decoding line after line is decoding their concatenation, with the escape
  // flag carried over the joints.
  lemma {:induction false} DecodeConcat(a: seq<byte>, b: seq<byte>, critical: bool)
    ensures var (x, c) := Decode(a, critical);
            var (y, c') := Decode(b, c);
            Decode(a + b, critical) == (x + y, c')
  {
    if a == [] {
      assert a + b == b;
      var (y, c') := Decode(b, critical);
      assert [] + y == y;
    } else {
      assert (a + b)[1..] == a[1..] + b;
      if critical {
        DecodeConcat(a[1..], b, false);
        AssocFirst(CriticalDecodeMap(a[0]), Decode(a[1..], false).0, Decode(b, Decode(a[1..], false).1).0);
      } else if a[0] == '=' {
        DecodeConcat(a[1..], b, true);
      } else {
        DecodeConcat(a[1..], b, false);
        AssocFirst(DecodeMap(a[0]), Decode(a[1..], false).0, Decode(b, Decode(a[1..], false).1).0);
      }
    }
  }

  lemma AssocFirst(x: byte, a: seq<byte>, b: seq<byte>)
    ensures [x] + (a + b) == ([x] + a) + b
  {
  }

  // One more byte at the end of what has been decoded.
  lemma DecodeOneMore(a: seq<byte>, b: byte, critical: bool)
    ensures var (x, c) := Decode(a, critical);
            Decode(a + [b], critical) ==
              if c then (x + [CriticalDecodeMap(b)], false)
              else if b == '=' then (x, true)
              else (x + [DecodeMap(b)], false)
  {
    DecodeConcat(a, [b], critical);
    var (x, c) := Decode(a, critical);
    assert [b][1..] == [];
    assert forall z: byte :: [z] + [] == [z];
    assert x + [] == x;
  }

  // ---- The encoding principle ----

  predicate Critical(e: byte) {
    e == '\0' || e == '\n' || e == '\r' || e == '='
  }

  // What a careful writer may escape besides the critical characters.
  predicate Escapable(e: byte) {
    Critical(e) || e == '\t' || e == ' ' || e == '.'
  }

  function EncodeMap(b: byte): byte {
    Shift(b, 42)
  }

  // The tables in plain numbers: a decoded byte is 42 below the encoded one, an
  // escaped one 64 further below.
  lemma Tables(b: byte)
    ensures (DecodeMap(b) as int + 42) % 256 == b as int
    ensures (CriticalDecodeMap(b) as int + 106) % 256 == b as int
    ensures (b as int + 42) % 256 == EncodeMap(b) as int
  {
  }

  // `enc` is an encoding of `plain`: each byte raised by 42, and escaped if the
  // result is critical, or at will where escaping is allowed.
  ghost predicate Encodes(plain: seq<byte>, enc: seq<byte>) {
    if plain == [] then enc == []
    else
      var e := EncodeMap(plain[0]);
      || (!Critical(e) && 1 <= |enc| && enc[0] == e && Encodes(plain[1..], enc[1..]))
      || (Escapable(e) && 2 <= |enc| && enc[0] == '=' && enc[1] == Shift(e, 64) && Encodes(plain[1..], enc[2..]))
  }

  // The encoding that escapes only where it must.
  function Encode(plain: seq<byte>): (enc: seq<byte>)
    ensures Encodes(plain, enc)
  {
    if plain == [] then []
    else
      var e := EncodeMap(plain[0]);
      var rest := Encode(plain[1..]);
      if Critical(e) then
        var enc := ['=', Shift(e, 64)] + rest;
        assert enc[2..] == rest;
        enc
      else
        var enc := [e] + rest;
        assert enc[1..] == rest;
        enc
  }

  lemma ShiftTwice(b: byte, m: int, n: int)
    ensures Shift(Shift(b, m), n) == Shift(b, m + n)
  {
    var x := b as int + m;
    assert x == 256 * (x / 256) + x % 256;
    assert (x % 256 + n) % 256 == (x + n) % 256;
  }

  lemma PlainDecodes(b: byte)
    ensures DecodeMap(EncodeMap(b)) == b
  {
    ShiftTwice(b, 42, -42);
  }

  lemma EscapedDecodes(b: byte)
    ensures CriticalDecodeMap(Shift(EncodeMap(b), 64)) == b
  {
    ShiftTwice(b, 42, 64);
    ShiftTwice(b, 106, -42);
    ShiftTwice(b, 64, -64);
  }

  lemma {:induction false} DecodeInvertsEncode(plain: seq<byte>, enc: seq<byte>)
    requires Encodes(plain, enc)
    ensures Decode(enc, false) == (plain, false)
  {
    if plain != [] {
      var e := EncodeMap(plain[0]);
      PlainDecodes(plain[0]);
      EscapedDecodes(plain[0]);
      if !Critical(e) && enc[0] == e && Encodes(plain[1..], enc[1..]) {
        DecodeInvertsEncode(plain[1..], enc[1..]);
      } else {
        DecodeInvertsEncode(plain[1..], enc[2..]);
        assert enc[1..][0] == enc[1] && enc[1..][1..] == enc[2..];
      }
      assert [plain[0]] + plain[1..] == plain;
    }
  }

  // ---- Encoded text and line structure ----

  // After an escape character comes one of the seven escaped forms; no byte of
  // an encoding ends a line.
  ghost predicate WellEscaped(enc: seq<byte>, after: bool) {
    && (forall k :: 0 <= k < |enc| ==> enc[k] != '\n' && enc[k] != '\r')
    && forall k :: 0 <= k < |enc| && (if k == 0 then after else enc[k - 1] == '=') ==>
         enc[k] in {'@', 'J', 'M', '}', 'I', '`', 'n'}
  }

  lemma EscapedForms(e: byte)
    requires Escapable(e)
    ensures Shift(e, 64) in {'@', 'J', 'M', '}', 'I', '`', 'n'}
  {
  }

  lemma {:induction false} EncodingIsWellEscaped(plain: seq<byte>, enc: seq<byte>)
    requires Encodes(plain, enc)
    ensures WellEscaped(enc, false)
  {
    if plain != [] {
      var e := EncodeMap(plain[0]);
      if !Critical(e) && enc[0] == e && Encodes(plain[1..], enc[1..]) {
        EncodingIsWellEscaped(plain[1..], enc[1..]);
        assert forall k :: 0 < k < |enc| ==> enc[k] == enc[1..][k - 1];
      } else {
        EscapedForms(e);
        EncodingIsWellEscaped(plain[1..], enc[2..]);
        assert forall k :: 2 <= k < |enc| ==> enc[k] == enc[2..][k - 2];
      }
    }
  }

  // Any line cut out of an encoding, even inside an escape pair, never reads as
  // the trailer keyword.
  lemma DataLineIsNotTrailer(enc: seq<byte>, after: bool, lo: nat, hi: nat)
    requires WellEscaped(enc, after) && lo <= hi <= |enc|
    ensures !("=y" <= enc[lo..hi])
    ensures forall k :: lo <= k < hi ==> enc[k] != '\n' && enc[k] != '\r'
  {
    if hi - lo >= 2 && enc[lo] == '=' {
      assert enc[lo + 1] in {'@', 'J', 'M', '}', 'I', '`', 'n'};
    }
  }
}
