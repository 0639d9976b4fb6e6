// Which numbers and which headers are read from a keyword line: a statement for
// every list of fields, in any order and with keys missing or repeated.
module YencFields {
  import opened Basics
  import opened YencText

  // ---- Numbers ----

  function Power10(k: nat): nat {
    if k == 0 then 1 else 10 * Power10(k - 1)
  }

  // Each digit counts for its place.
  function Decimal(digits: string): nat
    requires AllDigits(digits)
  {
    if digits == [] then 0
    else (digits[0] as int - '0' as int) * Power10(|digits| - 1) + Decimal(digits[1..])
  }

  ghost predicate Signed(s: string, digits: string, n: int) {
    && digits != [] && AllDigits(digits)
    && if s == "-" + digits then n + Decimal(digits) == 0
       else (s == digits || s == "+" + digits) && n == Decimal(digits)
  }

  // The text stands for the number: digits behind at most one sign, and a value
  // that fits 64 bits.
  ghost predicate Means(s: string, n: int) {
    && -9223372036854775808 <= n <= 9223372036854775807
    && exists digits :: Signed(s, digits, n)
  }

  lemma {:induction false} DecimalSnoc(digits: string, c: char)
    requires AllDigits(digits) && Digit(c)
    ensures AllDigits(digits + [c]) && Decimal(digits + [c]) == Decimal(digits) * 10 + (c as int - '0' as int)
  {
    if digits == [] {
      assert digits + [c] == [c];
      assert Power10(0) == 1;
    } else {
      var rest := digits[1..];
      assert (digits + [c])[1..] == rest + [c];
      DecimalSnoc(rest, c);
      PlaceUp(digits[0] as int - '0' as int, |rest|);
    }
  }

  lemma PlaceUp(d: int, k: nat)
    ensures d * Power10(k + 1) == d * Power10(k) * 10
  {
  }

  lemma {:induction false} DecimalIsNatValue(digits: string)
    requires AllDigits(digits)
    ensures Decimal(digits) == NatValue(digits)
    decreases |digits|
  {
    if digits != [] {
      var front, last := digits[..|digits| - 1], digits[|digits| - 1];
      assert digits == front + [last];
      DecimalIsNatValue(front);
      DecimalSnoc(front, last);
    }
  }

  lemma SignedText(s: string, digits: string, sign: char)
    requires digits != [] && AllDigits(digits) && (sign == '+' || sign == '-')
    ensures s == [sign] + digits <==> s != [] && s[0] == sign && s[1..] == digits
    ensures s == digits ==> s[0] != sign
  {
    assert Digit(digits[0]);
    if s == [sign] + digits { assert s[1..] == digits; }
    if s != [] && s[0] == sign && s[1..] == digits { assert s == [s[0]] + s[1..]; }
  }

  lemma SignedIsRead(s: string, digits: string, n: int)
    requires Signed(s, digits, n)
    ensures Atoi(s) == if InRange(n) then Some(n) else None
  {
    DecimalIsNatValue(digits);
    SignedText(s, digits, '+');
    SignedText(s, digits, '-');
  }

  lemma ReadIsSigned(s: string, n: int)
    requires Atoi(s) == Some(n)
    ensures Signed(s, if s[0] == '-' || s[0] == '+' then s[1..] else s, n)
  {
    var digits := if s[0] == '-' || s[0] == '+' then s[1..] else s;
    DecimalIsNatValue(digits);
    SignedText(s, digits, '+');
    SignedText(s, digits, '-');
  }

  // Atoi reads a text as a number if and only if it stands for that number, and
  // refuses every text that stands for none.
  lemma AtoiMeans(s: string, n: int)
    ensures Atoi(s) == Some(n) <==> Means(s, n)
  {
    if Atoi(s) == Some(n) {
      ReadIsSigned(s, n);
    }
    if Means(s, n) {
      var digits :| Signed(s, digits, n);
      SignedIsRead(s, digits, n);
    }
  }

  // ---- Fields ----

  // The value of the last field with this key, empty if there is none.
  function ValueOf(fields: seq<Field>, key: string): string {
    if fields == [] then ""
    else
      var last := fields[|fields| - 1];
      if last.key == key then last.value else ValueOf(fields[..|fields| - 1], key)
  }

  lemma {:induction false} AssignSnoc(fields: seq<Field>, f: Field, m: map<string, string>)
    ensures Assign(fields + [f], m) == Assign(fields, m)[f.key := f.value]
    decreases |fields|
  {
    if fields == [] {
      assert fields + [f] == [f];
      assert Assign([f], m) == Assign([f][1..], m[f.key := f.value]);
    } else {
      assert (fields + [f])[1..] == fields[1..] + [f];
      AssignSnoc(fields[1..], f, m[fields[0].key := fields[0].value]);
    }
  }

  lemma {:induction false} AssignedValue(fields: seq<Field>, m: map<string, string>, key: string)
    requires Get(m, key) == ""
    ensures Get(Assign(fields, m), key) == ValueOf(fields, key)
    decreases |fields|
  {
    if fields != [] {
      var front, last := fields[..|fields| - 1], fields[|fields| - 1];
      assert fields == front + [last];
      AssignSnoc(front, last, m);
      AssignedValue(front, m, key);
    }
  }

  // What the map of a keyword line holds.
  lemma LineValue(keyword: string, fields: seq<Field>, key: string)
    requires '=' !in keyword && ' ' !in keyword && key != ""
    requires forall f :: f in fields ==> CleanField(f)
    ensures Get(HeaderMap(KeywordLine(keyword, fields)), key) == ValueOf(fields, key)
  {
    if fields == [] {
      assert KeywordLine(keyword, fields) == "=" + keyword;
    } else {
      KeywordLineMap(keyword, fields);
      AssignedValue(fields, map["" := keyword], key);
    }
  }

  // ---- Headers, part headers and trailers ----

  // A header is multi-part if it has a part; a total that is missing or empty
  // is 0.
  ghost predicate Describes(fields: seq<Field>, h: Header) {
    var part, total := ValueOf(fields, "part"), ValueOf(fields, "total");
    && Means(ValueOf(fields, "line"), h.line) && Means(ValueOf(fields, "size"), h.size)
    && h.name == ValueOf(fields, "name")
    && (h.multipart <==> part != "")
    && (if !h.multipart then h.part == 0 && h.total == 0
        else Means(part, h.part) && if total == "" then h.total == 0 else Means(total, h.total))
  }

  // The header a line is read as, if any: so a line is refused exactly when its
  // fields describe none, be it for a line, a size, a part or a total that is
  // there and no number.
  lemma HeaderRead(fields: seq<Field>, h: Header)
    requires forall f :: f in fields ==> CleanField(f)
    ensures ParseHeader(KeywordLine("ybegin", fields)) == Some(h) <==> Describes(fields, h)
  {
    LineValue("ybegin", fields, "line");
    LineValue("ybegin", fields, "size");
    LineValue("ybegin", fields, "part");
    LineValue("ybegin", fields, "total");
    LineValue("ybegin", fields, "name");
    AtoiMeans(ValueOf(fields, "line"), h.line);
    AtoiMeans(ValueOf(fields, "size"), h.size);
    AtoiMeans(ValueOf(fields, "part"), h.part);
    AtoiMeans(ValueOf(fields, "total"), h.total);
  }

  lemma PartHeaderRead(fields: seq<Field>, p: PartHeader)
    requires forall f :: f in fields ==> CleanField(f)
    ensures ParsePartHeader(KeywordLine("ypart", fields)) == Some(p) <==>
              Means(ValueOf(fields, "begin"), p.begin) && Means(ValueOf(fields, "end"), p.end)
  {
    LineValue("ypart", fields, "begin");
    LineValue("ypart", fields, "end");
    AtoiMeans(ValueOf(fields, "begin"), p.begin);
    AtoiMeans(ValueOf(fields, "end"), p.end);
  }

  // Both checksums may be missing.
  lemma TrailerRead(fields: seq<Field>, t: Trailer)
    requires forall f :: f in fields ==> CleanField(f)
    ensures ParseTrailer(KeywordLine("yend", fields)) == Some(t) <==>
              && Means(ValueOf(fields, "size"), t.size)
              && t.crc32 == ValueOf(fields, "crc32") && t.partCRC32 == ValueOf(fields, "pcrc32")
  {
    LineValue("yend", fields, "size");
    LineValue("yend", fields, "crc32");
    LineValue("yend", fields, "pcrc32");
    AtoiMeans(ValueOf(fields, "size"), t.size);
  }
}
