// The text around yEnc data: decimal numbers, keyword lines as key=value lists,
// and the header, part header and trailer read from them.
module YencText {
  import opened Basics

  // ---- Decimal numbers ----

  // The range of Go's int on a 64-bit machine.
  const MIN_INT: int := -0x8000_0000_0000_0000
  const MAX_INT: int := 0x7fff_ffff_ffff_ffff

  predicate InRange(n: int) {
    MIN_INT <= n <= MAX_INT
  }

  predicate Digit(c: char) {
    '0' <= c <= '9'
  }

  function DigitValue(c: char): nat
    requires Digit(c)
  {
    c as int - '0' as int
  }

  predicate AllDigits(s: string) {
    forall k :: 0 <= k < |s| ==> Digit(s[k])
  }

  function NatValue(s: string): nat
    requires AllDigits(s)
  {
    if s == [] then 0 else NatValue(s[..|s| - 1]) * 10 + DigitValue(s[|s| - 1])
  }

  // strconv.Atoi: an optional sign, at least one digit, no overflow.
  function Atoi(s: string): Option<int> {
    var digits := if s != [] && (s[0] == '-' || s[0] == '+') then s[1..] else s;
    if digits == [] || !AllDigits(digits) then None
    else
      var n: int := if s[0] == '-' then 0 - NatValue(digits) else NatValue(digits) as int;
      if InRange(n) then Some(n) else None
  }

  function FormatNat(n: nat): (s: string)
    ensures s != [] && AllDigits(s)
    ensures NatValue(s) == n
  {
    var d := ('0' as int + n % 10) as char;
    var s := if n < 10 then [d] else FormatNat(n / 10) + [d];
    assert s[..|s| - 1] == if n < 10 then [] else FormatNat(n / 10);
    s
  }

  function FormatInt(n: int): string {
    if n < 0 then "-" + FormatNat(-n) else FormatNat(n)
  }

  lemma AtoiInvertsFormat(n: int)
    ensures Atoi(FormatInt(n)) == if InRange(n) then Some(n) else None
    ensures forall c :: c in FormatInt(n) ==> c == '-' || Digit(c)
    ensures FormatInt(n) != []
  {
    if n < 0 {
      assert ("-" + FormatNat(-n))[1..] == FormatNat(-n);
    } else {
      assert Digit(FormatNat(n)[0]);
    }
  }

  // ---- Splitting a line into elements ----

  function Split(s: string, sep: char): (parts: seq<string>)
    ensures parts != []
  {
    if s == [] then [[]]
    else
      var rest := Split(s[1..], sep);
      if s[0] == sep then [[]] + rest else [[s[0]] + rest[0]] + rest[1..]
  }

  lemma {:induction false} SplitFirst(a: string, b: string, sep: char)
    requires sep !in a
    ensures Split(a + [sep] + b, sep) == [a] + Split(b, sep)
  {
    if a == [] {
      assert ([] + [sep] + b)[1..] == b;
    } else {
      assert (a + [sep] + b)[1..] == a[1..] + [sep] + b;
      SplitFirst(a[1..], b, sep);
      assert [a[0]] + a[1..] == a;
    }
  }

  lemma {:induction false} SplitWhole(a: string, sep: char)
    ensures sep !in a ==> Split(a, sep) == [a]
    ensures forall p :: p in Split(a, sep) ==> sep !in p
    ensures sep in a ==> |Split(a, sep)| >= 2
  {
    if a != [] {
      SplitWhole(a[1..], sep);
      var rest := Split(a[1..], sep);
      assert rest[0] in rest;
      assert [a[0]] + a[1..] == a;
      assert forall p :: p in rest[1..] ==> p in rest;
    }
  }

  // The position of the first `c`, or the length of the text.
  function IndexOf(s: string, c: char): (k: nat)
    ensures k <= |s| && c !in s[..k]
    ensures k < |s| ==> s[k] == c
    ensures c in s <==> k < |s|
  {
    if s == [] then 0
    else if s[0] == c then 0
    else
      var k := 1 + IndexOf(s[1..], c);
      assert s[..k] == [s[0]] + s[1..][..k - 1];
      k
  }

  // ---- Key=value lists ----

  // Reads elements in order until one has no '='. Later values win.
  function Fill(elements: seq<string>, m: map<string, string>): map<string, string> {
    if elements == [] then m
    else
      var k := IndexOf(elements[0], '=');
      if k == |elements[0]| then m
      else Fill(elements[1..], m[elements[0][..k] := elements[0][k + 1..]])
  }

  // headerBytesToMap also reports malformed lines, but every caller overwrites
  // that error, so only the map it built so far is left of it.
  function HeaderMap(h: string): map<string, string> {
    if ' ' in h then Fill(Split(h, ' '), map[]) else map[]
  }

  function Get(m: map<string, string>, key: string): string {
    if key in m then m[key] else ""
  }

  datatype Header = Header(multipart: bool, part: int, total: int, line: int, size: int, name: string)

  datatype PartHeader = PartHeader(begin: int, end: int)

  datatype Trailer = Trailer(size: int, crc32: string, partCRC32: string)

  function Number(m: map<string, string>, key: string): Option<int> {
    Atoi(Get(m, key))
  }

  function ParseHeader(b: string): Option<Header> {
    var m := HeaderMap(b);
    var line, size := Number(m, "line"), Number(m, "size");
    if line.None? || size.None? then None
    else if Get(m, "part") == "" then Some(Header(false, 0, 0, line.value, size.value, Get(m, "name")))
    else if Number(m, "part").None? then None
    else if Get(m, "total") == ""
    then Some(Header(true, Number(m, "part").value, 0, line.value, size.value, Get(m, "name")))
    else if Number(m, "total").None? then None
    else Some(Header(true, Number(m, "part").value, Number(m, "total").value, line.value, size.value, Get(m, "name")))
  }

  function ParsePartHeader(b: string): Option<PartHeader> {
    var m := HeaderMap(b);
    if Number(m, "begin").None? || Number(m, "end").None? then None
    else Some(PartHeader(Number(m, "begin").value, Number(m, "end").value))
  }

  function ParseTrailer(b: string): Option<Trailer> {
    var m := HeaderMap(b);
    if Number(m, "size").None? then None
    else Some(Trailer(Number(m, "size").value, Get(m, "crc32"), Get(m, "pcrc32")))
  }

  // ---- Printing, as the yEnc 1.3 draft writes these lines ----

  datatype Field = Field(key: string, value: string)

  function Element(f: Field): string {
    f.key + "=" + f.value
  }

  function Elements(fields: seq<Field>): seq<string> {
    if fields == [] then [] else [Element(fields[0])] + Elements(fields[1..])
  }

  function Join(fields: seq<Field>): string {
    if fields == [] then "" else " " + (Element(fields[0]) + Join(fields[1..]))
  }

  function KeywordLine(keyword: string, fields: seq<Field>): string {
    "=" + keyword + Join(fields)
  }

  function HeaderFields(h: Header): seq<Field> {
    var line, size := Field("line", FormatInt(h.line)), Field("size", FormatInt(h.size));
    if h.multipart
    then [Field("part", FormatInt(h.part)), Field("total", FormatInt(h.total)), line, size, Field("name", h.name)]
    else [line, size, Field("name", h.name)]
  }

  function PrintHeader(h: Header): string {
    KeywordLine("ybegin", HeaderFields(h))
  }

  function PrintPartHeader(p: PartHeader): string {
    KeywordLine("ypart", [Field("begin", FormatInt(p.begin)), Field("end", FormatInt(p.end))])
  }

  function PrintTrailer(t: Trailer): string {
    KeywordLine("yend",
      [Field("size", FormatInt(t.size)), Field("pcrc32", t.partCRC32), Field("crc32", t.crc32)])
  }

  // What Header values the decoder itself can hold.
  predicate Printable(h: Header) {
    && InRange(h.part) && InRange(h.total) && InRange(h.line) && InRange(h.size)
    && (!h.multipart ==> h.part == 0 && h.total == 0)
  }

  // ---- Reading back what was printed ----

  predicate CleanField(f: Field) {
    '=' !in f.key && ' ' !in f.key && ' ' !in f.value
  }

  function Assign(fields: seq<Field>, m: map<string, string>): map<string, string> {
    if fields == [] then m else Assign(fields[1..], m[fields[0].key := fields[0].value])
  }

  lemma {:induction false} FirstIndex(s: string, c: char, k: nat)
    requires k < |s| && s[k] == c && c !in s[..k]
    ensures IndexOf(s, c) == k
  {
    if k > 0 {
      assert s[0] == s[..k][0];
      assert forall x :: x in s[1..][..k - 1] ==> x in s[..k];
      FirstIndex(s[1..], c, k - 1);
    }
  }

  lemma ElementParts(f: Field)
    requires '=' !in f.key
    ensures IndexOf(Element(f), '=') == |f.key|
    ensures Element(f)[..|f.key|] == f.key && Element(f)[|f.key| + 1..] == f.value
  {
    assert Element(f)[..|f.key|] == f.key;
    FirstIndex(Element(f), '=', |f.key|);
  }

  lemma {:induction false} SplitJoin(head: string, fields: seq<Field>)
    requires ' ' !in head && forall f :: f in fields ==> CleanField(f)
    ensures Split(head + Join(fields), ' ') == [head] + Elements(fields)
    decreases |fields|
  {
    if fields == [] {
      assert head + "" == head;
      SplitWhole(head, ' ');
    } else {
      var rest := Element(fields[0]) + Join(fields[1..]);
      assert head + Join(fields) == head + [' '] + rest;
      SplitFirst(head, rest, ' ');
      assert CleanField(fields[0]);
      SplitJoin(Element(fields[0]), fields[1..]);
    }
  }

  lemma {:induction false} FillElements(fields: seq<Field>, m: map<string, string>)
    requires forall f :: f in fields ==> CleanField(f)
    ensures Fill(Elements(fields), m) == Assign(fields, m)
    decreases |fields|
  {
    if fields != [] {
      assert CleanField(fields[0]);
      ElementParts(fields[0]);
      assert Elements(fields)[1..] == Elements(fields[1..]);
      FillElements(fields[1..], m[fields[0].key := fields[0].value]);
    }
  }

  lemma KeywordLineMap(keyword: string, fields: seq<Field>)
    requires '=' !in keyword && ' ' !in keyword && fields != []
    requires forall f :: f in fields ==> CleanField(f)
    ensures HeaderMap(KeywordLine(keyword, fields)) == Assign(fields, map["" := keyword])
  {
    var head := "=" + keyword;
    SplitJoin(head, fields);
    assert KeywordLine(keyword, fields)[|head|] == ' ';
    var all := [Field("", keyword)] + fields;
    assert Element(all[0]) == head;
    assert all[1..] == fields;
    assert Elements(all) == [head] + Elements(fields);
    FillElements(all, map[]);
    assert map[]["" := keyword] == map["" := keyword];
  }

  lemma {:induction false} AssignAbsent(fields: seq<Field>, m: map<string, string>, key: string)
    requires forall j :: 0 <= j < |fields| ==> fields[j].key != key
    ensures Get(Assign(fields, m), key) == Get(m, key)
    decreases |fields|
  {
    if fields != [] {
      AssignAbsent(fields[1..], m[fields[0].key := fields[0].value], key);
    }
  }

  lemma {:induction false} AssignAt(fields: seq<Field>, m: map<string, string>, i: nat)
    requires i < |fields|
    requires forall j :: i < j < |fields| ==> fields[j].key != fields[i].key
    ensures Get(Assign(fields, m), fields[i].key) == fields[i].value
    decreases |fields|
  {
    if i == 0 {
      AssignAbsent(fields[1..], m[fields[0].key := fields[0].value], fields[0].key);
    } else {
      AssignAt(fields[1..], m[fields[0].key := fields[0].value], i - 1);
    }
  }

  // No value read from a line contains a space.
  lemma {:induction false} FillValues(elements: seq<string>, m: map<string, string>)
    requires forall e :: e in elements ==> ' ' !in e
    requires forall k :: k in m ==> ' ' !in m[k]
    ensures forall k :: k in Fill(elements, m) ==> ' ' !in Fill(elements, m)[k]
  {
    if elements != [] {
      var k := IndexOf(elements[0], '=');
      if k < |elements[0]| {
        assert forall e :: e in elements[1..] ==> e in elements;
        assert elements[0] in elements;
        FillValues(elements[1..], m[elements[0][..k] := elements[0][k + 1..]]);
      }
    }
  }

  lemma NamesHaveNoSpace(b: string)
    ensures ParseHeader(b).Some? ==> ' ' !in ParseHeader(b).value.name
  {
    SplitWhole(b, ' ');
    FillValues(Split(b, ' '), map[]);
  }

  lemma NumberField(key: string, n: int)
    requires '=' !in key && ' ' !in key
    ensures CleanField(Field(key, FormatInt(n)))
  {
    AtoiInvertsFormat(n);
  }

  // A header survives printing and parsing exactly when its name has no space.
  lemma HeaderRoundTrip(h: Header)
    requires Printable(h)
    ensures ParseHeader(PrintHeader(h)) == Some(h) <==> ' ' !in h.name
  {
    NamesHaveNoSpace(PrintHeader(h));
    if ' ' !in h.name { CleanHeaderRoundTrip(h); }
  }

  lemma HeaderFieldsClean(h: Header)
    requires ' ' !in h.name
    ensures forall f :: f in HeaderFields(h) ==> CleanField(f)
  {
    NumberField("line", h.line);
    NumberField("size", h.size);
    NumberField("part", h.part);
    NumberField("total", h.total);
  }

  ghost predicate HoldsHeader(m: map<string, string>, h: Header) {
    && Get(m, "line") == FormatInt(h.line) && Get(m, "size") == FormatInt(h.size)
    && Get(m, "name") == h.name
    && Get(m, "part") == (if h.multipart then FormatInt(h.part) else "")
    && (h.multipart ==> Get(m, "total") == FormatInt(h.total))
  }

  lemma AssignedSingle(h: Header, m: map<string, string>)
    requires !h.multipart && Get(m, "part") == ""
    ensures HoldsHeader(Assign(HeaderFields(h), m), h)
  {
    var fields := HeaderFields(h);
    AssignAt(fields, m, 0);
    AssignAt(fields, m, 1);
    AssignAt(fields, m, 2);
    AssignAbsent(fields, m, "part");
  }

  lemma AssignedMulti(h: Header, m: map<string, string>)
    requires h.multipart
    ensures HoldsHeader(Assign(HeaderFields(h), m), h)
  {
    var fields := HeaderFields(h);
    AssignAt(fields, m, 0);
    AssignAt(fields, m, 1);
    AssignAt(fields, m, 2);
    AssignAt(fields, m, 3);
    AssignAt(fields, m, 4);
  }

  // The values a decoder finds in a printed header.
  lemma PrintedValues(h: Header)
    requires ' ' !in h.name
    ensures HoldsHeader(HeaderMap(PrintHeader(h)), h)
  {
    HeaderFieldsClean(h);
    KeywordLineMap("ybegin", HeaderFields(h));
    if h.multipart {
      AssignedMulti(h, map["" := "ybegin"]);
    } else {
      AssignedSingle(h, map["" := "ybegin"]);
    }
  }

  lemma CleanHeaderRoundTrip(h: Header)
    requires Printable(h) && ' ' !in h.name
    ensures ParseHeader(PrintHeader(h)) == Some(h)
  {
    PrintedValues(h);
    AtoiInvertsFormat(h.line);
    AtoiInvertsFormat(h.size);
    AtoiInvertsFormat(h.part);
    AtoiInvertsFormat(h.total);
  }

  lemma PartHeaderRoundTrip(p: PartHeader)
    ensures ParsePartHeader(PrintPartHeader(p)) == if InRange(p.begin) && InRange(p.end) then Some(p) else None
  {
    var fields := [Field("begin", FormatInt(p.begin)), Field("end", FormatInt(p.end))];
    NumberField("begin", p.begin);
    NumberField("end", p.end);
    KeywordLineMap("ypart", fields);
    AssignAt(fields, map["" := "ypart"], 0);
    AssignAt(fields, map["" := "ypart"], 1);
    AtoiInvertsFormat(p.begin);
    AtoiInvertsFormat(p.end);
  }

  // An absent checksum is one whose text is empty.
  lemma TrailerRoundTrip(t: Trailer)
    requires ' ' !in t.crc32 && ' ' !in t.partCRC32
    ensures ParseTrailer(PrintTrailer(t)) == if InRange(t.size) then Some(t) else None
  {
    var fields := [Field("size", FormatInt(t.size)), Field("pcrc32", t.partCRC32), Field("crc32", t.crc32)];
    NumberField("size", t.size);
    KeywordLineMap("yend", fields);
    AssignAt(fields, map["" := "yend"], 0);
    AssignAt(fields, map["" := "yend"], 1);
    AssignAt(fields, map["" := "yend"], 2);
    AtoiInvertsFormat(t.size);
  }

  // ---- Lines with malformed elements, and names with spaces ----

  predicate WellFormed(elements: seq<string>) {
    forall e :: e in elements ==> '=' in e
  }

  lemma {:induction false} SplitConcat(a: string, b: string, sep: char)
    ensures Split(a + [sep] + b, sep) == Split(a, sep) + Split(b, sep)
  {
    if a == [] {
      assert ([] + [sep] + b)[1..] == b;
    } else {
      assert (a + [sep] + b)[1..] == a[1..] + [sep] + b;
      SplitConcat(a[1..], b, sep);
    }
  }

  lemma {:induction false} FillConcat(xs: seq<string>, ys: seq<string>, m: map<string, string>)
    requires WellFormed(xs)
    ensures Fill(xs + ys, m) == Fill(ys, Fill(xs, m))
    decreases |xs|
  {
    if xs == [] {
      assert xs + ys == ys;
    } else {
      var k := IndexOf(xs[0], '=');
      assert xs[0] in xs && forall e :: e in xs[1..] ==> e in xs;
      assert (xs + ys)[1..] == xs[1..] + ys;
      FillConcat(xs[1..], ys, m[xs[0][..k] := xs[0][k + 1..]]);
    }
  }

  // What follows a well-formed line is read on top of it.
  lemma MoreElements(line: string, more: string)
    requires ' ' in line && WellFormed(Split(line, ' '))
    ensures HeaderMap(line + " " + more) == Fill(Split(more, ' '), HeaderMap(line))
  {
    SplitConcat(line, more, ' ');
    FillConcat(Split(line, ' '), Split(more, ' '), map[]);
    assert ' ' in line + " " + more;
  }

  // A malformed line, whatever its keyword, is accepted if and only if what stands
  // in front of its first malformed element is, and then with the same values.
  lemma MalformedLine(line: string, more: string)
    requires ' ' in line && WellFormed(Split(line, ' ')) && '=' !in Split(more, ' ')[0]
    ensures ParseHeader(line + " " + more) == ParseHeader(line)
    ensures ParsePartHeader(line + " " + more) == ParsePartHeader(line)
    ensures ParseTrailer(line + " " + more) == ParseTrailer(line)
  {
    MoreElements(line, more);
  }

  // With no space, or nothing in front of the first malformed element but the
  // keyword, a line is not accepted as anything.
  lemma NothingRead(line: string)
    requires line != [] && line[0] == '='
    requires ' ' in line ==> |Split(line, ' ')| >= 2 && '=' !in Split(line, ' ')[1]
    ensures ParseHeader(line).None? && ParsePartHeader(line).None? && ParseTrailer(line).None?
  {
    assert Atoi("").None?;
    if ' ' in line {
      var es, m := Split(line, ' '), HeaderMap(line);
      FirstElement(line);
      assert es[1..][0] == es[1];
      assert Fill(es[1..], map["" := es[0][1..]]) == map["" := es[0][1..]];
      assert map[]["" := es[0][1..]] == map["" := es[0][1..]];
      assert es[0][..0] == "";
      assert m == map["" := es[0][1..]];
    }
  }

  lemma FirstElement(line: string)
    requires line != [] && line[0] == '='
    ensures Split(line, ' ')[0] != [] && Split(line, ' ')[0][0] == '='
    ensures ' ' in line ==> |Split(line, ' ')| >= 2
  {
    SplitWhole(line, ' ');
  }

  // The first element and the rest.
  lemma CutFirst(line: string) returns (first: string, rest: string)
    requires ' ' in line
    ensures line == first + " " + rest && ' ' !in first
    ensures Split(line, ' ') == [first] + Split(rest, ' ') && Split(first, ' ') == [first]
  {
    var k := IndexOf(line, ' ');
    first, rest := line[..k], line[k + 1..];
    assert line == first + " " + rest;
    SplitFirst(first, rest, ' ');
    SplitWhole(first, ' ');
  }

  lemma {:induction false} CutMalformed(line: string) returns (front: string, more: string)
    requires !WellFormed(Split(line, ' ')) && '=' in Split(line, ' ')[0]
    ensures line == front + " " + more
    ensures WellFormed(Split(front, ' ')) && '=' !in Split(more, ' ')[0]
    decreases |line|
  {
    SplitWhole(line, ' ');
    var first, rest := CutFirst(line);
    if '=' !in Split(rest, ' ')[0] {
      front, more := first, rest;
    } else {
      var f;
      f, more := CutMalformed(rest);
      front := first + " " + f;
      SplitFirst(first, f, ' ');
      Associates(first + " ", f, " " + more);
      Associates(f, " ", more);
      Associates(front, " ", more);
    }
  }

  // Every malformed keyword line is accepted exactly when the elements in front of
  // its first malformed one, if there is one besides the keyword, make up a line
  // that is, and then for the same values.
  lemma MalformedIsCut(line: string) returns (front: string)
    requires line != [] && line[0] == '=' && !WellFormed(Split(line, ' '))
    ensures front < line && WellFormed(Split(front, ' '))
    ensures ParseHeader(line) == if ' ' in front then ParseHeader(front) else None
    ensures ParsePartHeader(line) == if ' ' in front then ParsePartHeader(front) else None
    ensures ParseTrailer(line) == if ' ' in front then ParseTrailer(front) else None
  {
    FirstElement(line);
    assert '=' in Split(line, ' ')[0];
    var more;
    front, more := CutMalformed(line);
    if ' ' in front {
      MalformedLine(front, more);
    } else {
      SplitFirst(front, more, ' ');
      NothingRead(line);
    }
  }

  lemma {:induction false} ElementsWellFormed(fields: seq<Field>)
    ensures WellFormed(Elements(fields))
    decreases |fields|
  {
    if fields != [] {
      ElementsWellFormed(fields[1..]);
      assert Element(fields[0])[|fields[0].key|] == '=';
    }
  }

  lemma {:induction false} JoinLast(fields: seq<Field>, f: Field, more: string)
    ensures Join(fields + [Field(f.key, f.value + " " + more)]) == Join(fields + [f]) + " " + more
    decreases |fields|
  {
    if fields == [] {
      var g := Field(f.key, f.value + " " + more);
      assert [] + [g] == [g] && [] + [f] == [f];
      assert Join([g]) == " " + (Element(g) + "") && Join([f]) == " " + (Element(f) + "");
      assert Element(g) == Element(f) + " " + more;
    } else {
      assert (fields + [Field(f.key, f.value + " " + more)])[1..] == fields[1..] + [Field(f.key, f.value + " " + more)];
      assert (fields + [f])[1..] == fields[1..] + [f];
      JoinLast(fields[1..], f, more);
    }
  }

  lemma PrintedName(h: Header, word: string, more: string)
    requires h.name == word + " " + more
    ensures PrintHeader(h) == PrintHeader(h.(name := word)) + " " + more
  {
    var fields, f := HeaderFields(h), Field("name", word);
    var front := fields[..|fields| - 1];
    assert fields == front + [Field(f.key, f.value + " " + more)];
    assert HeaderFields(h.(name := word)) == front + [f];
    JoinLast(front, f, more);
  }

  lemma PrintedWellFormed(h: Header)
    requires ' ' !in h.name
    ensures ' ' in PrintHeader(h) && WellFormed(Split(PrintHeader(h), ' '))
  {
    HeaderFieldsClean(h);
    SplitJoin("=ybegin", HeaderFields(h));
    ElementsWellFormed(HeaderFields(h));
    assert "=ybegin" == "=" + "ybegin";
    assert PrintHeader(h)[7] == ' ';
  }

  // A name is cut at its first space, and its further words are read as elements
  // of their own, later ones overriding the header's.
  lemma SpacedName(h: Header, word: string, more: string)
    requires Printable(h) && h.name == word + " " + more && ' ' !in word
    ensures HeaderMap(PrintHeader(h)) == Fill(Split(more, ' '), HeaderMap(PrintHeader(h.(name := word))))
    ensures '=' !in Split(more, ' ')[0] ==> ParseHeader(PrintHeader(h)) == Some(h.(name := word))
  {
    var cut := h.(name := word);
    PrintedName(h, word, more);
    PrintedWellFormed(cut);
    MoreElements(PrintHeader(cut), more);
    if '=' !in Split(more, ' ')[0] {
      MalformedLine(PrintHeader(cut), more);
      CleanHeaderRoundTrip(cut);
    }
  }
}
