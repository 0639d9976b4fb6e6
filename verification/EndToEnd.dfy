// A file split into numbered parts, each yEnc-encoded into an article, decoded
// and assembled again.
module EndToEnd {
  import opened Basics
  import opened YencCodec
  import opened YencText
  import opened YencCrc
  import opened LineStream
  import opened YencDecoder
  import opened YencRoundTrip
  import opened Assembly

  // One part: its bytes, an article that carries them, the Writes the article
  // arrived in, and the file its decoded bytes go to.
  datatype Part = Part(
    plain: seq<byte>,
    enc: seq<byte>,
    article: Article,
    header: Header,
    partHeader: Option<PartHeader>,
    trailer: Trailer,
    chunks: seq<seq<byte>>,
    workingFilename: string)

  ghost predicate Sent(p: Part) {
    && Carries(p.article, p.plain, p.enc, p.header, p.partHeader, p.trailer)
    && ChecksumOK(p.trailer, Crc32(p.plain))
    && Flatten(p.chunks) == BytesOf(p.article)
  }

  function Plains(parts: seq<Part>): (r: seq<seq<byte>>)
    ensures |r| == |parts|
  {
    seq(|parts|, i requires 0 <= i < |parts| => parts[i].plain)
  }

  // The segments of the parts, numbered from 1.
  function Numbered(parts: seq<Part>): (r: seq<Segment>)
    ensures |r| == |parts|
  {
    seq(|parts|, i requires 0 <= i < |parts| => Segment(i + 1, parts[i].workingFilename))
  }

  // Every part has been decoded to its own file.
  ghost predicate Downloaded(parts: seq<Part>, wd: string, disk: Disk) {
    forall i :: 0 <= i < |parts| ==>
      && JoinPath(wd, parts[i].workingFilename) in disk
      && disk[JoinPath(wd, parts[i].workingFilename)] == WriteChunks(parts[i].chunks).0.s.out
  }

  lemma {:induction false} ContentsAre(disk: Disk, paths: seq<string>, plains: seq<seq<byte>>)
    requires |paths| == |plains|
    requires forall i :: 0 <= i < |paths| ==> paths[i] in disk && disk[paths[i]] == plains[i]
    ensures Contents(disk, paths) == Flatten(plains)
  {
    if paths != [] {
      ContentsAre(disk, paths[1..], plains[1..]);
    }
  }

  lemma NumberedIsSorted(parts: seq<Part>)
    ensures Sorted(Numbered(parts)) && DistinctNumbers(Numbered(parts))
  {
  }

  // However the segments are listed and whatever sorting does, the decoded parts
  // are accepted and Assemble writes the original file, removes the parts, and
  // leaves every other file alone.
  lemma AssembledIsOriginal(parts: seq<Part>, listed: seq<Segment>, sorted: seq<Segment>,
                            wd: string, dest: string, disk: Disk)
    requires forall i :: 0 <= i < |parts| ==> Sent(parts[i])
    requires multiset(listed) == multiset(Numbered(parts))
    requires Sorted(sorted) && multiset(sorted) == multiset(listed)
    requires Distinct(Paths(Numbered(parts), wd)) && dest !in Paths(Numbered(parts), wd)
    requires Downloaded(parts, wd, disk)
    ensures forall i :: 0 <= i < |parts| ==> WriteChunks(parts[i].chunks).1.None?
    ensures dest !in Paths(sorted, wd)
    ensures AssembleTo(disk, dest, Paths(sorted, wd))
         == (Without(disk, Paths(Numbered(parts), wd))[dest := Flatten(Plains(parts))], true)
  {
    NumberedIsSorted(parts);
    SortedOrderUnique(sorted, Numbered(parts));
    var paths := Paths(Numbered(parts), wd);
    forall i | 0 <= i < |parts|
      ensures WriteChunks(parts[i].chunks).1.None? && paths[i] in disk && disk[paths[i]] == Plains(parts)[i]
    {
      var p := parts[i];
      assert Sent(p);
      RoundTrip(p.article, p.plain, p.enc, p.header, p.partHeader, p.trailer, p.chunks);
    }
    ContentsAre(disk, paths, Plains(parts));
    AssembleEffect(disk, dest, paths);
  }

  // ---- Every byte string can be sent ----

  // Text that can stand in a keyword line: bytes, and no line terminator.
  predicate Safe(s: string) {
    forall c :: c in s ==> c < '\U{100}' && c != '\n' && c != '\r'
  }

  function Written(s: string, crlf: bool): (l: Line)
    requires Safe(s)
    ensures l.text == s
  {
    Line(seq<byte>(|s|, i requires 0 <= i < |s| => ByteAt(s, i)), crlf)
  }

  function ByteAt(s: string, i: nat): (b: byte)
    requires Safe(s) && i < |s|
    ensures b == s[i]
  {
    assert s[i] in s;
    s[i]
  }

  lemma FormatIntSafe(n: int)
    ensures Safe(FormatInt(n))
  {
    AtoiInvertsFormat(n);
  }

  predicate SafeField(f: Field) {
    Safe(f.key) && Safe(f.value)
  }

  lemma {:induction false} JoinSafe(fields: seq<Field>)
    requires forall f :: f in fields ==> SafeField(f)
    ensures Safe(Join(fields))
    decreases |fields|
  {
    if fields != [] {
      assert SafeField(fields[0]);
      JoinSafe(fields[1..]);
    }
  }

  lemma KeywordLineSafe(keyword: string, fields: seq<Field>)
    requires fields != [] && Safe(keyword) && forall f :: f in fields ==> SafeField(f)
    ensures Safe(KeywordLine(keyword, fields))
    ensures "=" + keyword + " " <= KeywordLine(keyword, fields)
  {
    JoinSafe(fields);
    var rest := Element(fields[0]) + Join(fields[1..]);
    assert KeywordLine(keyword, fields) == "=" + keyword + " " + rest;
  }

  lemma SafeIsUnbroken(s: seq<byte>)
    requires Safe(s)
    ensures Unbroken(s)
  {
    if s != [] { assert s[|s| - 1] in s; }
  }

  lemma IntFieldSafe(key: string, n: int)
    requires Safe(key)
    ensures SafeField(Field(key, FormatInt(n)))
  {
    FormatIntSafe(n);
  }

  lemma KeysSafe()
    ensures Safe("part") && Safe("total") && Safe("line") && Safe("size") && Safe("name")
  {
  }

  lemma HeaderFieldsSafe(h: Header)
    requires Safe(h.name)
    ensures forall f :: f in HeaderFields(h) ==> SafeField(f)
  {
    KeysSafe();
    IntFieldSafe("line", h.line);
    IntFieldSafe("size", h.size);
    IntFieldSafe("part", h.part);
    IntFieldSafe("total", h.total);
    assert SafeField(Field("name", h.name));
  }

  lemma HeaderLineSafe(h: Header)
    requires Safe(h.name)
    ensures Safe(PrintHeader(h)) && "=ybegin " <= PrintHeader(h)
  {
    HeaderFieldsSafe(h);
    KeywordLineSafe("ybegin", HeaderFields(h));
    assert "=" + "ybegin" + " " == "=ybegin ";
  }

  // The header a decoder reads from a printed one: the name ends at its first space.
  function Read(h: Header): Header {
    h.(name := h.name[..IndexOf(h.name, ' ')])
  }

  // The word after that space, if there is one, does not read as a key.
  predicate CutsCleanly(name: string) {
    ' ' in name ==> '=' !in Split(name[IndexOf(name, ' ') + 1..], ' ')[0]
  }

  lemma PrintedIsRead(h: Header)
    requires Printable(h) && CutsCleanly(h.name)
    ensures ParseHeader(PrintHeader(h)) == Some(Read(h))
  {
    var k := IndexOf(h.name, ' ');
    if ' ' in h.name {
      var word, more := h.name[..k], h.name[k + 1..];
      assert h.name == word + " " + more;
      SpacedName(h, word, more);
    } else {
      assert h.name[..k] == h.name;
      HeaderRoundTrip(h);
    }
  }

  lemma PrintedHeader(h: Header, crlf: bool)
    requires Printable(h) && CutsCleanly(h.name) && Safe(h.name)
    ensures Safe(PrintHeader(h)) && HeaderIs(Written(PrintHeader(h), crlf), Read(h))
  {
    HeaderLineSafe(h);
    SafeIsUnbroken(Written(PrintHeader(h), crlf).text);
    PrintedIsRead(h);
  }

  lemma PrintedPartHeader(p: PartHeader, crlf: bool)
    requires InRange(p.begin) && InRange(p.end)
    ensures Safe(PrintPartHeader(p)) && PartHeaderIs(Written(PrintPartHeader(p), crlf), p)
  {
    FormatIntSafe(p.begin);
    FormatIntSafe(p.end);
    KeywordLineSafe("ypart", [Field("begin", FormatInt(p.begin)), Field("end", FormatInt(p.end))]);
    assert "=" + "ypart" + " " == "=ypart ";
    SafeIsUnbroken(Written(PrintPartHeader(p), crlf).text);
    PartHeaderRoundTrip(p);
  }

  lemma PrintedTrailer(t: Trailer, crlf: bool)
    requires InRange(t.size) && ' ' !in t.crc32 && ' ' !in t.partCRC32 && Safe(t.crc32) && Safe(t.partCRC32)
    ensures Safe(PrintTrailer(t)) && TrailerIs(Written(PrintTrailer(t), crlf), t)
  {
    FormatIntSafe(t.size);
    KeywordLineSafe("yend",
      [Field("size", FormatInt(t.size)), Field("pcrc32", t.partCRC32), Field("crc32", t.crc32)]);
    assert "=" + "yend" + " " == "=yend ";
    SafeIsUnbroken(Written(PrintTrailer(t), crlf).text);
    TrailerRoundTrip(t);
  }

  lemma BareCarries(plain: seq<byte>, header: Line, partHeader: Option<Line>, data: seq<Line>, trailer: Line,
                    h: Header, p: Option<PartHeader>, t: Trailer)
    requires Flatten(Texts(data)) == Encode(plain) && HeaderIs(header, h) && TrailerIs(trailer, t)
    requires if h.multipart
             then p.Some? && partHeader.Some? && PartHeaderIs(partHeader.value, p.value)
             else p.None? && partHeader.None?
    ensures Carries(Article([], header, partHeader, data, trailer), plain, Encode(plain), h, p, t)
  {
  }

  // Any byte string, under any header, part header and trailer that print to
  // lines, with its encoding broken anywhere, makes an article that carries it,
  // under a header whose name ends at its first space.
  lemma PrintedArticleCarries(plain: seq<byte>, data: seq<Line>, h: Header, p: PartHeader, t: Trailer, crlf: bool)
    requires Flatten(Texts(data)) == Encode(plain)
    requires Printable(h) && CutsCleanly(h.name) && Safe(h.name) && h.multipart
    requires InRange(p.begin) && InRange(p.end)
    requires InRange(t.size) && ' ' !in t.crc32 && ' ' !in t.partCRC32 && Safe(t.crc32) && Safe(t.partCRC32)
    ensures Safe(PrintHeader(h)) && Safe(PrintPartHeader(p)) && Safe(PrintTrailer(t))
    ensures Carries(
              Article([], Written(PrintHeader(h), crlf), Some(Written(PrintPartHeader(p), crlf)), data,
                      Written(PrintTrailer(t), crlf)),
              plain, Encode(plain), Read(h), Some(p), t)
  {
    PrintedHeader(h, crlf);
    PrintedPartHeader(p, crlf);
    PrintedTrailer(t, crlf);
    BareCarries(plain, Written(PrintHeader(h), crlf), Some(Written(PrintPartHeader(p), crlf)), data,
                Written(PrintTrailer(t), crlf), Read(h), Some(p), t);
  }

  // The same for a single-part header.
  lemma PrintedSingleCarries(plain: seq<byte>, data: seq<Line>, h: Header, t: Trailer, crlf: bool)
    requires Flatten(Texts(data)) == Encode(plain)
    requires Printable(h) && CutsCleanly(h.name) && Safe(h.name) && !h.multipart
    requires InRange(t.size) && ' ' !in t.crc32 && ' ' !in t.partCRC32 && Safe(t.crc32) && Safe(t.partCRC32)
    ensures Safe(PrintHeader(h)) && Safe(PrintTrailer(t))
    ensures Carries(Article([], Written(PrintHeader(h), crlf), None, data, Written(PrintTrailer(t), crlf)),
                    plain, Encode(plain), Read(h), None, t)
  {
    PrintedHeader(h, crlf);
    PrintedTrailer(t, crlf);
    BareCarries(plain, Written(PrintHeader(h), crlf), None, data, Written(PrintTrailer(t), crlf), Read(h), None, t);
  }

  // Bytes sent as one data line under a single-part header.
  function InOneLine(plain: seq<byte>, h: Header, t: Trailer, crlf: bool): Article
    requires Safe(PrintHeader(h)) && Safe(PrintTrailer(t))
  {
    Article([], Written(PrintHeader(h), crlf), None, [Line(Encode(plain), crlf)], Written(PrintTrailer(t), crlf))
  }

  lemma OneText(l: Line)
    ensures Flatten(Texts([l])) == l.text
  {
    assert Texts([l]) == [l.text];
    assert Texts([l])[1..] == [];
  }

  lemma OneLineAccepted(plain: seq<byte>, h: Header, t: Trailer, crlf: bool)
    requires Printable(h) && CutsCleanly(h.name) && Safe(h.name) && !h.multipart
    requires InRange(t.size) && ' ' !in t.crc32 && ' ' !in t.partCRC32 && Safe(t.crc32) && Safe(t.partCRC32)
    requires ChecksumOK(t, Crc32(plain))
    ensures Safe(PrintHeader(h)) && Safe(PrintTrailer(t))
    ensures var (r, e) := WriteChunks([BytesOf(InOneLine(plain, h, t, crlf))]);
            e.None? && r.s.out == plain && r.s.header == Some(Read(h)) && r.s.trailer == Some(t)
  {
    var data := [Line(Encode(plain), crlf)];
    OneText(data[0]);
    PrintedSingleCarries(plain, data, h, t, crlf);
    var a := InOneLine(plain, h, t, crlf);
    OneChunk(TakeLine, START, BytesOf(a));
    RoundTrip(a, plain, Encode(plain), Read(h), None, t, [BytesOf(a)]);
  }

  // Whatever is sent, and whatever sizes header and trailer claim for it, is
  // accepted as it is.
  lemma AnySizesAreAccepted(plain: seq<byte>, size: int, claimed: int, crlf: bool)
    requires InRange(size) && InRange(claimed)
    ensures var h, t := Header(false, 0, 0, 128, size, "f"), Trailer(claimed, "", "");
            && Safe(PrintHeader(h)) && Safe(PrintTrailer(t))
            && var (r, e) := WriteChunks([BytesOf(InOneLine(plain, h, t, crlf))]);
            e.None? && r.s.out == plain && r.s.header.Some? && r.s.header.value.size == size && r.s.trailer == Some(t)
  {
    OneLineAccepted(plain, Header(false, 0, 0, 128, size, "f"), Trailer(claimed, "", ""), crlf);
  }
}
