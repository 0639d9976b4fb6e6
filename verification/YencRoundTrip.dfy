// The decoder inverts the yEnc 1.3 encoding of any byte string, however it is
// broken into lines and the text into Writes.
module YencRoundTrip {
  import opened Basics
  import opened YencCodec
  import opened YencText
  import opened YencCrc
  import opened LineStream
  import opened YencDecoder

  // ---- Articles ----

  datatype Line = Line(text: seq<byte>, crlf: bool)

  function Render(l: Line): seq<byte> {
    l.text + if l.crlf then ['\r', '\n'] else ['\n']
  }

  function RenderAll(ls: seq<Line>): (r: seq<seq<byte>>)
    ensures |r| == |ls|
  {
    seq(|ls|, i requires 0 <= i < |ls| => Render(ls[i]))
  }

  function Texts(ls: seq<Line>): (r: seq<seq<byte>>)
    ensures |r| == |ls|
  {
    seq(|ls|, i requires 0 <= i < |ls| => ls[i].text)
  }

  // A text that its terminator cannot run into.
  ghost predicate Unbroken(text: seq<byte>) {
    '\n' !in text && (text != [] ==> text[|text| - 1] != '\r')
  }

  lemma RenderedLine(l: Line)
    requires Unbroken(l.text)
    ensures IsLine(Render(l)) && TrimRight(Render(l)) == l.text
  {
    var r := Render(l);
    assert TrimRight(l.text) == l.text;
    if l.crlf {
      assert r[..|r| - 1] == l.text + ['\r'];
      assert (l.text + ['\r'])[..|l.text|] == l.text;
    } else {
      assert r[..|r| - 1] == l.text;
    }
  }

  lemma PrefixOfRendered(p: string, l: Line)
    requires forall c :: c in p ==> c != '\r' && c != '\n'
    ensures p <= Render(l) <==> p <= l.text
  {
    var r, n := Render(l), |l.text|;
    if |p| <= n {
      assert r[..|p|] == l.text[..|p|];
    } else {
      assert p[n] in p;
      assert r[n] == '\r' || r[n] == '\n';
    }
  }

  lemma PrefixOfBegin(l: Line)
    ensures "=ybegin " <= Render(l) <==> "=ybegin " <= l.text
  {
    PrefixOfRendered("=ybegin ", l);
  }

  lemma PrefixOfPart(l: Line)
    ensures "=ypart " <= Render(l) <==> "=ypart " <= l.text
  {
    PrefixOfRendered("=ypart ", l);
  }

  // A single-part or multi-part article: other lines, the header, for a
  // multi-part header the part header, data lines, and the trailer.
  datatype Article = Article(
    preamble: seq<Line>, header: Line, partHeader: Option<Line>, data: seq<Line>, trailer: Line)

  function Front(a: Article): seq<Line> {
    [a.header] + if a.partHeader.Some? then [a.partHeader.value] else []
  }

  // All of it but the trailer.
  function Body(a: Article): seq<Line> {
    a.preamble + (Front(a) + a.data)
  }

  function BytesOf(a: Article): seq<byte> {
    Flatten(RenderAll(Body(a))) + Render(a.trailer)
  }

  function Length(ls: seq<Line>): nat {
    if ls == [] then 0 else |Render(ls[0])| + Length(ls[1..])
  }

  ghost predicate Preamble(ls: seq<Line>) {
    forall l :: l in ls ==> Unbroken(l.text) && !("=ybegin " <= l.text)
  }

  ghost predicate HeaderIs(l: Line, h: Header) {
    Unbroken(l.text) && "=ybegin " <= l.text && ParseHeader(l.text) == Some(h)
  }

  ghost predicate PartHeaderIs(l: Line, p: PartHeader) {
    Unbroken(l.text) && "=ypart " <= l.text && ParsePartHeader(l.text) == Some(p)
  }

  ghost predicate TrailerIs(l: Line, t: Trailer) {
    Unbroken(l.text) && "=yend " <= l.text && ParseTrailer(l.text) == Some(t)
  }

  // The lines before the trailer carry `plain` under these parsed lines. The data
  // lines are the encoding cut anywhere, even inside an escape pair.
  ghost predicate CarriesBody(a: Article, plain: seq<byte>, enc: seq<byte>, h: Header, p: Option<PartHeader>) {
    && Encodes(plain, enc) && Flatten(Texts(a.data)) == enc
    && Preamble(a.preamble) && Length(a.preamble) < MAX_HEADER_BUFFER
    && HeaderIs(a.header, h)
    && (if h.multipart
        then p.Some? && a.partHeader.Some? && PartHeaderIs(a.partHeader.value, p.value)
        else p.None? && a.partHeader.None?)
  }

  ghost predicate Carries(a: Article, plain: seq<byte>, enc: seq<byte>, h: Header, p: Option<PartHeader>, t: Trailer) {
    CarriesBody(a, plain, enc, h, p) && TrailerIs(a.trailer, t)
  }

  // ---- Before the header ----

  lemma PreambleLine(d: Decoder, l: Line)
    requires d.header.None? && d.before < MAX_HEADER_BUFFER && !("=ybegin " <= l.text)
    ensures TakeLine(d, Render(l)) == (d.(before := d.before + |Render(l)|), More)
  {
    PrefixOfBegin(l);
  }

  lemma RenderFirst(ls: seq<Line>)
    requires ls != []
    ensures RenderAll(ls) == [Render(ls[0])] + RenderAll(ls[1..])
  {
  }

  ghost predicate Skips<E(!new)>(take: Step<Decoder, E>, ls: seq<Line>) {
    forall d: Decoder, l {:trigger take(d, Render(l))} :: l in ls && d.header.None? && d.before < MAX_HEADER_BUFFER ==>
      take(d, Render(l)) == (d.(before := d.before + |Render(l)|), More)
  }

  lemma SkipsFirst<E(!new)>(take: Step<Decoder, E>, d: Decoder, ls: seq<Line>)
    requires Skips(take, ls) && ls != []
    ensures Skips(take, ls[1..])
    ensures d.header.None? && d.before < MAX_HEADER_BUFFER ==>
              take(d, Render(ls[0])) == (d.(before := d.before + |Render(ls[0])|), More)
  {
    var l0, rest := ls[0], ls[1..];
    assert l0 in ls;
    forall e: Decoder, l | l in rest && e.header.None? && e.before < MAX_HEADER_BUFFER
      ensures take(e, Render(l)) == (e.(before := e.before + |Render(l)|), More)
    {
      assert l in ls;
    }
  }

  lemma {:induction false} SkippedLines<E(!new)>(take: Step<Decoder, E>, d: Decoder, ls: seq<Line>)
    requires Skips(take, ls) && d.header.None? && d.before + Length(ls) < MAX_HEADER_BUFFER
    ensures AllMore(take, d, RenderAll(ls))
    ensures Feed(take, d, RenderAll(ls)).0 == d.(before := d.before + Length(ls))
    decreases |ls|
  {
    if ls != [] {
      var d1 := d.(before := d.before + |Render(ls[0])|);
      SkipsFirst(take, d, ls);
      SkippedLines(take, d1, ls[1..]);
      OneMore(take, d, Render(ls[0]), RenderAll(ls[1..]));
      RenderFirst(ls);
    }
  }

  lemma PreambleSkips(ls: seq<Line>)
    requires Preamble(ls)
    ensures Skips(TakeLine, ls)
  {
    forall d: Decoder, l | l in ls && d.header.None? && d.before < MAX_HEADER_BUFFER
      ensures TakeLine(d, Render(l)) == (d.(before := d.before + |Render(l)|), More)
    {
      PreambleLine(d, l);
    }
  }

  lemma PreambleLines(d: Decoder, ls: seq<Line>)
    requires d.header.None? && Preamble(ls) && d.before + Length(ls) < MAX_HEADER_BUFFER
    ensures AllMore(TakeLine, d, RenderAll(ls))
    ensures Feed(TakeLine, d, RenderAll(ls)).0 == d.(before := d.before + Length(ls))
  {
    PreambleSkips(ls);
    SkippedLines(TakeLine, d, ls);
  }

  // ---- The data ----

  lemma WellEscapedTail(enc: seq<byte>, after: bool, k: nat)
    requires WellEscaped(enc, after) && k <= |enc|
    ensures WellEscaped(enc[k..], if k == 0 then after else enc[k - 1] == '=')
  {
    forall i | 0 <= i < |enc[k..]| &&
      (if i == 0 then (if k == 0 then after else enc[k - 1] == '=') else enc[k..][i - 1] == '=')
      ensures enc[k..][i] in {'@', 'J', 'M', '}', 'I', '`', 'n'}
    {
      assert enc[k..][i] == enc[k + i];
      if i > 0 { assert enc[k..][i - 1] == enc[k + i - 1]; }
    }
  }

  lemma DecodeLinesJoin(d: Decoder, a: seq<byte>, b: seq<byte>)
    ensures DecodeLine(DecodeLine(d, a), b) == DecodeLine(d, a + b)
  {
    DecodeConcat(a, b, d.critical);
    var (x, c) := Decode(a, d.critical);
    var (y, c') := Decode(b, c);
    FoldConcat(d.crc, x, y);
    Associates(d.out, x, y);
  }

  lemma DecodeNothing(d: Decoder)
    ensures DecodeLine(d, []) == d
  {
    assert d.out + [] == d.out;
  }

  ghost predicate ReadyForData(d: Decoder) {
    d.header.Some? && (d.header.value.multipart ==> d.partHeader.Some?)
  }

  // A data line is decoded and nothing else.
  lemma DataLine(d: Decoder, l: Line, enc: seq<byte>, after: bool)
    requires ReadyForData(d) && WellEscaped(enc, after) && l.text <= enc
    ensures TakeLine(d, Render(l)) == (DecodeLine(d, l.text), More)
  {
    assert Unbroken(l.text);
    RenderedLine(l);
    DataLineIsNotTrailer(enc, after, 0, |l.text|);
    assert enc[0..|l.text|] == l.text;
    assert TakeLine(d, Render(l)) == TakeData(d, Render(l));
  }

  lemma {:induction false} DataLines(d: Decoder, ls: seq<Line>, enc: seq<byte>, after: bool)
    requires ReadyForData(d) && WellEscaped(enc, after) && Flatten(Texts(ls)) == enc
    ensures AllMore(TakeLine, d, RenderAll(ls))
    ensures Feed(TakeLine, d, RenderAll(ls)).0 == DecodeLine(d, enc)
    decreases |ls|
  {
    if ls == [] {
      DecodeNothing(d);
    } else {
      var text := ls[0].text;
      assert Texts(ls)[1..] == Texts(ls[1..]);
      var rest := enc[|text|..];
      assert enc == text + rest;
      DataLine(d, ls[0], enc, after);
      WellEscapedTail(enc, after, |text|);
      DataLines(DecodeLine(d, text), ls[1..], rest, if |text| == 0 then after else enc[|text| - 1] == '=');
      OneMore(TakeLine, d, Render(ls[0]), RenderAll(ls[1..]));
      RenderFirst(ls);
      DecodeLinesJoin(d, text, rest);
    }
  }

  // ---- The whole article ----

  lemma HeaderLine(d: Decoder, l: Line, h: Header)
    requires d.header.None? && d.before < MAX_HEADER_BUFFER && HeaderIs(l, h)
    ensures TakeLine(d, Render(l)) == (d.(header := Some(h)), More)
  {
    PrefixOfBegin(l);
    RenderedLine(l);
  }

  lemma PartHeaderNext(d: Decoder, line: seq<byte>)
    requires d.header.Some? && d.header.value.multipart && d.partHeader.None?
    ensures var h := ParsePartHeader(TrimRight(line));
            TakeLine(d, line) ==
              if !("=ypart " <= line) then (d, Broken(NoPartHeader))
              else if h.None? then (d, Broken(MalformedPartHeader))
              else (d.(partHeader := h), More)
  {
    assert d.(partHeader := None) == d;
  }

  lemma PartHeaderLine(d: Decoder, l: Line, p: PartHeader)
    requires d.header.Some? && d.header.value.multipart && d.partHeader.None? && PartHeaderIs(l, p)
    ensures TakeLine(d, Render(l)) == (d.(partHeader := Some(p)), More)
  {
    PartHeaderNext(d, Render(l));
    PrefixOfPart(l);
    RenderedLine(l);
  }

  lemma FrontTaken<S, E>(take: Step<S, E>, d: S, a: Article, d1: S, d2: S)
    requires take(d, Render(a.header)) == (d1, More)
    requires if a.partHeader.Some? then take(d1, Render(a.partHeader.value)) == (d2, More) else d2 == d1
    ensures AllMore(take, d, RenderAll(Front(a))) && Feed(take, d, RenderAll(Front(a))).0 == d2
  {
    if a.partHeader.Some? {
      var second := Render(a.partHeader.value);
      TwoMore(take, d, Render(a.header), d1, second, d2);
      assert RenderAll(Front(a)) == [Render(a.header), second];
    } else {
      OnlyMore(take, d, Render(a.header));
      assert RenderAll(Front(a)) == [Render(a.header)];
    }
  }

  lemma FrontLines(d: Decoder, a: Article, h: Header, p: Option<PartHeader>)
    requires d == START.(before := d.before) && d.before < MAX_HEADER_BUFFER
    requires HeaderIs(a.header, h)
    requires if h.multipart
             then p.Some? && a.partHeader.Some? && PartHeaderIs(a.partHeader.value, p.value)
             else p.None? && a.partHeader.None?
    ensures AllMore(TakeLine, d, RenderAll(Front(a)))
    ensures Feed(TakeLine, d, RenderAll(Front(a))).0 == d.(header := Some(h), partHeader := p)
  {
    var d1 := d.(header := Some(h));
    HeaderLine(d, a.header, h);
    if h.multipart { PartHeaderLine(d1, a.partHeader.value, p.value); }
    FrontTaken(TakeLine, d, a, d1, d.(header := Some(h), partHeader := p));
  }

  // What the decoder holds when it reaches the trailer.
  function Decoded(before: nat, plain: seq<byte>, h: Header, p: Option<PartHeader>): Decoder {
    Decoder(false, plain, Fold(EMPTY_REGISTER, plain), Some(h), p, None, before)
  }

  lemma BodyDecodes(d: Decoder, plain: seq<byte>, enc: seq<byte>)
    requires Encodes(plain, enc) && !d.critical && d.out == []
    ensures DecodeLine(d, enc) == d.(out := plain, crc := Fold(d.crc, plain))
  {
    DecodeInvertsEncode(plain, enc);
    assert [] + plain == plain;
  }

  lemma TrailerLine(d: Decoder, l: Line, t: Trailer)
    requires ReadyForData(d) && TrailerIs(l, t)
    ensures TakeLine(d, Render(l)) == (d.(trailer := Some(t)), VerifyCRC32s(t, Sum32(d.crc)))
  {
    RenderedLine(l);
  }

  lemma RenderConcat(a: seq<Line>, b: seq<Line>)
    ensures RenderAll(a + b) == RenderAll(a) + RenderAll(b)
  {
  }

  lemma BodyRendered(a: Article)
    ensures RenderAll(Body(a)) == RenderAll(a.preamble) + (RenderAll(Front(a)) + RenderAll(a.data))
  {
    RenderConcat(a.preamble, Front(a) + a.data);
    RenderConcat(Front(a), a.data);
  }

  lemma FeedBody<S, E>(take: Step<S, E>, s: S, a: Article, s1: S, s2: S, s3: S)
    requires AllMore(take, s, RenderAll(a.preamble)) && Feed(take, s, RenderAll(a.preamble)).0 == s1
    requires AllMore(take, s1, RenderAll(Front(a))) && Feed(take, s1, RenderAll(Front(a))).0 == s2
    requires AllMore(take, s2, RenderAll(a.data)) && Feed(take, s2, RenderAll(a.data)).0 == s3
    ensures AllMore(take, s, RenderAll(Body(a))) && Feed(take, s, RenderAll(Body(a))).0 == s3
  {
    BodyRendered(a);
    FeedParts(take, s, RenderAll(a.preamble), s1, RenderAll(Front(a)), s2, RenderAll(a.data), s3);
  }

  lemma FeedArticle(a: Article, plain: seq<byte>, enc: seq<byte>, h: Header, p: Option<PartHeader>)
    requires CarriesBody(a, plain, enc, h, p)
    ensures var d := Decoded(Length(a.preamble), plain, h, p);
            && ReadyForData(d) && AllMore(TakeLine, START, RenderAll(Body(a)))
            && Feed(TakeLine, START, RenderAll(Body(a))).0 == d
  {
    var before := Length(a.preamble);
    var d0 := START.(before := before);
    var d1 := d0.(header := Some(h), partHeader := p);
    PreambleLines(START, a.preamble);
    assert Feed(TakeLine, START, RenderAll(a.preamble)).0 == d0;
    FrontLines(d0, a, h, p);
    EncodingIsWellEscaped(plain, enc);
    DataLines(d1, a.data, enc, false);
    BodyDecodes(d1, plain, enc);
    assert DecodeLine(d1, enc) == Decoded(before, plain, h, p);
    FeedBody(TakeLine, START, a, d0, d1, Decoded(before, plain, h, p));
  }

  ghost predicate NoTerminators(enc: seq<byte>) {
    '\n' !in enc && '\r' !in enc
  }

  lemma {:induction false} TextsAreUnbroken(ls: seq<Line>)
    requires NoTerminators(Flatten(Texts(ls)))
    ensures forall l :: l in ls ==> Unbroken(l.text)
    decreases |ls|
  {
    if ls != [] {
      assert Texts(ls)[0] == ls[0].text && Texts(ls)[1..] == Texts(ls[1..]);
      var rest := Flatten(Texts(ls[1..]));
      assert Flatten(Texts(ls)) == ls[0].text + rest;
      assert NoTerminators(ls[0].text) && NoTerminators(rest);
      TextsAreUnbroken(ls[1..]);
      assert forall l :: l in ls ==> l == ls[0] || l in ls[1..];
    }
  }

  lemma RenderedLines(ls: seq<Line>)
    requires forall l :: l in ls ==> Unbroken(l.text)
    ensures forall r :: r in RenderAll(ls) ==> IsLine(r)
  {
    forall i | 0 <= i < |ls| ensures IsLine(RenderAll(ls)[i]) {
      RenderedLine(ls[i]);
    }
  }

  lemma ArticleLines(a: Article, plain: seq<byte>, enc: seq<byte>, h: Header, p: Option<PartHeader>)
    requires CarriesBody(a, plain, enc, h, p)
    ensures forall r :: r in RenderAll(Body(a)) ==> IsLine(r)
  {
    EncodingIsWellEscaped(plain, enc);
    TextsAreUnbroken(a.data);
    forall l | l in Body(a) ensures Unbroken(l.text) {
      if l in a.preamble {
      } else if l in Front(a) {
      } else {
        assert l in a.data;
      }
    }
    RenderedLines(Body(a));
  }

  // One Write of the whole article and anything behind it, which stays unread.
  lemma WholeArticle(a: Article, plain: seq<byte>, enc: seq<byte>, h: Header, p: Option<PartHeader>, t: Trailer,
                     tail: seq<byte>)
    requires Carries(a, plain, enc, h, p, t)
    ensures var d := Decoded(Length(a.preamble), plain, h, p);
            var v := VerifyCRC32s(t, Crc32(plain));
            Write(TakeLine, Reader(START, []), BytesOf(a) + tail)
              == (Reader(d.(trailer := Some(t)), tail), if v.Finished? then None else Some(v.err))
  {
    var d := Decoded(Length(a.preamble), plain, h, p);
    FeedArticle(a, plain, enc, h, p);
    TrailerLine(d, a.trailer, t);
    ArticleLines(a, plain, enc, h, p);
    RenderedLine(a.trailer);
    WriteToEnd(TakeLine, START, RenderAll(Body(a)), d, Render(a.trailer), d.(trailer := Some(t)),
               VerifyCRC32s(t, Sum32(d.crc)), tail);
  }

  // What is to be said about a trailer behind these bytes: the part's checksum
  // counts if there is one, the file's only otherwise, and a trailer with neither
  // is accepted.
  ghost function ChecksumError(t: Trailer, plain: seq<byte>): Option<DecodeError> {
    var crc := Crc32(plain);
    if t.partCRC32 != "" then (if ChecksumText(crc, t.partCRC32) then None else Some(BadPartChecksum))
    else if t.crc32 != "" && !ChecksumText(crc, t.crc32) then Some(BadChecksum)
    else None
  }

  lemma CheckedAgainst(t: Trailer, plain: seq<byte>)
    ensures VerifyCRC32s(t, Crc32(plain))
         == if ChecksumError(t, plain).Some? then Broken(ChecksumError(t, plain).value) else Finished
  {
    AcceptedChecksums(Crc32(plain), t.partCRC32);
    AcceptedChecksums(Crc32(plain), t.crc32);
  }

  // Whatever the lines, the cuts and the chunks, decoding an article that
  // carries `plain` writes exactly `plain`, parses its lines, and accepts it or
  // reports the checksum as it should.
  lemma RoundTrip(a: Article, plain: seq<byte>, enc: seq<byte>, h: Header, p: Option<PartHeader>, t: Trailer,
                  chunks: seq<seq<byte>>)
    requires Carries(a, plain, enc, h, p, t) && Flatten(chunks) == BytesOf(a)
    ensures var (r, e) := WriteChunks(chunks);
            && r.s.out == plain
            && r.s.header == Some(h) && r.s.partHeader == p && r.s.trailer == Some(t)
            && (e.None? <==> ChecksumOK(t, Crc32(plain))) && e == ChecksumError(t, plain)
  {
    CheckedAgainst(t, plain);
    WholeArticle(a, plain, enc, h, p, t, []);
    assert BytesOf(a) + [] == BytesOf(a);
    ChunksAgree(TakeLine, Reader(START, []), chunks);
  }

  // An article with something behind it is decoded alike however it is cut into
  // Writes if and only if its checksum is wrong, which stops the decoder for
  // good, or what is behind it holds no complete line.
  lemma ChunksOfArticleAgree(a: Article, plain: seq<byte>, enc: seq<byte>, h: Header, p: Option<PartHeader>, t: Trailer,
                             tail: seq<byte>)
    requires Carries(a, plain, enc, h, p, t)
    ensures (forall chunks :: Flatten(chunks) == BytesOf(a) + tail ==>
               SameResult(WriteChunks(chunks), WriteChunks([BytesOf(a) + tail])))
            <==> !ChecksumOK(t, Crc32(plain)) || '\n' !in tail
  {
    WholeArticle(a, plain, enc, h, p, t, tail);
    WritesAgree(BytesOf(a) + tail);
  }

  // ---- The header limit ----

  ghost predicate Refuses(take: Step<Decoder, DecodeError>) {
    forall d: Decoder, line {:trigger take(d, line)} :: d.header.None? && d.before >= MAX_HEADER_BUFFER ==>
      take(d, line) == (d, Broken(NoHeader))
  }

  lemma {:induction false} RefusedLines(take: Step<Decoder, DecodeError>, d: Decoder, ls: seq<Line>,
                                        more: seq<seq<byte>>)
    requires Skips(take, ls) && Refuses(take)
    requires d.header.None? && d.before + Length(ls) >= MAX_HEADER_BUFFER && more != []
    ensures var (d', rest, e) := Feed(take, d, RenderAll(ls) + more);
            e == Some(NoHeader) && d'.header.None? && d'.out == d.out
    decreases |ls|
  {
    if ls == [] {
      assert RenderAll(ls) + more == more;
    } else {
      RenderFirst(ls);
      var lines := RenderAll(ls) + more;
      assert lines[0] == Render(ls[0]) && lines[1..] == RenderAll(ls[1..]) + more;
      if d.before < MAX_HEADER_BUFFER {
        SkipsFirst(take, d, ls);
        RefusedLines(take, d.(before := d.before + |Render(ls[0])|), ls[1..], more);
      }
    }
  }

  lemma PreambleOverLimit(d: Decoder, ls: seq<Line>, more: seq<seq<byte>>)
    requires d.header.None? && Preamble(ls) && d.before + Length(ls) >= MAX_HEADER_BUFFER && more != []
    ensures var (d', rest, e) := Feed(TakeLine, d, RenderAll(ls) + more);
            e == Some(NoHeader) && d'.header.None? && d'.out == d.out
  {
    PreambleSkips(ls);
    assert Refuses(TakeLine);
    RefusedLines(TakeLine, d, ls, more);
  }

  lemma HeaderTaken(ls: seq<Line>, header: Line, h: Header)
    requires Preamble(ls) && Length(ls) < MAX_HEADER_BUFFER && HeaderIs(header, h)
    ensures var lines, d := RenderAll(ls) + [Render(header)], START.(before := Length(ls), header := Some(h));
            AllMore(TakeLine, START, lines) && Feed(TakeLine, START, lines).0 == d
  {
    var d := START.(before := Length(ls));
    PreambleLines(START, ls);
    assert Feed(TakeLine, START, RenderAll(ls)).0 == d;
    HeaderLine(d, header, h);
    LastMore(TakeLine, START, RenderAll(ls), d, Render(header), d.(header := Some(h)));
  }

  lemma HeaderLinesAre(ls: seq<Line>, header: Line)
    requires Preamble(ls) && Unbroken(header.text)
    ensures forall l :: l in RenderAll(ls) + [Render(header)] ==> IsLine(l)
  {
    RenderedLines(ls);
    RenderedLine(header);
  }

  lemma FlattenOne(lines: seq<seq<byte>>, last: seq<byte>)
    ensures Flatten(lines + [last]) == Flatten(lines) + last
  {
    assert [last][1..] == [];
    FlattenConcat(lines, [last]);
  }

  lemma HeaderHonoured(ls: seq<Line>, header: Line, h: Header, chunks: seq<seq<byte>>)
    requires Preamble(ls) && HeaderIs(header, h) && Flatten(chunks) == Flatten(RenderAll(ls)) + Render(header)
    requires Length(ls) < 1024
    ensures var (r, e) := WriteChunks(chunks); r.s.out == [] && r.s.header == Some(h) && e.None?
  {
    HeaderTaken(ls, header, h);
    HeaderLinesAre(ls, header);
    FlattenOne(RenderAll(ls), Render(header));
    WritesOfMore(TakeLine, START, RenderAll(ls) + [Render(header)],
                 START.(before := Length(ls), header := Some(h)), chunks);
  }

  lemma HeaderTooLate(ls: seq<Line>, header: Line, chunks: seq<seq<byte>>)
    requires Preamble(ls) && Unbroken(header.text) && Flatten(chunks) == Flatten(RenderAll(ls)) + Render(header)
    requires Length(ls) >= 1024
    ensures var (r, e) := WriteChunks(chunks); r.s.out == [] && r.s.header.None? && e == Some(NoHeader)
  {
    PreambleOverLimit(START, ls, [Render(header)]);
    HeaderLinesAre(ls, header);
    FlattenOne(RenderAll(ls), Render(header));
    WritesOfLines(TakeLine, START, RenderAll(ls) + [Render(header)], chunks);
  }

  // A header line is honoured if and only if the lines before it come to less
  // than 1024 bytes, and nothing is output before it, however it all arrives.
  lemma HeaderLimit(ls: seq<Line>, header: Line, h: Header, chunks: seq<seq<byte>>)
    requires Preamble(ls) && HeaderIs(header, h) && Flatten(chunks) == Flatten(RenderAll(ls)) + Render(header)
    ensures var (r, e) := WriteChunks(chunks);
            && r.s.out == []
            && (Length(ls) < 1024 ==> r.s.header == Some(h) && e.None?)
            && (Length(ls) >= 1024 ==> r.s.header.None? && e == Some(NoHeader))
  {
    if Length(ls) < 1024 {
      HeaderHonoured(ls, header, h, chunks);
    } else {
      HeaderTooLate(ls, header, chunks);
    }
  }

  // ---- Sizes ----

  // The sizes in header and trailer play no part: what is accepted has either of
  // them if and only if what was encoded has.
  lemma SizesAreNotCompared(a: Article, plain: seq<byte>, enc: seq<byte>, h: Header, p: Option<PartHeader>, t: Trailer,
                            chunks: seq<seq<byte>>)
    requires Carries(a, plain, enc, h, p, t) && Flatten(chunks) == BytesOf(a) && ChecksumOK(t, Crc32(plain))
    ensures var (r, e) := WriteChunks(chunks);
            && e.None? && r.s.header == Some(h) && r.s.trailer == Some(t)
            && (|r.s.out| == h.size <==> |plain| == h.size)
            && (|r.s.out| == t.size <==> |plain| == t.size)
  {
    RoundTrip(a, plain, enc, h, p, t, chunks);
  }

  // ---- Lines that end the decoding ----

  lemma BadHeaderLine(d: Decoder, l: Line)
    requires d.header.None? && d.before < MAX_HEADER_BUFFER
    requires Unbroken(l.text) && "=ybegin " <= l.text && ParseHeader(l.text).None?
    ensures TakeLine(d, Render(l)) == (d, Broken(MalformedHeader))
  {
    PrefixOfBegin(l);
    RenderedLine(l);
  }

  // A header line that cannot be read ends the decoding with nothing output.
  lemma BadHeader(ls: seq<Line>, header: Line, chunks: seq<seq<byte>>)
    requires Preamble(ls) && Length(ls) < MAX_HEADER_BUFFER
    requires Unbroken(header.text) && "=ybegin " <= header.text && ParseHeader(header.text).None?
    requires Flatten(chunks) == Flatten(RenderAll(ls)) + Render(header)
    ensures var (r, e) := WriteChunks(chunks); e == Some(MalformedHeader) && r.s.out == [] && r.s.header.None?
  {
    var d := START.(before := Length(ls));
    PreambleLines(START, ls);
    assert Feed(TakeLine, START, RenderAll(ls)).0 == d;
    HeaderLinesAre(ls, header);
    BadHeaderLine(d, header);
    WritesBroken(TakeLine, START, RenderAll(ls), d, Render(header), d, MalformedHeader, chunks);
  }

  lemma BadPartHeaderLine(d: Decoder, l: Line)
    requires d.header.Some? && d.header.value.multipart && d.partHeader.None?
    requires Unbroken(l.text) && ("=ypart " <= l.text ==> ParsePartHeader(l.text).None?)
    ensures TakeLine(d, Render(l))
         == (d, Broken(if "=ypart " <= l.text then MalformedPartHeader else NoPartHeader))
  {
    PartHeaderNext(d, Render(l));
    PrefixOfPart(l);
    RenderedLine(l);
  }

  // So does any other line than a readable part header right behind a multi-part
  // header.
  lemma BadPartHeader(ls: seq<Line>, header: Line, h: Header, next: Line, chunks: seq<seq<byte>>)
    requires Preamble(ls) && Length(ls) < MAX_HEADER_BUFFER && HeaderIs(header, h) && h.multipart
    requires Unbroken(next.text) && ("=ypart " <= next.text ==> ParsePartHeader(next.text).None?)
    requires Flatten(chunks) == Flatten(RenderAll(ls) + [Render(header)]) + Render(next)
    ensures var (r, e) := WriteChunks(chunks);
            && r.s.out == [] && r.s.header == Some(h) && r.s.partHeader.None?
            && e == Some(if "=ypart " <= next.text then MalformedPartHeader else NoPartHeader)
  {
    var d := START.(before := Length(ls), header := Some(h));
    HeaderTaken(ls, header, h);
    HeaderLinesAre(ls, header);
    RenderedLine(next);
    BadPartHeaderLine(d, next);
    WritesBroken(TakeLine, START, RenderAll(ls) + [Render(header)], d, Render(next), d,
                 if "=ypart " <= next.text then MalformedPartHeader else NoPartHeader, chunks);
  }

  // A trailer that cannot be read is an error behind all of the data.
  lemma BadTrailer(a: Article, plain: seq<byte>, enc: seq<byte>, h: Header, p: Option<PartHeader>,
                   chunks: seq<seq<byte>>)
    requires CarriesBody(a, plain, enc, h, p) && Flatten(chunks) == BytesOf(a)
    requires Unbroken(a.trailer.text) && "=yend " <= a.trailer.text && ParseTrailer(a.trailer.text).None?
    ensures var (r, e) := WriteChunks(chunks);
            e == Some(MalformedTrailer) && r.s.out == plain && r.s.header == Some(h) && r.s.partHeader == p
  {
    var d := Decoded(Length(a.preamble), plain, h, p);
    FeedArticle(a, plain, enc, h, p);
    ArticleLines(a, plain, enc, h, p);
    RenderedLine(a.trailer);
    WritesBroken(TakeLine, START, RenderAll(Body(a)), d, Render(a.trailer), d, MalformedTrailer, chunks);
  }

  // An article that breaks off before its trailer is accepted: all of its data is
  // output, and there is no error.
  lemma MissingTrailer(a: Article, plain: seq<byte>, enc: seq<byte>, h: Header, p: Option<PartHeader>,
                       chunks: seq<seq<byte>>)
    requires CarriesBody(a, plain, enc, h, p) && Flatten(chunks) == Flatten(RenderAll(Body(a)))
    ensures var (r, e) := WriteChunks(chunks);
            e.None? && r.s.out == plain && r.s.header == Some(h) && r.s.partHeader == p && r.s.trailer.None?
  {
    FeedArticle(a, plain, enc, h, p);
    ArticleLines(a, plain, enc, h, p);
    WritesOfMore(TakeLine, START, RenderAll(Body(a)), Decoded(Length(a.preamble), plain, h, p), chunks);
  }
}
