// What the decoder does with one line, as a function of its state, and what it
// makes of a whole stream of lines.
module YencDecoder {
  import opened Basics
  import opened YencCodec
  import opened YencText
  import opened YencCrc
  import opened LineStream

  const MAX_HEADER_BUFFER: nat := 1024

  datatype DecodeError =
    | NoHeader
    | MalformedHeader
    | NoPartHeader
    | MalformedPartHeader
    | MalformedTrailer
    | BadPartChecksum
    | BadChecksum

  // Everything but the buffer of unread input. `out` is what has been written to
  // the wrapped writer.
  datatype Decoder = Decoder(
    critical: bool,
    out: seq<byte>,
    crc: uint32,
    header: Option<Header>,
    partHeader: Option<PartHeader>,
    trailer: Option<Trailer>,
    before: nat)

  const START: Decoder := Decoder(false, [], EMPTY_REGISTER, None, None, None, 0)

  function TrimRight(line: seq<byte>): (t: seq<byte>)
    ensures |t| <= |line| && t == line[..|t|]
  {
    if line != [] && (line[|line| - 1] == '\r' || line[|line| - 1] == '\n') then TrimRight(line[..|line| - 1]) else line
  }

  // What is cut off is line terminators, and as many of them as there are.
  lemma {:induction false} TrimRightCuts(line: seq<byte>)
    ensures var t := TrimRight(line);
            && (forall k :: |t| <= k < |line| ==> line[k] == '\r' || line[k] == '\n')
            && (t != [] ==> t[|t| - 1] != '\r' && t[|t| - 1] != '\n')
  {
    if line != [] { TrimRightCuts(line[..|line| - 1]); }
  }

  predicate ChecksumOK(t: Trailer, crc: nat) {
    if t.partCRC32 != "" then t.partCRC32 in ValidCRCString(crc)
    else t.crc32 != "" ==> t.crc32 in ValidCRCString(crc)
  }

  function VerifyCRC32s(t: Trailer, crc: nat): Verdict<DecodeError> {
    if ChecksumOK(t, crc) then Finished
    else if t.partCRC32 != "" then Broken(BadPartChecksum)
    else Broken(BadChecksum)
  }

  function DecodeLine(d: Decoder, line: seq<byte>): Decoder {
    var (plain, critical) := Decode(line, d.critical);
    d.(critical := critical, out := d.out + plain, crc := Fold(d.crc, plain))
  }

  function TakeHeader(d: Decoder, line: seq<byte>): (Decoder, Verdict<DecodeError>) {
    if d.before >= MAX_HEADER_BUFFER then (d, Broken(NoHeader))
    else if !("=ybegin " <= line) then (d.(before := d.before + |line|), More)
    else
      var h := ParseHeader(TrimRight(line));
      (d.(header := h), if h.None? then Broken(MalformedHeader) else More)
  }

  function TakePartHeader(d: Decoder, line: seq<byte>): (Decoder, Verdict<DecodeError>) {
    if !("=ypart " <= line) then (d, Broken(NoPartHeader))
    else
      var h := ParsePartHeader(TrimRight(line));
      (d.(partHeader := h), if h.None? then Broken(MalformedPartHeader) else More)
  }

  function TakeData(d: Decoder, line: seq<byte>): (Decoder, Verdict<DecodeError>) {
    var text := TrimRight(line);
    if "=yend " <= text then
      var t := ParseTrailer(text);
      (d.(trailer := t), if t.None? then Broken(MalformedTrailer) else VerifyCRC32s(t.value, Sum32(d.crc)))
    else (DecodeLine(d, text), More)
  }

  // One turn of the yDecode loop. The line still carries its terminator.
  function TakeLine(d: Decoder, line: seq<byte>): (Decoder, Verdict<DecodeError>) {
    if d.header.None? then TakeHeader(d, line)
    else if d.header.value.multipart && d.partHeader.None? then TakePartHeader(d, line)
    else TakeData(d, line)
  }

  function WriteChunks(chunks: seq<seq<byte>>): (Reader<Decoder>, Option<DecodeError>) {
    Run(TakeLine, Reader(START, []), chunks)
  }

  // ---- The register follows the output ----

  ghost predicate CrcFollows(d: Decoder) {
    d.crc == Fold(EMPTY_REGISTER, d.out)
  }

  lemma DecodeLineKeepsCrc(d: Decoder, line: seq<byte>)
    requires CrcFollows(d)
    ensures CrcFollows(DecodeLine(d, line))
  {
    var plain := Decode(line, d.critical).0;
    FoldConcat(EMPTY_REGISTER, d.out, plain);
  }

  ghost predicate SameOutput(d: Decoder, d': Decoder) {
    d'.out == d.out && d'.crc == d.crc
  }

  lemma HeaderIsNotOutput(d: Decoder, line: seq<byte>)
    ensures SameOutput(d, TakeHeader(d, line).0) && SameOutput(d, TakePartHeader(d, line).0)
  {
  }

  lemma OnlyDataIsOutput(d: Decoder, line: seq<byte>)
    ensures var d' := TakeLine(d, line).0;
            d' == DecodeLine(d, TrimRight(line)) || SameOutput(d, d')
  {
    HeaderIsNotOutput(d, line);
  }

  lemma TakeLineKeepsCrc(d: Decoder, line: seq<byte>)
    requires CrcFollows(d)
    ensures CrcFollows(TakeLine(d, line).0)
  {
    OnlyDataIsOutput(d, line);
    DecodeLineKeepsCrc(d, TrimRight(line));
  }

  // After any Writes the register is the CRC-32 of exactly the bytes output.
  lemma RegisterIsChecksum(chunks: seq<seq<byte>>)
    ensures Sum32(WriteChunks(chunks).0.s.crc) == Crc32(WriteChunks(chunks).0.s.out)
  {
    forall d, line | CrcFollows(d) ensures CrcFollows(TakeLine(d, line).0) {
      TakeLineKeepsCrc(d, line);
    }
    RunKeeps(TakeLine, d => CrcFollows(d), Reader(START, []), chunks);
  }

  // However the input is cut into Writes, the output bytes, the register, the
  // parsed lines and the verdict are those of one Write, if and only if one
  // Write leaves no complete line behind the trailer.
  lemma WritesAgree(input: seq<byte>)
    ensures NothingBehindEnd(TakeLine, Reader(START, []), input) <==>
              forall chunks :: Flatten(chunks) == input ==> SameResult(WriteChunks(chunks), WriteChunks([input]))
  {
    ChunkIndependence(TakeLine, START, input);
    forall chunks ensures WriteChunks(chunks) == Run(TakeLine, Reader(START, []), chunks) {}
    assert WriteChunks([input]) == Write(TakeLine, Reader(START, []), input) by {
      OneChunk(TakeLine, START, input);
    }
  }

  lemma OneChunk<S, E>(take: Step<S, E>, s: S, p: seq<byte>)
    ensures Flatten([p]) == p && Run(take, Reader(s, []), [p]) == Write(take, Reader(s, []), p)
  {
    var rest := [p][1..];
    assert |rest| == 0;
    assert Flatten([p]) == p + Flatten(rest) == p;
    var (r, e) := Write(take, Reader(s, []), p);
    assert Run(take, r, rest) == (r, None);
  }
}
