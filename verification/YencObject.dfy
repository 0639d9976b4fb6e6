// The decoder as the object it is: tables in arrays, a buffer that grows and
// shrinks, lines compacted in place. Each method does what the functions say.
module YencObject {
  import opened Basics
  import opened YencCodec
  import opened YencText
  import opened YencCrc
  import opened LineStream
  import YencDecoder

  // Elements are read into the map one by one; the first without '=' ends the
  // reading and is reported.
  method HeaderBytesToMap(h: seq<byte>) returns (m: map<string, string>, malformed: bool)
    ensures m == HeaderMap(h)
    ensures malformed <==> ' ' !in h || exists e :: e in Split(h, ' ') && '=' !in e
  {
    m := map[];
    if ' ' !in h {
      return m, true;
    }
    var elements := Split(h, ' ');
    var i := 0;
    while i < |elements|
      invariant i <= |elements|
      invariant Fill(elements[i..], m) == HeaderMap(h)
      invariant forall e :: e in elements[..i] ==> '=' in e
    {
      var e := elements[i];
      var k := IndexOf(e, '=');
      assert elements[i..][0] == e && elements[i..][1..] == elements[i + 1..];
      if k == |e| {
        return m, true;
      }
      m := m[e[..k] := e[k + 1..]];
      i := i + 1;
      assert elements[..i] == elements[..i - 1] + [e];
    }
    assert elements[..i] == elements;
    malformed := false;
  }

  method ParseHeaderLine(b: seq<byte>) returns (header: Option<Header>)
    ensures header == ParseHeader(b)
  {
    var m, _ := HeaderBytesToMap(b);
    var line, size := Number(m, "line"), Number(m, "size");
    if line.None? { return None; }
    if size.None? { return None; }
    var h := Header(false, 0, 0, line.value, size.value, Get(m, "name"));
    if Get(m, "part") == "" { return Some(h); }
    var part := Number(m, "part");
    if part.None? { return None; }
    h := h.(part := part.value, multipart := true);
    if Get(m, "total") == "" { return Some(h); }
    var total := Number(m, "total");
    if total.None? { return None; }
    return Some(h.(total := total.value));
  }

  method ParsePartHeaderLine(b: seq<byte>) returns (header: Option<PartHeader>)
    ensures header == ParsePartHeader(b)
  {
    var m, _ := HeaderBytesToMap(b);
    var begin := Number(m, "begin");
    if begin.None? { return None; }
    var end := Number(m, "end");
    if end.None? { return None; }
    return Some(PartHeader(begin.value, end.value));
  }

  method ParseTrailerLine(b: seq<byte>) returns (trailer: Option<Trailer>)
    ensures trailer == ParseTrailer(b)
  {
    var m, _ := HeaderBytesToMap(b);
    var size := Number(m, "size");
    if size.None? { return None; }
    return Some(Trailer(size.value, Get(m, "crc32"), Get(m, "pcrc32")));
  }

  class Decoder {
    const decodeMap: array<byte>
    const criticalDecodeMap: array<byte>
    var b: seq<byte>
    var nextByteIsCritical: bool
    var out: seq<byte>
    var crc: uint32
    var header: Option<Header>
    var partHeader: Option<PartHeader>
    var trailer: Option<Trailer>
    var bytesBeforeHeader: nat

    ghost predicate Valid()
      reads decodeMap, criticalDecodeMap
    {
      && decodeMap != criticalDecodeMap
      && decodeMap.Length == 256 && criticalDecodeMap.Length == 256
      && (forall i: byte :: decodeMap[i as int] == DecodeMap(i))
      && (forall i: byte :: criticalDecodeMap[i as int] == CriticalDecodeMap(i))
    }

    ghost function State(): YencDecoder.Decoder
      reads this
    {
      YencDecoder.Decoder(nextByteIsCritical, out, crc, header, partHeader, trailer, bytesBeforeHeader)
    }

    constructor ()
      ensures Valid() && fresh(decodeMap) && fresh(criticalDecodeMap)
      ensures State() == YencDecoder.START && b == []
    {
      decodeMap := new byte[256];
      criticalDecodeMap := new byte[256];
      b, out, crc := [], [], EMPTY_REGISTER;
      nextByteIsCritical, bytesBeforeHeader := false, 0;
      header, partHeader, trailer := None, None, None;
      new;
      for i := 0 to 256
        invariant State() == YencDecoder.START && b == []
        invariant forall k: byte :: (k as int) < i ==> decodeMap[k as int] == DecodeMap(k)
      {
        decodeMap[i] := ((i - 42) % 256) as char;
      }
      for i := 0 to 256
        invariant State() == YencDecoder.START && b == []
        invariant forall k: byte :: decodeMap[k as int] == DecodeMap(k)
        invariant forall k: byte :: (k as int) < i ==> criticalDecodeMap[k as int] == CriticalDecodeMap(k)
      {
        var k: byte := i as char;
        assert decodeMap[k as int] == DecodeMap(k);
        criticalDecodeMap[i] := ((decodeMap[i] as int - 64) % 256) as char;
      }
    }

    // Compacts the first n bytes of the line in place to p bytes; the write index
    // never passes the read index, so every byte is read before it is overwritten.
    method Compact(line: array<byte>, n: nat) returns (p: nat)
      requires Valid() && n <= line.Length && line != decodeMap && line != criticalDecodeMap
      modifies this`nextByteIsCritical, line
      ensures p <= n
      ensures (line[..p], nextByteIsCritical) == Decode(old(line[..n]), old(nextByteIsCritical))
    {
      p := 0;
      ghost var was := line[..n];
      for i := 0 to n
        invariant p <= i
        invariant forall k :: i <= k < n ==> line[k] == was[k]
        invariant Decode(was[..i], old(nextByteIsCritical)) == (line[..p], nextByteIsCritical)
      {
        var c := line[i];
        assert was[..i + 1] == was[..i] + [c];
        DecodeOneMore(was[..i], c, old(nextByteIsCritical));
        ghost var decoded := line[..p];
        if nextByteIsCritical {
          line[p] := criticalDecodeMap[c as int];
          nextByteIsCritical := false;
          p := p + 1;
          assert line[..p] == decoded + [CriticalDecodeMap(c)];
        } else if c == '=' {
          nextByteIsCritical := true;
        } else {
          line[p] := decodeMap[c as int];
          p := p + 1;
          assert line[..p] == decoded + [DecodeMap(c)];
        }
      }
      assert was[..n] == was;
    }

    method DecodeLine(line: array<byte>, n: nat)
      requires Valid() && n <= line.Length && line != decodeMap && line != criticalDecodeMap
      modifies this, line
      ensures b == old(b) && State() == YencDecoder.DecodeLine(old(State()), old(line[..n]))
    {
      var p := Compact(line, n);
      out := out + line[..p];
      crc := Fold(crc, line[..p]);
    }

    // The input not yet taken, the line just scanned included.
    ghost function Ahead(scanned: bool, line: array<byte>): seq<byte>
      reads this`b, line
    {
      if scanned then line[..] + b else b
    }

    // Takes the next complete line off the buffer, as a copy of its own.
    method Scan() returns (ok: bool, line: array<byte>)
      requires Valid()
      modifies this`b
      ensures ok <==> HasLine(old(b))
      ensures fresh(line) && |b| + line.Length == |old(b)|
      ensures ok ==> IsLine(line[..])
      ensures Ahead(ok, line) == old(b) && State() == old(State())
    {
      if '\n' !in b {
        ok, line := false, new byte[0];
        return;
      }
      var n := LineEnd(b);
      LineTaken(b);
      line := new byte[n](i requires 0 <= i < n <= |b| reads this => b[i]);
      b := b[n..];
      ok := true;
    }

    method VerifyCRC32s() returns (err: Option<YencDecoder.DecodeError>)
      requires trailer.Some?
      ensures match YencDecoder.VerifyCRC32s(trailer.value, Sum32(crc))
              case Broken(e) => err == Some(e)
              case _ => err == None
    {
      var t := trailer.value;
      if t.partCRC32 != "" {
        if t.partCRC32 !in ValidCRCString(Sum32(crc)) { return Some(YencDecoder.BadPartChecksum); }
      } else if t.crc32 != "" {
        if t.crc32 !in ValidCRCString(Sum32(crc)) { return Some(YencDecoder.BadChecksum); }
      }
      return None;
    }

    method TakeHeader(line: array<byte>) returns (v: Verdict<YencDecoder.DecodeError>)
      modifies this
      ensures b == old(b)
      ensures (State(), v) == YencDecoder.TakeHeader(old(State()), line[..])
    {
      if bytesBeforeHeader >= YencDecoder.MAX_HEADER_BUFFER { return Broken(YencDecoder.NoHeader); }
      if !("=ybegin " <= line[..]) {
        bytesBeforeHeader := bytesBeforeHeader + line.Length;
        return More;
      }
      header := ParseHeaderLine(YencDecoder.TrimRight(line[..]));
      return if header.None? then Broken(YencDecoder.MalformedHeader) else More;
    }

    method TakePartHeader(line: array<byte>) returns (v: Verdict<YencDecoder.DecodeError>)
      modifies this
      ensures b == old(b)
      ensures (State(), v) == YencDecoder.TakePartHeader(old(State()), line[..])
    {
      if !("=ypart " <= line[..]) { return Broken(YencDecoder.NoPartHeader); }
      partHeader := ParsePartHeaderLine(YencDecoder.TrimRight(line[..]));
      return if partHeader.None? then Broken(YencDecoder.MalformedPartHeader) else More;
    }

    method TakeData(line: array<byte>) returns (v: Verdict<YencDecoder.DecodeError>)
      requires Valid() && line != decodeMap && line != criticalDecodeMap
      modifies this, line
      ensures Valid() && b == old(b)
      ensures (State(), v) == YencDecoder.TakeData(old(State()), old(line[..]))
    {
      var text := YencDecoder.TrimRight(line[..]);
      if "=yend " <= text {
        trailer := ParseTrailerLine(text);
        if trailer.None? { return Broken(YencDecoder.MalformedTrailer); }
        var err := VerifyCRC32s();
        return if err.Some? then Broken(err.value) else Finished;
      }
      assert line[..|text|] == text;
      DecodeLine(line, |text|);
      return More;
    }

    // One turn of the yDecode loop.
    method TakeLine(line: array<byte>) returns (v: Verdict<YencDecoder.DecodeError>)
      requires Valid() && line != decodeMap && line != criticalDecodeMap
      modifies this, line
      ensures Valid() && b == old(b)
      ensures (State(), v) == YencDecoder.TakeLine(old(State()), old(line[..]))
    {
      if header.None? {
        v := TakeHeader(line);
      } else if header.value.multipart && partHeader.None? {
        v := TakePartHeader(line);
      } else {
        v := TakeData(line);
      }
    }

    // One turn, seen as progress through the unread input.
    method Turn(line: array<byte>) returns (v: Verdict<YencDecoder.DecodeError>)
      requires Valid() && line != decodeMap && line != criticalDecodeMap && IsLine(line[..])
      modifies this, line
      ensures Valid() && b == old(b)
      ensures old(Drain(YencDecoder.TakeLine, Reader(State(), line[..] + b)))
           == match v
              case More => Drain(YencDecoder.TakeLine, Reader(State(), b))
              case Finished => (Reader(State(), b), None)
              case Broken(e) => (Reader(State(), b), Some(e))
    {
      DrainLine(YencDecoder.TakeLine, State(), line[..], b);
      v := TakeLine(line);
    }

    method YDecode() returns (err: Option<YencDecoder.DecodeError>)
      requires Valid()
      modifies this
      ensures Valid()
      ensures (Reader(State(), b), err) == Drain(YencDecoder.TakeLine, old(Reader(State(), b)))
    {
      ghost var unread := Reader(State(), b);
      ghost var goal := Drain(YencDecoder.TakeLine, unread);
      var more, line := Scan();
      while more
        invariant Valid() && fresh(line)
        invariant if more then IsLine(line[..]) else !HasLine(b)
        invariant unread == Reader(State(), Ahead(more, line))
        invariant goal == Drain(YencDecoder.TakeLine, unread)
        decreases |b|, more
      {
        var v := Turn(line);
        match v {
          case Broken(e) => return Some(e);
          case Finished => return None;
          case More =>
        }
        unread := Reader(State(), b);
        more, line := Scan();
      }
      return None;
    }

    // How many bytes were taken, all or none, and the error.
    method Write(p: seq<byte>) returns (n: nat, err: Option<YencDecoder.DecodeError>)
      requires Valid()
      modifies this
      ensures Valid()
      ensures (Reader(State(), b), err) == LineStream.Write(YencDecoder.TakeLine, old(Reader(State(), b)), p)
      ensures n == if err.None? then |p| else 0
    {
      b := b + p;
      err := YDecode();
      n := if err.Some? then 0 else |p|;
    }
  }

  // io.Copy: writes chunk after chunk and stops at the first error.
  method Copy(d: Decoder, chunks: seq<seq<byte>>) returns (err: Option<YencDecoder.DecodeError>)
    requires d.Valid()
    modifies d
    ensures d.Valid()
    ensures (Reader(d.State(), d.b), err) == Run(YencDecoder.TakeLine, old(Reader(d.State(), d.b)), chunks)
  {
    ghost var start := Reader(d.State(), d.b);
    err := None;
    for i := 0 to |chunks|
      invariant d.Valid() && err == None
      invariant Run(YencDecoder.TakeLine, start, chunks)
             == Run(YencDecoder.TakeLine, Reader(d.State(), d.b), chunks[i..])
    {
      assert chunks[i..][0] == chunks[i] && chunks[i..][1..] == chunks[i + 1..];
      var n;
      n, err := d.Write(chunks[i]);
      if err.Some? { return; }
    }
  }
}
