// The checksum of what has been output, down to its definition.
module YencChecksum {
  import opened YencCodec
  import opened YencCrc
  import opened YencDecoder
  import opened Division
  import opened CrcPolynomial

  // After any Writes the register stands for the complement of the remainder that
  // the generator leaves of the bytes output, whichever division it is read off.
  lemma RegisterIsRemainder(chunks: seq<seq<byte>>, q: seq<bool>, r: seq<bool>)
    requires Divides(Dividend(WriteChunks(chunks).0.s.out), Generator(), q, r)
    ensures Sum32(WriteChunks(chunks).0.s.crc) == NumberOf(Complement(r))
  {
    RegisterIsChecksum(chunks);
    Crc32IsRemainder(WriteChunks(chunks).0.s.out, q, r);
  }
}
