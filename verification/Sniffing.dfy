// The writer that watches the first bytes of a file go by to tell its type.
module Sniffing {
  import opened YencCodec
  import opened LineStream
  import opened Assembly

  const REQUIRED_HEADER_BYTES: nat := 10

  datatype HeaderDef = HeaderDef(header: seq<byte>, filetype: FileType)

  const HEADER_TABLE: seq<HeaderDef> := [HeaderDef("PAR2", Par2), HeaderDef("Rar!", Rar)]

  function FirstMatch(table: seq<HeaderDef>, b: seq<byte>): FileType {
    if table == [] then Unknown
    else if table[0].header <= b then table[0].filetype
    else FirstMatch(table[1..], b)
  }

  function GetHeaderType(b: seq<byte>): FileType {
    FirstMatch(HEADER_TABLE, b)
  }

  // `told` is the calls of SetFileType so far.
  datatype State = State(b: seq<byte>, done: bool, out: seq<byte>, told: seq<FileType>)

  const START: State := State([], false, [], [])

  // What a sniffer has done once `input` has gone through it in any pieces.
  ghost predicate After(s: State, input: seq<byte>) {
    && s.out == input
    && s.done == (|input| >= 10)
    && (!s.done ==> s.b == input && s.told == [])
    && (s.done ==> s.told == [GetHeaderType(input[..10])])
  }

  class Sniffer {
    var b: seq<byte>
    var done: bool
    var out: seq<byte>
    var told: seq<FileType>

    function View(): State
      reads this
    {
      State(b, done, out, told)
    }

    constructor ()
      ensures View() == START
    {
      b, done, out, told := [], false, [], [];
    }

    method Sniff()
      requires |b| >= REQUIRED_HEADER_BYTES
      modifies this
      ensures done && out == old(out)
      ensures told == old(told) + [GetHeaderType(old(b)[..REQUIRED_HEADER_BYTES])]
      ensures b == old(b)[REQUIRED_HEADER_BYTES..]
    {
      var head := b[..REQUIRED_HEADER_BYTES];
      b := b[REQUIRED_HEADER_BYTES..];
      told := told + [GetHeaderType(head)];
      done := true;
    }

    // Whatever went before, one more piece goes through unchanged, and the type is
    // told once, from the first ten bytes.
    method Write(p: seq<byte>, ghost before: seq<byte>)
      requires After(View(), before)
      modifies this
      ensures After(View(), before + p)
    {
      if done {
        out := out + p;
        assert (before + p)[..REQUIRED_HEADER_BYTES] == before[..REQUIRED_HEADER_BYTES];
        return;
      }
      b := b + p;
      if |b| >= REQUIRED_HEADER_BYTES {
        Sniff();
      }
      out := out + p;
    }
  }

  // Any sequence of Writes.
  method WriteAll(s: Sniffer, chunks: seq<seq<byte>>)
    requires s.View() == START
    modifies s
    ensures After(s.View(), Flatten(chunks))
  {
    ghost var gone: seq<byte> := [];
    for i := 0 to |chunks|
      invariant After(s.View(), gone)
      invariant Flatten(chunks) == gone + Flatten(chunks[i..])
    {
      assert chunks[i..][0] == chunks[i] && chunks[i..][1..] == chunks[i + 1..];
      s.Write(chunks[i], gone);
      gone := gone + chunks[i];
      assert Flatten(chunks) == gone + Flatten(chunks[i + 1..]);
    }
    assert chunks[|chunks|..] == [];
    assert gone + [] == gone;
  }

  // The table has no header that is the beginning of another, so the type is
  // Par2 or Rar exactly for its own mark.
  lemma HeaderTypes(b: seq<byte>)
    ensures GetHeaderType(b) == Par2 <==> "PAR2" <= b
    ensures GetHeaderType(b) == Rar <==> "Rar!" <= b
    ensures GetHeaderType(b) in {Par2, Rar, Unknown}
  {
    var rest := HEADER_TABLE[1..];
    assert rest == [HeaderDef("Rar!", Rar)];
    assert |rest[1..]| == 0;
    assert FirstMatch(rest, b) == if "Rar!" <= b then Rar else Unknown;
    if "PAR2" <= b && |b| >= 1 { assert b[0] == 'P'; }
    if "Rar!" <= b { assert b[0] == 'R'; }
  }
}
