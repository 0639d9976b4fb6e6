// Reading a byte stream line by line through a buffer, for any way of taking a
// line. What the decoder does with its lines plays no part here.
module LineStream {
  import opened Basics
  import opened YencCodec
  import opened YencText

  datatype Verdict<+E> = More | Finished | Broken(err: E)

  datatype Reader<+S> = Reader(s: S, buf: seq<byte>)

  type Step<!S, !E> = (S, seq<byte>) -> (S, Verdict<E>)

  predicate HasLine(b: seq<byte>) {
    '\n' in b
  }

  function LineEnd(b: seq<byte>): (n: nat)
    requires HasLine(b)
    ensures 0 < n <= |b| && b[n - 1] == '\n' && '\n' !in b[..n - 1]
  {
    IndexOf(b, '\n') + 1
  }

  // Takes complete lines, terminator included, off the buffer until there is
  // none, one of them finishes the stream, or there is an error.
  function Drain<S, E>(take: Step<S, E>, r: Reader<S>): (Reader<S>, Option<E>)
    decreases |r.buf|
  {
    if !HasLine(r.buf) then (r, None)
    else
      var n := LineEnd(r.buf);
      var (s, v) := take(r.s, r.buf[..n]);
      match v
      case More => Drain(take, Reader(s, r.buf[n..]))
      case Finished => (Reader(s, r.buf[n..]), None)
      case Broken(e) => (Reader(s, r.buf[n..]), Some(e))
  }

  function Append<S>(r: Reader<S>, p: seq<byte>): Reader<S> {
    r.(buf := r.buf + p)
  }

  function Write<S, E>(take: Step<S, E>, r: Reader<S>, p: seq<byte>): (Reader<S>, Option<E>) {
    Drain(take, Append(r, p))
  }

  // Writes one chunk after another, stopping at the first error, as io.Copy does.
  function Run<S, E>(take: Step<S, E>, r: Reader<S>, chunks: seq<seq<byte>>): (Reader<S>, Option<E>)
    decreases |chunks|
  {
    if chunks == [] then (r, None)
    else
      var (r1, e) := Write(take, r, chunks[0]);
      if e.Some? then (r1, e) else Run(take, r1, chunks[1..])
  }

  function Flatten<T>(chunks: seq<seq<T>>): seq<T> {
    if chunks == [] then [] else chunks[0] + Flatten(chunks[1..])
  }

  // ---- A line at the front of the buffer ----

  lemma LineEndAppend(a: seq<byte>, b: seq<byte>)
    requires HasLine(a)
    ensures HasLine(a + b) && LineEnd(a + b) == LineEnd(a)
    ensures (a + b)[..LineEnd(a)] == a[..LineEnd(a)]
    ensures (a + b)[LineEnd(a)..] == a[LineEnd(a)..] + b
  {
    var n := LineEnd(a);
    assert (a + b)[..n - 1] == a[..n - 1];
    FirstIndex(a + b, '\n', n - 1);
  }

  ghost predicate IsLine(line: seq<byte>) {
    line != [] && line[|line| - 1] == '\n' && '\n' !in line[..|line| - 1]
  }

  lemma LineFirst(line: seq<byte>, rest: seq<byte>)
    requires IsLine(line)
    ensures HasLine(line + rest) && LineEnd(line + rest) == |line|
    ensures (line + rest)[..|line|] == line && (line + rest)[|line|..] == rest
  {
    FirstIndex(line, '\n', |line| - 1);
    LineEndAppend(line, rest);
    assert line[..|line|] == line && line[|line|..] + rest == rest;
  }

  lemma LineTaken(b: seq<byte>)
    requires HasLine(b)
    ensures IsLine(b[..LineEnd(b)]) && b == b[..LineEnd(b)] + b[LineEnd(b)..]
  {
    var n := LineEnd(b);
    assert b[..n][..n - 1] == b[..n - 1];
  }

  lemma DrainLine<S, E>(take: Step<S, E>, s: S, line: seq<byte>, rest: seq<byte>)
    requires IsLine(line)
    ensures var (s1, v) := take(s, line);
            Drain(take, Reader(s, line + rest))
              == match v
                 case More => Drain(take, Reader(s1, rest))
                 case Finished => (Reader(s1, rest), None)
                 case Broken(e) => (Reader(s1, rest), Some(e))
  {
    LineFirst(line, rest);
  }

  // ---- Invariants of the line step are invariants of the stream ----

  lemma {:induction false} DrainKeeps<S, E>(take: Step<S, E>, inv: S -> bool, r: Reader<S>)
    requires inv(r.s) && forall s, line :: inv(s) ==> inv(take(s, line).0)
    ensures inv(Drain(take, r).0.s)
    decreases |r.buf|
  {
    if HasLine(r.buf) {
      var n := LineEnd(r.buf);
      var (s, v) := take(r.s, r.buf[..n]);
      if v == More { DrainKeeps(take, inv, Reader(s, r.buf[n..])); }
    }
  }

  lemma {:induction false} RunKeeps<S, E>(take: Step<S, E>, inv: S -> bool, r: Reader<S>, chunks: seq<seq<byte>>)
    requires inv(r.s) && forall s, line :: inv(s) ==> inv(take(s, line).0)
    ensures inv(Run(take, r, chunks).0.s)
    decreases |chunks|
  {
    if chunks != [] {
      DrainKeeps(take, inv, Append(r, chunks[0]));
      var (r1, e) := Write(take, r, chunks[0]);
      if e.None? { RunKeeps(take, inv, r1, chunks[1..]); }
    }
  }

  // ---- Cutting the input differently ----

  // More input behind a buffer: an error or a stop with lines left is unaffected,
  // and otherwise the rest of the work is what is done after the input arrives,
  // unless the stream had finished.
  lemma {:induction false} DrainAppend<S, E>(take: Step<S, E>, r: Reader<S>, b: seq<byte>)
    ensures var (r1, e) := Drain(take, r);
            && (e.Some? || HasLine(r1.buf) ==> Drain(take, Append(r, b)) == (Append(r1, b), e))
            && (e.None? && !HasLine(r1.buf) ==>
                  || Drain(take, Append(r, b)) == Drain(take, Append(r1, b))
                  || Drain(take, Append(r, b)) == (Append(r1, b), None))
    decreases |r.buf|
  {
    if HasLine(r.buf) {
      LineEndAppend(r.buf, b);
      var n := LineEnd(r.buf);
      var (s, v) := take(r.s, r.buf[..n]);
      if v == More { DrainAppend(take, Reader(s, r.buf[n..]), b); }
    }
  }

  // One Write of everything leaves no complete line unread; it would only do so
  // behind a line that finished the stream.
  ghost predicate NothingBehindEnd<S, E>(take: Step<S, E>, r: Reader<S>, input: seq<byte>) {
    var (r1, e) := Write(take, r, input);
    e.None? ==> !HasLine(r1.buf)
  }

  // The same verdict and the same state, and after success the same unread input.
  ghost predicate SameResult<S, E>(x: (Reader<S>, Option<E>), y: (Reader<S>, Option<E>)) {
    x.1 == y.1 && x.0.s == y.0.s && (x.1.None? ==> x.0.buf == y.0.buf)
  }

  lemma {:induction false} ChunksAgree<S, E>(take: Step<S, E>, r: Reader<S>, chunks: seq<seq<byte>>)
    requires !HasLine(r.buf) && NothingBehindEnd(take, r, Flatten(chunks))
    ensures SameResult(Run(take, r, chunks), Write(take, r, Flatten(chunks)))
    decreases |chunks|
  {
    if chunks == [] {
      assert r.buf + [] == r.buf;
    } else {
      var rest := Flatten(chunks[1..]);
      var (r1, e) := Write(take, r, chunks[0]);
      assert r.buf + (chunks[0] + rest) == r.buf + chunks[0] + rest;
      assert Append(r, Flatten(chunks)) == Append(Append(r, chunks[0]), rest);
      DrainAppend(take, Append(r, chunks[0]), rest);
      if e.None? {
        assert !HasLine(r1.buf);
        assert Write(take, r, Flatten(chunks)) == Write(take, r1, rest);
        ChunksAgree(take, r1, chunks[1..]);
      }
    }
  }

  // What Drain consumed before it stopped early, it also consumes by itself.
  lemma {:induction false} DrainPrefix<S, E>(take: Step<S, E>, r: Reader<S>) returns (head: seq<byte>)
    requires Drain(take, r).1.None? && HasLine(Drain(take, r).0.buf)
    ensures r.buf == head + Drain(take, r).0.buf && head != []
    ensures Drain(take, Reader(r.s, head)) == (Reader(Drain(take, r).0.s, []), None)
    decreases |r.buf|
  {
    var t := Drain(take, r).0;
    var line, rest := r.buf[..LineEnd(r.buf)], r.buf[LineEnd(r.buf)..];
    LineTaken(r.buf);
    DrainLine(take, r.s, line, rest);
    var (s, v) := take(r.s, line);
    var more := [];
    if v == More {
      more := DrainPrefix(take, Reader(s, rest));
      Associates(line, more, t.buf);
    }
    head := line + more;
    DrainLine(take, r.s, line, more);
  }

  lemma {:induction false} DrainNotLonger<S, E>(take: Step<S, E>, r: Reader<S>)
    ensures |Drain(take, r).0.buf| <= |r.buf|
    ensures HasLine(r.buf) ==> |Drain(take, r).0.buf| < |r.buf|
    decreases |r.buf|
  {
    if HasLine(r.buf) {
      var n := LineEnd(r.buf);
      var (s, v) := take(r.s, r.buf[..n]);
      if v == More { DrainNotLonger(take, Reader(s, r.buf[n..])); }
    }
  }

  lemma TwoChunks<S, E>(take: Step<S, E>, s: S, a: seq<byte>, b: seq<byte>)
    ensures Flatten([a, b]) == a + b
    ensures var (r, e) := Write(take, Reader(s, []), a);
            Run(take, Reader(s, []), [a, b]) == if e.Some? then (r, e) else Write(take, r, b)
  {
    var tail := [b];
    assert [a, b][1..] == tail && |tail[1..]| == 0;
    assert Flatten(tail) == b + Flatten(tail[1..]) == b;
    var (r, e) := Write(take, Reader(s, []), a);
    if e.None? {
      var (r2, e2) := Write(take, r, b);
      assert Run(take, r2, tail[1..]) == (r2, None);
      assert Run(take, r, tail) == (r2, e2);
    }
  }

  // Cutting right behind the finishing line makes the next Write read on.
  lemma CutBehindEnd<S, E>(take: Step<S, E>, s: S, input: seq<byte>) returns (chunks: seq<seq<byte>>)
    requires !NothingBehindEnd(take, Reader(s, []), input)
    ensures Flatten(chunks) == input
    ensures !SameResult(Run(take, Reader(s, []), chunks), Write(take, Reader(s, []), input))
  {
    assert [] + input == input;
    var t := Drain(take, Reader(s, input)).0;
    var a := DrainPrefix(take, Reader(s, input));
    assert [] + a == a && [] + t.buf == t.buf;
    TwoChunks(take, s, a, t.buf);
    chunks := [a, t.buf];
    DrainNotLonger(take, t);
  }

  // Every way of cutting the input agrees with one Write if and only if one
  // Write leaves no complete line behind the end of the stream.
  lemma ChunkIndependence<S(!new), E(!new)>(take: Step<S, E>, s: S, input: seq<byte>)
    ensures NothingBehindEnd(take, Reader(s, []), input) <==>
              forall chunks :: Flatten(chunks) == input ==>
                SameResult(Run(take, Reader(s, []), chunks), Write(take, Reader(s, []), input))
  {
    if NothingBehindEnd(take, Reader(s, []), input) {
      forall chunks | Flatten(chunks) == input
        ensures SameResult(Run(take, Reader(s, []), chunks), Write(take, Reader(s, []), input))
      {
        ChunksAgree(take, Reader(s, []), chunks);
      }
    } else {
      var chunks := CutBehindEnd(take, s, input);
    }
  }

  // ---- Streams that come in whole lines ----

  // Takes a list of lines, stopping where Drain would; what is left of them.
  function Feed<S, E>(take: Step<S, E>, s: S, lines: seq<seq<byte>>): (S, seq<seq<byte>>, Option<E>)
    decreases |lines|
  {
    if lines == [] then (s, [], None)
    else
      var (s1, v) := take(s, lines[0]);
      match v
      case More => Feed(take, s1, lines[1..])
      case Finished => (s1, lines[1..], None)
      case Broken(e) => (s1, lines[1..], Some(e))
  }

  lemma {:induction false} DrainLines<S, E>(take: Step<S, E>, s: S, lines: seq<seq<byte>>)
    requires forall l :: l in lines ==> IsLine(l)
    ensures var (s1, rest, e) := Feed(take, s, lines);
            Drain(take, Reader(s, Flatten(lines))) == (Reader(s1, Flatten(rest)), e)
    decreases |lines|
  {
    if lines != [] {
      var line, rest := lines[0], Flatten(lines[1..]);
      assert IsLine(line);
      DrainLine(take, s, line, rest);
      var (s1, v) := take(s, line);
      if v == More { DrainLines(take, s1, lines[1..]); }
    }
  }

  // Lines that do not finish the stream come to the same however they are cut
  // into Writes.
  lemma WritesOfLines<S, E>(take: Step<S, E>, s: S, lines: seq<seq<byte>>, chunks: seq<seq<byte>>)
    requires (forall l :: l in lines ==> IsLine(l)) && Flatten(chunks) == Flatten(lines)
    requires Feed(take, s, lines).1 == [] || Feed(take, s, lines).2.Some?
    ensures var (s1, rest, e) := Feed(take, s, lines);
            var (r, e') := Run(take, Reader(s, []), chunks);
            r.s == s1 && e' == e
  {
    var rest := Feed(take, s, lines).1;
    DrainLines(take, s, lines);
    assert [] + Flatten(lines) == Flatten(lines);
    ChunksAgree(take, Reader(s, []), chunks);
  }

  lemma {:induction false} FeedConcat<S, E>(take: Step<S, E>, s: S, a: seq<seq<byte>>, b: seq<seq<byte>>)
    requires AllMore(take, s, a)
    ensures Feed(take, s, a + b) == Feed(take, Feed(take, s, a).0, b)
    decreases |a|
  {
    if a == [] {
      assert a + b == b;
    } else {
      assert (a + b)[1..] == a[1..] + b;
      FeedConcat(take, take(s, a[0]).0, a[1..], b);
    }
  }

  // None of these lines ends the stream.
  ghost predicate AllMore<S, E>(take: Step<S, E>, s: S, lines: seq<seq<byte>>)
    decreases |lines|
  {
    lines == [] || (take(s, lines[0]).1 == More && AllMore(take, take(s, lines[0]).0, lines[1..]))
  }

  lemma OneMore<S, E>(take: Step<S, E>, s: S, line: seq<byte>, rest: seq<seq<byte>>)
    requires take(s, line).1 == More && AllMore(take, take(s, line).0, rest)
    ensures AllMore(take, s, [line] + rest)
    ensures Feed(take, s, [line] + rest) == Feed(take, take(s, line).0, rest)
  {
    assert ([line] + rest)[1..] == rest;
  }

  lemma OnlyMore<S, E>(take: Step<S, E>, s: S, line: seq<byte>)
    requires take(s, line).1 == More
    ensures AllMore(take, s, [line])
    ensures Feed(take, s, [line]) == (take(s, line).0, [], None)
  {
    assert [line] + [] == [line];
    OneMore(take, s, line, []);
  }

  lemma TwoMore<S, E>(take: Step<S, E>, s: S, first: seq<byte>, s1: S, second: seq<byte>, s2: S)
    requires take(s, first) == (s1, More) && take(s1, second) == (s2, More)
    ensures AllMore(take, s, [first, second]) && Feed(take, s, [first, second]).0 == s2
  {
    assert [first, second] == [first] + [second];
    OnlyMore(take, s1, second);
    OneMore(take, s, first, [second]);
  }

  // Three stretches of lines.
  lemma FeedParts<S, E>(take: Step<S, E>, s0: S, a: seq<seq<byte>>, s1: S, b: seq<seq<byte>>, s2: S,
                        c: seq<seq<byte>>, s3: S)
    requires AllMore(take, s0, a) && Feed(take, s0, a).0 == s1
    requires AllMore(take, s1, b) && Feed(take, s1, b).0 == s2
    requires AllMore(take, s2, c) && Feed(take, s2, c).0 == s3
    ensures AllMore(take, s0, a + (b + c)) && Feed(take, s0, a + (b + c)).0 == s3
  {
    AllMoreConcat(take, s1, b, c);
    FeedConcat(take, s1, b, c);
    AllMoreConcat(take, s0, a, b + c);
    FeedConcat(take, s0, a, b + c);
  }

  lemma {:induction false} AllMoreConcat<S, E>(take: Step<S, E>, s: S, a: seq<seq<byte>>, b: seq<seq<byte>>)
    requires AllMore(take, s, a) && AllMore(take, Feed(take, s, a).0, b)
    ensures AllMore(take, s, a + b)
    decreases |a|
  {
    if a == [] {
      assert a + b == b;
    } else {
      assert (a + b)[1..] == a[1..] + b;
      AllMoreConcat(take, take(s, a[0]).0, a[1..], b);
    }
  }

  lemma LastMore<S, E>(take: Step<S, E>, s: S, lines: seq<seq<byte>>, s1: S, last: seq<byte>, s2: S)
    requires AllMore(take, s, lines) && Feed(take, s, lines).0 == s1 && take(s1, last) == (s2, More)
    ensures AllMore(take, s, lines + [last]) && Feed(take, s, lines + [last]).0 == s2
  {
    OnlyMore(take, s1, last);
    AllMoreConcat(take, s, lines, [last]);
    FeedConcat(take, s, lines, [last]);
  }

  lemma {:induction false} AllTaken<S, E>(take: Step<S, E>, s: S, lines: seq<seq<byte>>)
    requires AllMore(take, s, lines)
    ensures Feed(take, s, lines).1 == [] && Feed(take, s, lines).2.None?
    decreases |lines|
  {
    if lines != [] { AllTaken(take, take(s, lines[0]).0, lines[1..]); }
  }

  // Lines none of which ends the stream.
  lemma WritesOfMore<S, E>(take: Step<S, E>, s: S, lines: seq<seq<byte>>, s1: S, chunks: seq<seq<byte>>)
    requires AllMore(take, s, lines) && Feed(take, s, lines).0 == s1
    requires (forall l :: l in lines ==> IsLine(l)) && Flatten(chunks) == Flatten(lines)
    ensures var (r, e) := Run(take, Reader(s, []), chunks); r.s == s1 && e == None
  {
    AllTaken(take, s, lines);
    WritesOfLines(take, s, lines, chunks);
  }

  // And the one behind them that breaks it.
  lemma WritesBroken<S, E>(take: Step<S, E>, s: S, lines: seq<seq<byte>>, s1: S, last: seq<byte>, s2: S, err: E,
                           chunks: seq<seq<byte>>)
    requires AllMore(take, s, lines) && Feed(take, s, lines).0 == s1 && take(s1, last) == (s2, Broken(err))
    requires (forall l :: l in lines ==> IsLine(l)) && IsLine(last) && Flatten(chunks) == Flatten(lines) + last
    ensures var (r, e) := Run(take, Reader(s, []), chunks); r.s == s2 && e == Some(err)
  {
    FeedConcat(take, s, lines, [last]);
    assert [last][1..] == [];
    FlattenConcat(lines, [last]);
    WritesOfLines(take, s, lines + [last], chunks);
  }

  lemma {:induction false} FlattenConcat<T>(a: seq<seq<T>>, b: seq<seq<T>>)
    ensures Flatten(a + b) == Flatten(a) + Flatten(b)
    decreases |a|
  {
    if a == [] {
      assert a + b == b;
    } else {
      assert (a + b)[1..] == a[1..] + b;
      FlattenConcat(a[1..], b);
    }
  }

  // Lines, the one that ends the stream, and whatever is behind it.
  lemma {:induction false} DrainToEnd<S, E>(take: Step<S, E>, s: S, lines: seq<seq<byte>>, last: seq<byte>,
                                            tail: seq<byte>)
    requires AllMore(take, s, lines) && (forall l :: l in lines ==> IsLine(l)) && IsLine(last)
    requires take(Feed(take, s, lines).0, last).1 != More
    ensures var (s1, v) := take(Feed(take, s, lines).0, last);
            Drain(take, Reader(s, Flatten(lines) + (last + tail)))
              == (Reader(s1, tail), if v.Finished? then None else Some(v.err))
    decreases |lines|
  {
    if lines == [] {
      assert [] + (last + tail) == last + tail;
      DrainLine(take, s, last, tail);
    } else {
      var rest := Flatten(lines[1..]) + (last + tail);
      assert Flatten(lines) + (last + tail) == lines[0] + rest;
      assert lines[0] in lines;
      DrainLine(take, s, lines[0], rest);
      DrainToEnd(take, take(s, lines[0]).0, lines[1..], last, tail);
    }
  }

  lemma WriteToEnd<S, E>(take: Step<S, E>, s: S, lines: seq<seq<byte>>, s1: S, last: seq<byte>, s2: S, v: Verdict<E>,
                         tail: seq<byte>)
    requires AllMore(take, s, lines) && (forall l :: l in lines ==> IsLine(l)) && IsLine(last)
    requires Feed(take, s, lines).0 == s1 && take(s1, last) == (s2, v) && v != More
    ensures Write(take, Reader(s, []), Flatten(lines) + last + tail)
         == (Reader(s2, tail), if v.Finished? then None else Some(v.err))
  {
    DrainToEnd(take, s, lines, last, tail);
    var input := Flatten(lines) + last + tail;
    Associates(Flatten(lines), last, tail);
    assert [] + input == input;
  }
}
