// What every reachable state of the grab engine satisfies.
module GrabInvariant {
  import opened Basics
  import opened GrabModel

  // ---- The invariant ----

  function DoneOne(s: Seg): nat { if s.state == Done then 1 else 0 }

  function FailedOne(s: Seg): nat { if s.err.Some? then 1 else 0 }

  function FailedIn(f: File): nat { Sum(f.segs, FailedOne) }

  // A file that is required and not finished.
  function OpenOne(f: File): nat { if f.required && f.state != Done then 1 else 0 }

  ghost predicate SegFits(s: State, f: State) {
    match f
    case Pending => s in {Pending, Done}
    case Working => s in {Pending, Working, Done}
    case Paused => s in {Paused, Pausing, Done}
    case Done => s == Done
    case _ => false
  }

  ghost predicate SegOK(s: Seg, servers: nat) {
    && (s.err.Some? ==> s.state == Done)
    && (s.err == Some(NoMoreServers) ==> forall k: nat :: k < servers ==> k in s.failedServer)
  }

  // A file without segments is never Done.
  ghost predicate FileOK(f: File, g: State) {
    && f.state in {Pending, Working, Paused, Done}
    && (forall j :: 0 <= j < |f.segs| ==> SegFits(f.segs[j].state, f.state))
    && f.done == Sum(f.segs, DoneOne)
    && (f.state == Done <==> f.segs != [] && f.done == |f.segs|)
    && (!f.required ==> f.state == Paused && forall j :: 0 <= j < |f.segs| ==> f.segs[j].state == Paused)
    && (g != Paused && f.state == Paused ==> !f.required)
  }

  ghost predicate Coherent(w: World) {
    && w.state in {Pending, Working, Paused}
    && forall i :: 0 <= i < |w.files| ==> FileOK(w.files[i], w.state)
  }

  ghost predicate Counted(w: World) {
    w.required - |w.doneFiles| == Sum(w.files, OpenOne)
  }

  ghost predicate Failures(w: World) {
    && w.failedSegments == Sum(w.files, FailedIn)
    && forall r :: ValidRef(w, r) ==> SegOK(SegAt(w, r), w.servers)
  }

  ghost predicate NoDup<T>(s: seq<T>) {
    forall i, j :: 0 <= i < j < |s| ==> s[i] != s[j]
  }

  ghost predicate SuffixOf<T>(s: seq<T>, t: seq<T>) {
    |s| <= |t| && t[|t| - |s|..] == s
  }

  // Done has fired exactly once for exactly the finished files.
  ghost predicate FiredOnce(w: World) {
    && NoDup(w.fired)
    && SuffixOf(w.doneFiles, w.fired)
    && (forall i :: i in w.fired ==> i < |w.files|)
    && forall i: nat :: i < |w.files| ==> (i in w.fired <==> w.files[i].state == Done)
  }

  // Every Grab went to the best server that had not failed, so later Grabs for
  // the same segment never go back up the priority order.
  ghost predicate LoggedInOrder(w: World) {
    && (forall a :: 0 <= a < |w.log| ==>
          && ValidRef(w, w.log[a].ref)
          && w.log[a].server < w.servers
          && forall k: nat :: k < w.log[a].server ==> k in SegAt(w, w.log[a].ref).failedServer)
    && forall a, b :: 0 <= a < b < |w.log| && w.log[a].ref == w.log[b].ref ==> w.log[a].server <= w.log[b].server
  }

  ghost predicate Core(w: World) {
    Coherent(w) && Counted(w) && Failures(w) && FiredOnce(w) && LoggedInOrder(w)
  }

  ghost predicate OwnedRef(w: World, r: Ref) {
    ValidRef(w, r) && r.f in w.grabbed
  }

  // Tokens and requests name segments of grabbed files, and only required files
  // are grabbed.
  ghost predicate Tokens(w: World) {
    && (forall q :: q in w.log ==> q.ref.f in w.grabbed)
    && (forall i :: i in w.grabbed ==> i < |w.files| && w.files[i].required)
    && (forall i: nat :: i < |w.files| && w.files[i].state == Working ==> i in w.grabbed)
    && (forall k :: 0 <= k < |w.queue| ==> OwnedRef(w, w.queue[k]))
    && (forall q :: q in w.inflight ==>
          OwnedRef(w, q.ref) && q.server < w.servers && q.group in w.files[q.ref.f].groups)
  }

  ghost predicate InFlight(w: World, r: Ref) {
    exists q :: q in w.inflight && q.ref == r
  }

  ghost predicate HasToken(w: World, r: Ref) {
    r in w.queue || InFlight(w, r)
  }

  ghost predicate Unfinished(s: Seg) {
    s.state == Pending || s.state == Working
  }

  ghost predicate NotLostIn(w: World, i: nat)
    requires i < |w.files|
  {
    forall j: nat :: j < |w.files[i].segs| && Unfinished(w.files[i].segs[j]) ==> HasToken(w, Ref(i, j))
  }

  // A grabbed file that has not started yet has a token for each unfinished segment.
  ghost predicate PendingHeld(w: World) {
    forall i: nat :: i < |w.files| && i in w.grabbed && w.files[i].state == Pending ==> NotLostIn(w, i)
  }

  // What every run keeps, whatever its events.
  ghost predicate Inv(w: World) {
    Core(w) && Tokens(w) && PendingHeld(w)
  }

  // ---- What a run keeps that asks for no paused file of a paused grabber ----

  ghost predicate InStep(f: File, g: State) {
    && (g == Paused ==> f.state == Paused || f.state == Done)
    && (f.state == Working ==> g == Working)
  }

  ghost predicate NotLost(w: World) {
    w.state != Paused ==> forall i: nat :: i < |w.files| && i in w.grabbed ==> NotLostIn(w, i)
  }

  ghost predicate Orderly(w: World) {
    && (forall i :: 0 <= i < |w.files| ==> InStep(w.files[i], w.state))
    && NotLost(w)
  }

  // ---- Counting helpers ----

  lemma {:induction false} SumAtMost(segs: seq<Seg>)
    ensures Sum(segs, DoneOne) <= |segs|
    ensures Sum(segs, DoneOne) == |segs| <==> forall j :: 0 <= j < |segs| ==> segs[j].state == Done
  {
    if segs != [] {
      SumAtMost(segs[1..]);
      assert forall j :: 0 < j < |segs| ==> segs[j] == segs[1..][j - 1];
    }
  }

  // ---- Changing one segment ----

  // Nothing changed but this segment, the state and count of its file, and the
  // parts of the world that are not files.
  ghost predicate OnlyAt(w: World, w': World, r: Ref) {
    && ValidRef(w, r) && ValidRef(w', r)
    && w'.servers == w.servers && w'.grabbed == w.grabbed
    && |w'.files| == |w.files|
    && (forall i :: 0 <= i < |w.files| && i != r.f ==> w'.files[i] == w.files[i])
    && SameButSeg(w.files[r.f], w'.files[r.f], r.s)
  }

  ghost predicate SameButSeg(f: File, f': File, k: nat) {
    && |f'.segs| == |f.segs| && f'.groups == f.groups && f'.required == f.required
    && forall j :: 0 <= j < |f.segs| && j != k ==> f'.segs[j] == f.segs[j]
  }

  // Only the failover bookkeeping differs, and no failed server is forgotten.
  ghost predicate Failover(s: Seg, t: Seg) {
    && t == s.(failedServer := t.failedServer, failedGroup := t.failedGroup, retries := t.retries)
    && s.failedServer <= t.failedServer
  }

  // The grabber is only asked for a file that has not started.
  ghost predicate Startable(w: World, r: Ref)
    requires ValidRef(w, r)
  {
    Unfinished(SegAt(w, r)) && (w.files[r.f].state == Pending ==> w.state != Paused)
  }

  ghost function Started(w: World, r: Ref): World
    requires ValidRef(w, r)
  {
    var f := w.files[r.f];
    WithFile(w, r.f, f.(state := Working, segs := f.segs[r.s := f.segs[r.s].(state := Working)]))
      .(state := if f.state == Pending then Working else w.state)
  }

  // The file has started, but not the segment, which the grabber refused.
  ghost function Halted(w: World, i: nat): World
    requires i < |w.files|
  {
    WithFile(w, i, w.files[i].(state := Working))
  }

  // Segment Working starts an unfinished segment, and its file and grabber with
  // it, unless the grabber is paused and the file has yet to start. A segment
  // that is paused or done is refused and nothing changes.
  lemma StartCases(w: World, r: Ref)
    requires Coherent(w) && ValidRef(w, r)
    ensures SegWorking(w, r) ==
              if Startable(w, r) then (true, Started(w, r))
              else if Unfinished(SegAt(w, r)) then (false, Halted(w, r.f))
              else (false, w)
    ensures Unfinished(SegAt(w, r)) ==> w.files[r.f].state == Pending || w.files[r.f].state == Working
  {
    var s := SegAt(w, r);
    var f := w.files[r.f];
    assert FileOK(f, w.state) && SegFits(s.state, f.state);
    assert f.segs[r.s := s] == f.segs && w.files[r.f := f] == w.files;
    assert s.(state := s.state) == s && f.(state := f.state) == f;
  }

  lemma FileStarted(f: File, j: nat, g: State, h: State)
    requires FileOK(f, g) && f.required && j < |f.segs| && Unfinished(f.segs[j])
    ensures FileOK(f.(state := Working, segs := f.segs[j := f.segs[j].(state := Working)]), h)
    ensures f.state != Done
  {
    var f' := f.(state := Working, segs := f.segs[j := f.segs[j].(state := Working)]);
    assert SegFits(f.segs[j].state, f.state);
    SumUpdate(f.segs, j, f'.segs[j], DoneOne);
    SumAtMost(f.segs);
    forall k | 0 <= k < |f'.segs| ensures SegFits(f'.segs[k].state, f'.state) {
      assert SegFits(f.segs[k].state, f.state);
    }
  }

  lemma CoreStarted(w: World, r: Ref)
    requires Core(w) && ValidRef(w, r) && w.files[r.f].required && Startable(w, r)
    ensures Core(Started(w, r))
  {
    var w' := Started(w, r);
    var f, f' := w.files[r.f], w'.files[r.f];
    assert FileOK(f, w.state);
    FileStarted(f, r.s, w.state, w'.state);
    SumUpdate(f.segs, r.s, f'.segs[r.s], FailedOne);
    SumUpdate(w.files, r.f, f', OpenOne);
    SumUpdate(w.files, r.f, f', FailedIn);
    forall i | 0 <= i < |w'.files| ensures FileOK(w'.files[i], w'.state) {
      assert FileOK(w.files[i], w.state);
    }
    SegsKept(w, w', r);
  }

  lemma CoreHalted(w: World, r: Ref)
    requires Core(w) && ValidRef(w, r) && w.files[r.f].required && w.files[r.f].state == Pending
    ensures Core(Halted(w, r.f))
  {
    var w' := Halted(w, r.f);
    var f, f' := w.files[r.f], w'.files[r.f];
    assert FileOK(f, w.state);
    SumUpdate(w.files, r.f, f', OpenOne);
    SumUpdate(w.files, r.f, f', FailedIn);
    forall j | 0 <= j < |f'.segs| ensures SegFits(f'.segs[j].state, f'.state) {
      assert SegFits(f.segs[j].state, f.state);
    }
    forall i | 0 <= i < |w'.files| ensures FileOK(w'.files[i], w'.state) {
      assert FileOK(w.files[i], w.state);
    }
    assert SegOK(SegAt(w, r), w.servers);
    SegsKept(w, w', r);
  }

  // A step that leaves the log alone, changes one segment only, and keeps its
  // failed servers and its error.
  lemma SegsKept(w: World, w': World, r: Ref)
    requires Failures(w) && LoggedInOrder(w)
    requires OnlyAt(w, w', r) && w'.log == w.log
    requires SegAt(w, r).failedServer <= SegAt(w', r).failedServer
    requires SegOK(SegAt(w', r), w.servers)
    ensures LoggedInOrder(w')
    ensures forall x :: ValidRef(w', x) ==> SegOK(SegAt(w', x), w'.servers)
  {
    forall x | ValidRef(w', x)
      ensures ValidRef(w, x) && SegOK(SegAt(w', x), w'.servers) && SegAt(w, x).failedServer <= SegAt(w', x).failedServer
    {
      assert ValidRef(w, x);
      if x != r { assert SegAt(w', x) == SegAt(w, x); }
    }
    forall a | 0 <= a < |w'.log|
      ensures ValidRef(w', w'.log[a].ref)
      ensures forall k: nat :: k < w'.log[a].server ==> k in SegAt(w', w'.log[a].ref).failedServer
    {
      assert ValidRef(w, w.log[a].ref);
      assert ValidRef(w', w.log[a].ref);
    }
  }

  lemma CoreFailover(w: World, r: Ref, t: Seg)
    requires Core(w) && ValidRef(w, r) && Failover(SegAt(w, r), t)
    ensures Core(WithSeg(w, r, t))
  {
    var w' := WithSeg(w, r, t);
    var f, f' := w.files[r.f], w'.files[r.f];
    SumUpdate(f.segs, r.s, t, DoneOne);
    SumUpdate(f.segs, r.s, t, FailedOne);
    SumUpdate(w.files, r.f, f', OpenOne);
    SumUpdate(w.files, r.f, f', FailedIn);
    assert FileOK(f, w.state);
    assert FileOK(f', w'.state);
    assert SegOK(SegAt(w, r), w.servers);
    SegsKept(w, w', r);
  }

  // ---- Finishing a segment ----

  ghost function FinishIn(f: File, j: nat, err: Option<SegmentError>): File
    requires j < |f.segs|
  {
    f.(segs := f.segs[j := f.segs[j].(state := Done, err := err)],
       done := f.done + 1,
       state := if f.done + 1 >= |f.segs| then Done else f.state)
  }

  lemma FinishOK(f: File, j: nat, err: Option<SegmentError>, g: State)
    requires FileOK(f, g) && f.required && j < |f.segs| && f.segs[j].state != Done
    ensures FileOK(FinishIn(f, j, err), g)
    ensures FinishIn(f, j, err).state == Done <==> f.done + 1 == |f.segs|
    ensures f.state != Done
  {
    var f' := FinishIn(f, j, err);
    assert SegFits(f.segs[j].state, f.state);
    SumUpdate(f.segs, j, f'.segs[j], DoneOne);
    SumAtMost(f'.segs);
  }

  // What SegDone does once the file is f, with this segment finished.
  ghost function AfterFinish(w: World, i: nat, f: File): World
    requires i < |w.files|
  {
    var ends := f.done >= |f.segs|;
    var doneFiles := if ends then w.doneFiles + [i] else w.doneFiles;
    w.(
      files := w.files[i := f],
      doneFiles := doneFiles,
      fired := if ends then w.fired + [i] else w.fired,
      signals := if ends && |doneFiles| >= w.required then w.signals + 1 else w.signals)
  }

  lemma SegDoneShape(w: World, r: Ref, err: Option<SegmentError>)
    requires ValidRef(w, r) && SegAt(w, r).state != Done
    ensures SegDone(w, r, err) == AfterFinish(w, r.f, FinishIn(w.files[r.f], r.s, err))
  {
  }

  lemma SuffixGrows<T>(s: seq<T>, t: seq<T>, x: T)
    requires SuffixOf(s, t)
    ensures SuffixOf(s + [x], t + [x])
  {
    assert (t + [x])[|t + [x]| - |s + [x]|..] == t[|t| - |s|..] + [x];
  }

  lemma CountedDone(w: World, i: nat, f: File)
    requires Counted(w) && i < |w.files| && w.files[i].required && w.files[i].state != Done
    requires f.required && (f.state == Done <==> f.done >= |f.segs|)
    ensures Counted(AfterFinish(w, i, f))
  {
    SumUpdate(w.files, i, f, OpenOne);
  }

  lemma FiredDone(w: World, i: nat, f: File)
    requires FiredOnce(w) && i < |w.files| && w.files[i].state != Done
    requires f.state == Done <==> f.done >= |f.segs|
    ensures FiredOnce(AfterFinish(w, i, f))
  {
    SuffixGrows(w.doneFiles, w.fired, i);
    assert i !in w.fired;
  }

  lemma FailuresDone(w: World, r: Ref, err: Option<SegmentError>)
    requires ValidRef(w, r) && SegAt(w, r).err.None? && w.failedSegments == Sum(w.files, FailedIn)
    ensures w.failedSegments + (if err.Some? then 1 else 0)
              == Sum(AfterFinish(w, r.f, FinishIn(w.files[r.f], r.s, err)).files, FailedIn)
  {
    var f, f' := w.files[r.f], FinishIn(w.files[r.f], r.s, err);
    SumUpdate(f.segs, r.s, f'.segs[r.s], FailedOne);
    SumUpdate(w.files, r.f, f', FailedIn);
  }

  lemma CoherentDone(w: World, i: nat, f: File)
    requires Coherent(w) && i < |w.files| && FileOK(f, w.state)
    ensures Coherent(AfterFinish(w, i, f))
  {
    var w' := AfterFinish(w, i, f);
    forall k | 0 <= k < |w'.files| ensures FileOK(w'.files[k], w'.state) {
      assert FileOK(w.files[k], w.state);
    }
  }

  lemma CoreSegDone(w: World, r: Ref, err: Option<SegmentError>)
    requires Core(w) && ValidRef(w, r) && w.files[r.f].required
    requires SegAt(w, r).state != Done
    requires err == Some(NoMoreServers) ==> forall k: nat :: k < w.servers ==> k in SegAt(w, r).failedServer
    ensures Core(SegDone(w, r, err).(failedSegments := w.failedSegments + if err.Some? then 1 else 0))
  {
    var f, f' := w.files[r.f], FinishIn(w.files[r.f], r.s, err);
    SegDoneShape(w, r, err);
    var w1 := AfterFinish(w, r.f, f');
    var w' := w1.(failedSegments := w.failedSegments + if err.Some? then 1 else 0);
    assert FileOK(f, w.state) && SegOK(SegAt(w, r), w.servers);
    FinishOK(f, r.s, err, w.state);
    CoherentDone(w, r.f, f');
    CountedDone(w, r.f, f');
    FiredDone(w, r.f, f');
    FailuresDone(w, r, err);
    SegsKept(w, w', r);
    assert Coherent(w') && Counted(w') && FiredOnce(w');
  }
}
