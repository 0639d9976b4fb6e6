// What users of the grab engine can rely on.
module GrabTheorems {
  import opened Basics
  import opened GrabModel
  import opened GrabInvariant
  import opened GrabNetwork
  import opened GrabApi
  import opened GrabTermination
  import opened GrabRequests
  import opened GrabStranding

  ghost predicate AllSegsDone(f: File) {
    forall j :: 0 <= j < |f.segs| ==> f.segs[j].state == Done
  }

  ghost predicate RequiredDone(w: World) {
    forall i :: 0 <= i < |w.files| && w.files[i].required ==> w.files[i].state == Done
  }

  // ---- Safety in every reachable state ----

  // Every run of any events keeps the invariant, and one without the call that is
  // not allowed keeps the engine orderly.
  lemma ReachableIsCoherent(specs: seq<FileSpec>, servers: nat, maxRetry: int, first: Option<nat>,
                            es: seq<Event>, w: World)
    requires SmallestPar2(specs, first)
    requires Runs(FromNZB(specs, servers, maxRetry, first), es, w)
    ensures Inv(w)
    ensures AllAllowed(FromNZB(specs, servers, maxRetry, first), es) ==> Orderly(w)
  {
    StartsOK(specs, servers, maxRetry, first);
    RunKeeps(FromNZB(specs, servers, maxRetry, first), es, w);
  }

  // Grabber, files and segments agree about their states in every reachable
  // state; the grabber and its files do unless the run makes the call that is not
  // allowed.
  lemma Hierarchy(specs: seq<FileSpec>, servers: nat, maxRetry: int, first: Option<nat>,
                  es: seq<Event>, w: World, r: Ref)
    requires SmallestPar2(specs, first)
    requires Runs(FromNZB(specs, servers, maxRetry, first), es, w) && ValidRef(w, r)
    ensures w.files[r.f].state == Paused ==> SegAt(w, r).state in {Paused, Pausing, Done}
    ensures w.files[r.f].state == Paused && w.state != Paused ==> !w.files[r.f].required
    ensures SegAt(w, r).state == Working ==> w.files[r.f].state == Working
    ensures !w.files[r.f].required ==>
              && w.files[r.f].state == Paused && SegAt(w, r).state == Paused
              && !HasToken(w, r) && forall q :: q in w.log ==> q.ref != r
    ensures AllAllowed(FromNZB(specs, servers, maxRetry, first), es) ==>
              && (w.state == Paused ==> w.files[r.f].state == Paused || w.files[r.f].state == Done)
              && (w.files[r.f].state == Working ==> w.state == Working)
  {
    ReachableIsCoherent(specs, servers, maxRetry, first, es, w);
    assert FileOK(w.files[r.f], w.state) && SegFits(SegAt(w, r).state, w.files[r.f].state);
    if r in w.queue {
      assert OwnedRef(w, r);
    }
    if Orderly(w) { assert InStep(w.files[r.f], w.state); }
  }

  lemma DoneCounts(w: World, i: nat)
    requires Inv(w) && i < |w.files|
    ensures w.files[i].done == Sum(w.files[i].segs, DoneOne)
    ensures w.files[i].state == Done <==> w.files[i].segs != [] && AllSegsDone(w.files[i])
    ensures w.files[i].state == Done <==> i in w.fired
    ensures i in w.doneFiles ==> w.files[i].state == Done
    ensures NoDup(w.fired) && NoDup(w.doneFiles)
  {
    assert FileOK(w.files[i], w.state);
    SumAtMost(w.files[i].segs);
    var t := w.fired[|w.fired| - |w.doneFiles|..];
    assert w.doneFiles == t;
    if i in w.doneFiles {
      var k :| 0 <= k < |t| && t[k] == i;
      assert w.fired[|w.fired| - |w.doneFiles| + k] == i;
    }
  }

  lemma {:induction false} OpenIsZero(files: seq<File>)
    ensures Sum(files, OpenOne) == 0 <==> forall i :: 0 <= i < |files| && files[i].required ==> files[i].state == Done
  {
    if files != [] {
      OpenIsZero(files[1..]);
      assert forall i :: 0 < i < |files| ==> files[i] == files[1..][i - 1];
    }
  }

  // The counters say exactly which required files are still open.
  lemma Accounting(w: World)
    requires Inv(w)
    ensures w.required - |w.doneFiles| == Sum(w.files, OpenOne)
    ensures IsPostProcessable(w) <==> RequiredDone(w)
    ensures IsPostProcessable(w) ==> w.required == |w.doneFiles|
  {
    OpenIsZero(w.files);
  }

  function Health(failed: nat, total: nat): real
    requires total > 0
  {
    100.0 - failed as real / total as real * 100.0
  }

  ghost function SegCount(f: File): nat { |f.segs| }

  lemma {:induction false} FailuresAtMost(segs: seq<Seg>)
    ensures Sum(segs, FailedOne) <= |segs|
  {
    if segs != [] { FailuresAtMost(segs[1..]); }
  }

  lemma RealQuotient(a: nat, b: nat)
    requires a <= b && b > 0
    ensures 0.0 <= a as real / b as real <= 1.0
  {
  }

  // Health is the share of segments that have not failed, in percent.
  lemma HealthIsShare(failed: nat, total: nat)
    requires total > 0
    ensures Health(failed, total) * total as real == 100.0 * (total - failed) as real
  {
    var q := failed as real / total as real;
    assert q * total as real == failed as real;
    assert (100.0 - q * 100.0) * total as real == 100.0 * total as real - 100.0 * (q * total as real);
  }

  // Every failed segment is counted once, and failed for a reason.
  lemma FailureConservation(w: World)
    requires Inv(w)
    ensures w.failedSegments == Sum(w.files, FailedIn)
    ensures forall r :: ValidRef(w, r) && SegAt(w, r).err.Some? ==>
              && SegAt(w, r).state == Done
              && (SegAt(w, r).err == Some(NoMoreServers) ==>
                    forall k: nat :: k < w.servers ==> k in SegAt(w, r).failedServer)
    ensures Sum(w.files, SegCount) > 0 ==> 0.0 <= Health(w.failedSegments, Sum(w.files, SegCount)) <= 100.0
  {
    forall i | 0 <= i < |w.files| ensures FailedIn(w.files[i]) <= SegCount(w.files[i]) {
      FailuresAtMost(w.files[i].segs);
    }
    SumBelow(w.files, w.files, FailedIn, SegCount);
    if Sum(w.files, SegCount) > 0 {
      RealQuotient(w.failedSegments, Sum(w.files, SegCount));
    }
  }

  // The request is for the first group of its file that has not failed, at the
  // best server that has not failed, which is alive and holds the article.
  ghost predicate Best(w: World, q: Request, env: Env) {
    && ValidRef(w, q.ref)
    && SelectServer(SegAt(w, q.ref).failedServer, 0, w.servers) == Some(q.server)
    && SelectGroup(SegAt(w, q.ref).failedGroup, w.files[q.ref.f].groups) == Some(q.group)
    && env.alive(q.server) && !env.expired(q.server)
  }

  lemma TriedBest(w: World, env: Env)
    requires w.queue != [] && ValidRef(w, w.queue[0]) && Tried(w, env).1.Asked?
    ensures var (w2, a) := Tried(w, env); Best(w2, Request(w.queue[0], a.server, a.group), env)
  {
    var r := w.queue[0];
    var w1 := Started(Dequeued(w), r);
    TryServersOutcome(SegAt(w1, r), w1.files[r.f].groups, w1.servers, env, 0);
  }

  // A dispatch makes at most one request, for the segment it is about, and the
  // best there is.
  lemma GrabsBest(w: World, env: Env)
    requires Inv(w) && Enabled(w, Dispatch(env))
    ensures var w' := Step(w, Dispatch(env));
            || w'.log == w.log
            || (exists q :: w'.log == w.log + [q] && q.ref == w.queue[0] && Best(w', q, env))
  {
    var r := w.queue[0];
    DispatchCases(w, env);
    if Startable(w, r) {
      var (w2, a) := Tried(w, env);
      TriedOnlyAt(w, env);
      match a {
        case Failed(e) => SegDoneOnlyAt(w2, r, Some(e));
        case Asked(srv, g) =>
          TriedBest(w, env);
          var q := Request(r, srv, g);
          assert Best(w2.(inflight := w2.inflight + [q], log := w2.log + [q]), q, env);
      }
    }
  }

  // In every run the Grabs made for one segment never go back up the priority
  // order, and when it ends every server better than one asked has failed.
  lemma PriorityOrder(specs: seq<FileSpec>, servers: nat, maxRetry: int, first: Option<nat>,
                      es: seq<Event>, w: World, b: nat)
    requires SmallestPar2(specs, first)
    requires Runs(FromNZB(specs, servers, maxRetry, first), es, w)
    requires b < |w.log|
    ensures forall a :: 0 <= a < b && w.log[a].ref == w.log[b].ref ==> w.log[a].server <= w.log[b].server
    ensures ValidRef(w, w.log[b].ref)
    ensures forall k: nat :: k < w.log[b].server ==> k in SegAt(w, w.log[b].ref).failedServer
  {
    ReachableIsCoherent(specs, servers, maxRetry, first, es, w);
  }

  // A segment gets an error only from a dispatch of its own: because every server
  // has failed, or because an output could not be created.
  lemma FailsForAReason(w: World, e: Event, r: Ref)
    requires Inv(w) && Enabled(w, e) && Network(e) && ValidRef(w, r) && SegAt(w, r).err.None?
    ensures ValidRef(Step(w, e), r)
    ensures SegAt(Step(w, e), r).err.Some? ==> e.Dispatch? && r == w.queue[0]
    ensures SegAt(Step(w, e), r).err == Some(OutputNotCreated) ==> exists n: nat :: !e.env.created(n)
    ensures SegAt(Step(w, e), r).err == Some(NoMoreServers) ==>
              forall k: nat :: k < w.servers ==> k in SegAt(Step(w, e), r).failedServer
  {
    match e
    case Dispatch(env) => DispatchFailsForAReason(w, env, r);
    case Respond(k, outcome) => ResponseIsNoError(w, k, outcome, r);
  }

  lemma ResponseIsNoError(w: World, k: nat, outcome: Outcome, r: Ref)
    requires Enabled(w, Respond(k, outcome)) && ValidRef(w, r) && SegAt(w, r).err.None?
    ensures ValidRef(Step(w, Respond(k, outcome)), r) && SegAt(Step(w, Respond(k, outcome)), r).err.None?
  {
    var x, w1 := w.inflight[k].ref, Received(w, k);
    if outcome == Grabbed {
      if SegAt(w1, x).state != Done { SegDoneShape(w1, x, None); }
    } else {
      HandleErrorIsFailover(SegAt(w1, x), w.inflight[k], outcome, w.maxRetry);
    }
  }

  // What dispatch leaves of its own segment's error, and that it touches no other.
  lemma TriedFailsForAReason(w: World, env: Env)
    requires w.queue != [] && ValidRef(w, w.queue[0]) && Tried(w, env).1.Failed?
    ensures var (w2, a) := Tried(w, env);
            && (a.err == OutputNotCreated ==> exists n: nat :: !env.created(n))
            && (a.err == NoMoreServers ==> forall k: nat :: k < w.servers ==> k in SegAt(w2, w.queue[0]).failedServer)
  {
    var w1 := Started(Dequeued(w), w.queue[0]);
    TryServersOutcome(SegAt(w1, w.queue[0]), w1.files[w.queue[0].f].groups, w1.servers, env, 0);
  }

  lemma DispatchOnlyAt(w: World, env: Env)
    requires Inv(w) && Enabled(w, Dispatch(env))
    ensures OnlyAt(w, Step(w, Dispatch(env)), w.queue[0])
  {
    var x := w.queue[0];
    DispatchCases(w, env);
    if Startable(w, x) {
      TriedOnlyAt(w, env);
      var (w2, a) := Tried(w, env);
      if a.Failed? { FailedOnlyAt(w, env, a.err); }
    } else if Unfinished(SegAt(w, x)) {
      HaltedOnlyAt(Dequeued(w), x);
    }
  }

  lemma DispatchFailsForAReason(w: World, env: Env, r: Ref)
    requires Inv(w) && Enabled(w, Dispatch(env)) && ValidRef(w, r) && SegAt(w, r).err.None?
    ensures var w' := Step(w, Dispatch(env));
            && ValidRef(w', r)
            && (SegAt(w', r).err.Some? ==> r == w.queue[0])
            && (SegAt(w', r).err == Some(OutputNotCreated) ==> exists n: nat :: !env.created(n))
            && (SegAt(w', r).err == Some(NoMoreServers) ==>
                  forall k: nat :: k < w.servers ==> k in SegAt(w', r).failedServer)
  {
    var x := w.queue[0];
    DispatchOnlyAt(w, env);
    if r == x {
      DispatchCases(w, env);
      if Startable(w, x) {
        TriedOnlyAt(w, env);
        var (w2, a) := Tried(w, env);
        if a.Failed? {
          TriedFailsForAReason(w, env);
          SegDoneShape(w2, x, Some(a.err));
        } else {
          TriedKeepsErr(w, env);
        }
      }
    }
  }

  lemma TriedKeepsErr(w: World, env: Env)
    requires w.queue != [] && ValidRef(w, w.queue[0])
    ensures ValidRef(Tried(w, env).0, w.queue[0]) && SegAt(Tried(w, env).0, w.queue[0]).err == SegAt(w, w.queue[0]).err
  {
    var w1 := Started(Dequeued(w), w.queue[0]);
    TryServersOutcome(SegAt(w1, w.queue[0]), w1.files[w.queue[0].f].groups, w1.servers, env, 0);
  }

  // ---- What single steps do ----

  // Finished work is never touched again, and the signal is sent exactly when a
  // file finishes and no required file is left open.
  ghost predicate DoneStays(w: World, w': World) {
    && |w'.files| == |w.files| && w.fired <= w'.fired
    && (forall i :: 0 <= i < |w.files| && w.files[i].state == Done ==> w'.files[i].state == Done)
    && forall r :: ValidRef(w, r) && SegAt(w, r).state == Done ==>
         ValidRef(w', r) && SegAt(w', r).state == Done && SegAt(w', r).err == SegAt(w, r).err
  }

  ghost predicate Idle(w: World, w': World) {
    w'.signals == w.signals && w'.fired == w.fired && w'.failedSegments == w.failedSegments
  }

  lemma OpenFileBlocks(w: World, i: nat)
    requires Counted(w) && i < |w.files| && w.files[i].required && w.files[i].state != Done
    ensures !IsPostProcessable(w)
  {
    SumAtLeast(w.files, i, OpenOne);
  }

  lemma GrabFileIdle(w: World, i: nat)
    requires i < |w.files|
    ensures Idle(w, GrabFileAt(w, i))
    ensures GrabFileAt(w, i).doneFiles == if IsPostProcessable(w) then [] else w.doneFiles
  {
  }

  lemma {:induction false} GrabPendingIdle(w: World, k: nat)
    requires Inv(w) && k <= |w.files|
    ensures Idle(w, GrabPendingFrom(w, k)) && GrabPendingFrom(w, k).doneFiles == w.doneFiles
    decreases |w.files| - k
  {
    if k < |w.files| {
      if w.files[k].state == Pending {
        assert FileOK(w.files[k], w.state);
        OpenFileBlocks(w, k);
        GrabFileInv(w, k);
        GrabPendingIdle(GrabFileAt(w, k), k + 1);
      } else {
        GrabPendingIdle(w, k + 1);
      }
    }
  }

  lemma {:induction false} ResumeFromIdle(w: World, k: nat)
    requires HalfResumed(w, k)
    ensures Idle(w, ResumeFrom(w, k)) && ResumeFrom(w, k).doneFiles == w.doneFiles
    decreases |w.files| - k
  {
    if k < |w.files| {
      ResumeOneKeeps(w, k);
      ResumeFromIdle(ResumeOne(w, k), k + 1);
      var w1 := ResumeFile(w, k);
      if w.files[k].required && w1.files[k].state == Pending {
        assert FileOK(w.files[k], Paused);
        ResumeFileBooks(w, k, Paused);
        OpenFileBlocks(w1, k);
      }
    }
  }

  // Pause, Resume and GrabAll never discard grabbed files; GrabFile starts a new
  // round exactly when the previous one was complete.
  lemma GrabbedFilesKept(w: World, e: Event)
    requires Inv(w) && Enabled(w, e)
    ensures e.Pause? || e.Resume? || e.GrabAll? ==> Step(w, e).doneFiles == w.doneFiles
    ensures e.GrabFile? && e.file < |w.files| ==>
              Step(w, e).doneFiles == if RequiredDone(w) then [] else w.doneFiles
    ensures Network(e) ==> w.doneFiles <= Step(w, e).doneFiles
  {
    Accounting(w);
    match e
    case GrabAll => GrabPendingIdle(w, 0);
    case GrabFile(i) => if i < |w.files| { GrabFileIdle(w, i); }
    case Pause =>
    case Resume =>
      if w.state == Paused {
        assert HalfResumed(w, 0);
        ResumeFromIdle(w, 0);
      }
    case Dispatch(env) =>
      DispatchCases(w, env);
      TriedDone(w, env);
    case Respond(k, outcome) =>
      var w1 := Received(w, k);
      ReceivedKeeps(w, k);
      if outcome == Grabbed && SegAt(w1, w.inflight[k].ref).state != Done {
        SegDoneShape(w1, w.inflight[k].ref, None);
      }
  }

  lemma TriedDone(w: World, env: Env)
    requires w.queue != [] && ValidRef(w, w.queue[0])
    ensures var (w2, a) := Tried(w, env);
            && w2.doneFiles == w.doneFiles && w2.fired == w.fired && w2.signals == w.signals
            && w2.required == w.required && OnlyAt(w, w2, w.queue[0])
            && (forall i :: 0 <= i < |w.files| && i != w.queue[0].f ==> w2.files[i] == w.files[i])
            && w2.files[w.queue[0].f].done == w.files[w.queue[0].f].done
            && w2.files[w.queue[0].f].state == Working
            && SegAt(w2, w.queue[0]).state == Working
            && match a case Failed(e) => w.doneFiles <= SegFailed(w2, w.queue[0], e).doneFiles case _ => true
  {
    TriedOnlyAt(w, env);
    var (w2, a) := Tried(w, env);
    if a.Failed? { SegDoneShape(w2, w.queue[0], Some(a.err)); }
  }

  lemma DoneStaysTwice(w: World, w1: World, w2: World)
    requires DoneStays(w, w1) && DoneStays(w1, w2)
    ensures DoneStays(w, w2)
  {
    forall r | ValidRef(w, r) && SegAt(w, r).state == Done
      ensures ValidRef(w2, r) && SegAt(w2, r).state == Done && SegAt(w2, r).err == SegAt(w, r).err
    {
      assert ValidRef(w1, r);
    }
  }

  lemma ResumeFileDoneStays(w: World, i: nat)
    requires i < |w.files|
    ensures DoneStays(w, ResumeFile(w, i))
  {
  }

  lemma GrabFileDoneStays(w: World, i: nat)
    requires i < |w.files|
    ensures DoneStays(w, GrabFileAt(w, i)) && DoneStays(w, ResumeFile(w, i))
  {
    var w1 := ResetGrabbed(w);
    ResumeFileDoneStays(w, i);
    ResumeFileDoneStays(w1, i);
    assert DoneStays(w, w1);
    DoneStaysTwice(w, w1, ResumeFile(w1, i));
  }

  lemma {:induction false} LoopsDoneStay(w: World, k: nat)
    requires k <= |w.files|
    ensures DoneStays(w, GrabPendingFrom(w, k)) && DoneStays(w, ResumeFrom(w, k))
    decreases |w.files| - k
  {
    if k < |w.files| {
      var w1, w2 := GrabFileAt(w, k), ResumeOne(w, k);
      GrabFileDoneStays(w, k);
      GrabFileDoneStays(ResumeFile(w, k), k);
      if DoneStays(ResumeFile(w, k), w2) { DoneStaysTwice(w, ResumeFile(w, k), w2); }
      LoopsDoneStay(w, k + 1);
      LoopsDoneStay(w1, k + 1);
      LoopsDoneStay(w2, k + 1);
      DoneStaysTwice(w, w1, GrabPendingFrom(w1, k + 1));
      DoneStaysTwice(w, w2, ResumeFrom(w2, k + 1));
    }
  }

  ghost predicate FiresAndCounts(w: World, w': World) {
    && DoneStays(w, w') && |w'.fired| <= |w.fired| + 1
    && w'.signals == w.signals + if w'.fired != w.fired && IsPostProcessable(w') then 1 else 0
  }

  // One segment changed, and if it was done it was left alone.
  lemma OnlyAtDoneStays(w: World, w': World, r: Ref)
    requires OnlyAt(w, w', r) && SegAt(w, r).state != Done && w.fired <= w'.fired
    requires w.files[r.f].state == Done ==> w'.files[r.f].state == Done
    ensures DoneStays(w, w')
  {
    forall x | ValidRef(w, x) && SegAt(w, x).state == Done
      ensures ValidRef(w', x) && SegAt(w', x) == SegAt(w, x)
    {
      assert x != r;
    }
  }

  ghost predicate FiresAndSignals(w: World, w': World) {
    && DoneStays(w, w')
    && |w'.fired| <= |w.fired| + 1
    && w'.signals == w.signals + if w'.fired != w.fired && RequiredDone(w') then 1 else 0
  }

  lemma SegDoneSignals(w: World, r: Ref, err: Option<SegmentError>)
    requires ValidRef(w, r) && SegAt(w, r).state != Done && w.files[r.f].state != Done
    ensures var w' := SegDone(w, r, err);
            FiresAndCounts(w, w')
  {
    SegDoneShape(w, r, err);
    SegDoneOnlyAt(w, r, err);
    OnlyAtDoneStays(w, SegDone(w, r, err), r);
  }

  lemma TriedSignals(w: World, env: Env)
    requires Inv(w) && Enabled(w, Dispatch(env)) && Startable(w, w.queue[0])
    ensures var (w2, a) := Tried(w, env);
            && DoneStays(w, w2) && w2.fired == w.fired && w2.signals == w.signals
            && w2.files[w.queue[0].f].state == Working && SegAt(w2, w.queue[0]).state == Working
  {
    var r := w.queue[0];
    TriedDone(w, env);
    assert FileOK(w.files[r.f], w.state) && SegFits(SegAt(w, r).state, w.files[r.f].state);
    OnlyAtDoneStays(w, Tried(w, env).0, r);
  }

  lemma AskedCounts(w: World, env: Env, q: Request)
    requires Inv(w) && Enabled(w, Dispatch(env)) && Startable(w, w.queue[0])
    ensures var w2 := Tried(w, env).0;
            FiresAndCounts(w, w2.(inflight := w2.inflight + [q], log := w2.log + [q]))
  {
    var w2 := Tried(w, env).0;
    TriedSignals(w, env);
    DoneStaysTwice(w, w2, w2.(inflight := w2.inflight + [q], log := w2.log + [q]));
  }

  lemma DispatchCounts(w: World, env: Env)
    requires Inv(w) && Enabled(w, Dispatch(env))
    ensures FiresAndCounts(w, Step(w, Dispatch(env)))
  {
    var r, w' := w.queue[0], Step(w, Dispatch(env));
    DispatchCases(w, env);
    if Startable(w, r) {
      match Tried(w, env).1
      case Failed(e) => FailedSignals(w, env);
      case Asked(srv, g) => AskedCounts(w, env, Request(r, srv, g));
    } else if Unfinished(SegAt(w, r)) {
      HaltedOnlyAt(Dequeued(w), r);
      OnlyAtDoneStays(w, w', r);
    }
  }

  lemma DispatchSignals(w: World, env: Env)
    requires Inv(w) && Enabled(w, Dispatch(env))
    ensures FiresAndSignals(w, Step(w, Dispatch(env)))
  {
    DispatchCounts(w, env);
    DispatchKeeps(w, env);
    Accounting(Step(w, Dispatch(env)));
  }

  lemma FailedSignals(w: World, env: Env)
    requires Inv(w) && Enabled(w, Dispatch(env)) && Startable(w, w.queue[0])
    requires Tried(w, env).1.Failed?
    ensures var w' := SegFailed(Tried(w, env).0, w.queue[0], Tried(w, env).1.err);
            FiresAndCounts(w, w')
  {
    var (w2, a) := Tried(w, env);
    TriedSignals(w, env);
    SegDoneSignals(w2, w.queue[0], Some(a.err));
    var w3 := SegDone(w2, w.queue[0], Some(a.err));
    DoneStaysTwice(w, w2, w3);
    DoneStaysTwice(w, w3, SegFailed(w2, w.queue[0], a.err));
  }

  lemma ErrorIsIdle(w: World, k: nat, outcome: Outcome)
    requires Enabled(w, Respond(k, outcome)) && outcome != Grabbed
    ensures var w' := Step(w, Respond(k, outcome));
            DoneStays(w, w') && Idle(w, w') && w'.files[w.inflight[k].ref.f].state == w.files[w.inflight[k].ref.f].state
  {
    var q := w.inflight[k];
    HandleErrorIsFailover(SegAt(w, q.ref), q, outcome, w.maxRetry);
  }

  lemma RespondCounts(w: World, k: nat, outcome: Outcome)
    requires Inv(w) && Enabled(w, Respond(k, outcome))
    ensures FiresAndCounts(w, Step(w, Respond(k, outcome)))
  {
    var r, w' := w.inflight[k].ref, Step(w, Respond(k, outcome));
    var w1 := Received(w, k);
    if outcome != Grabbed {
      ErrorIsIdle(w, k, outcome);
    } else if SegAt(w1, r).state != Done {
      assert FileOK(w.files[r.f], w.state) && SegFits(SegAt(w, r).state, w.files[r.f].state);
      SegDoneSignals(w1, r, None);
      DoneStaysTwice(w, w1, w');
    }
  }

  lemma RespondSignals(w: World, k: nat, outcome: Outcome)
    requires Inv(w) && Enabled(w, Respond(k, outcome))
    ensures FiresAndSignals(w, Step(w, Respond(k, outcome)))
  {
    RespondCounts(w, k, outcome);
    RespondKeeps(w, k, outcome);
    Accounting(Step(w, Respond(k, outcome)));
  }

  // Done fires at most once per step, only ever adds to what has fired, and the
  // post-processable signal goes out exactly when it closes the last required file.
  lemma SignalExactlyWhenComplete(w: World, e: Event)
    requires Inv(w) && Enabled(w, e)
    ensures FiresAndSignals(w, Step(w, e))
  {
    match e
    case GrabAll =>
      GrabPendingIdle(w, 0);
      LoopsDoneStay(w, 0);
    case GrabFile(i) =>
      if i < |w.files| {
        GrabFileIdle(w, i);
        GrabFileDoneStays(w, i);
      }
    case Pause =>
    case Resume =>
      if w.state == Paused {
        assert HalfResumed(w, 0);
        ResumeFromIdle(w, 0);
        LoopsDoneStay(w, 0);
        var w1 := ResumeFrom(w, 0);
        DoneStaysTwice(w, w1, w1.(state := Pending));
      }
    case Dispatch(env) => DispatchSignals(w, env);
    case Respond(k, outcome) => RespondSignals(w, k, outcome);
  }

  // ---- Completion ----

  // No segment is lost: once queue and network are empty a grabbed file is Done,
  // if it has segments and none of them is stranded.
  lemma QuietMeansDone(w: World, i: nat)
    requires Inv(w) && Quiet(w) && w.state != Paused && i in w.grabbed
    ensures i < |w.files|
    ensures w.files[i].state == Done <==> w.files[i].segs != [] && forall r: Ref :: r.f == i ==> !Stranded(w, r)
  {
    var f := w.files[i];
    assert FileOK(f, w.state);
    if f.segs != [] && f.state != Done && forall r: Ref :: r.f == i ==> !Stranded(w, r) {
      forall j: nat | j < |f.segs| ensures f.segs[j].state == Done {
        assert SegFits(f.segs[j].state, f.state);
        assert !HasToken(w, Ref(i, j)) && !Stranded(w, Ref(i, j));
        if f.state == Pending { assert NotLostIn(w, i); }
      }
      SumAtMost(f.segs);
    }
  }

  // Network events neither pause the grabber nor change what is asked for.
  ghost predicate SameDemand(w: World, w': World) {
    && w'.grabbed == w.grabbed && |w'.files| == |w.files|
    && (w.state != Paused ==> w'.state != Paused)
    && forall i :: 0 <= i < |w.files| ==>
         w'.files[i].required == w.files[i].required && |w'.files[i].segs| == |w.files[i].segs|
  }

  lemma DispatchStaysAwake(w: World, env: Env)
    requires Inv(w) && Enabled(w, Dispatch(env)) && w.state != Paused
    ensures Step(w, Dispatch(env)).state != Paused
  {
    DispatchCases(w, env);
    TriedOnlyAt(w, env);
    var (w2, a) := Tried(w, env);
    if a.Failed? { SegDoneOnlyAt(w2, w.queue[0], Some(a.err)); }
  }

  lemma DispatchSameDemand(w: World, env: Env)
    requires Inv(w) && Enabled(w, Dispatch(env))
    ensures SameDemand(w, Step(w, Dispatch(env)))
  {
    DispatchOnlyAt(w, env);
    if w.state != Paused { DispatchStaysAwake(w, env); }
  }

  lemma RespondSameDemand(w: World, k: nat, outcome: Outcome)
    requires Inv(w) && Enabled(w, Respond(k, outcome))
    ensures SameDemand(w, Step(w, Respond(k, outcome)))
  {
    if outcome == Grabbed { SegDoneOnlyAt(Received(w, k), w.inflight[k].ref, None); }
  }

  lemma NetworkSameDemand(w: World, e: Event)
    requires Inv(w) && Network(e) && Enabled(w, e)
    ensures SameDemand(w, Step(w, e))
  {
    match e
    case Dispatch(env) => DispatchSameDemand(w, env);
    case Respond(k, outcome) => RespondSameDemand(w, k, outcome);
  }

  lemma {:induction false} RunSameDemand(w: World, es: seq<Event>, w': World)
    requires Inv(w) && NetworkRun(w, es, w')
    ensures Inv(w') && SameDemand(w, w')
    ensures forall i :: 0 <= i < |w.files| && w.files[i].state == Done ==> w'.files[i].state == Done
    decreases |es|
  {
    if es != [] {
      StepKeeps(w, es[0]);
      NetworkSameDemand(w, es[0]);
      SignalExactlyWhenComplete(w, es[0]);
      RunSameDemand(Step(w, es[0]), es[1..], w');
    }
  }

  lemma {:induction false} RunStrandsNone(w: World, es: seq<Event>, w': World, r: Ref)
    requires Inv(w) && w.state != Paused && NetworkRun(w, es, w')
    ensures Stranded(w', r) <==> Stranded(w, r)
    decreases |es|
  {
    if es != [] {
      StepKeeps(w, es[0]);
      NetworkSameDemand(w, es[0]);
      StrandedAfter(w, es[0], r);
      RunStrandsNone(Step(w, es[0]), es[1..], w', r);
    }
  }

  lemma {:induction false} DrainIsRun(pick: Scheduler, n: nat, w: World, es: seq<Event>, w': World)
    requires Inv(w) && Fair(pick) && Drains(pick, n, w, es, w')
    ensures NetworkRun(w, es, w')
    decreases |es|
  {
    if es != [] {
      StepKeeps(w, es[0]);
      DrainIsRun(pick, n + 1, Step(w, es[0]), es[1..], w');
    }
  }

  lemma {:induction false} GrabAllGrabs(w: World, k: nat)
    requires k <= |w.files|
    ensures var w' := GrabPendingFrom(w, k);
            && w'.state == w.state && w.grabbed <= w'.grabbed
            && (forall i: nat :: i < |w.files| ==> w'.files[i] == w.files[i])
            && forall i: nat :: k <= i < |w.files| && w.files[i].state == Pending ==> i in w'.grabbed
    decreases |w.files| - k
  {
    if k < |w.files| {
      GrabAllGrabs(if w.files[k].state == Pending then GrabFileAt(w, k) else w, k + 1);
    }
  }

  // Every required file can finish: it has segments, and none is stranded.
  ghost predicate Finishable(w: World) {
    && (forall i :: 0 <= i < |w.files| && w.files[i].required ==> w.files[i].segs != [])
    && forall r :: !Stranded(w, r)
  }

  lemma RunKeepsFinishable(w: World, es: seq<Event>, w': World)
    requires Inv(w) && w.state != Paused && NetworkRun(w, es, w')
    ensures Finishable(w') <==> Finishable(w)
  {
    RunSameDemand(w, es, w');
    forall r ensures Stranded(w', r) <==> Stranded(w, r) { RunStrandsNone(w, es, w', r); }
    assert forall i :: 0 <= i < |w.files| ==> |w'.files[i].segs| == |w.files[i].segs|;
  }

  // With queue and network empty, and everything asked for, every required file
  // is Done if and only if it could be.
  lemma QuietIsComplete(w: World)
    requires Inv(w) && Quiet(w) && w.state != Paused
    requires forall i: nat :: i < |w.files| && w.files[i].required && w.files[i].state != Done ==> i in w.grabbed
    ensures RequiredDone(w) <==> Finishable(w)
  {
    if Finishable(w) {
      forall i: nat | i < |w.files| && w.files[i].required ensures w.files[i].state == Done {
        if w.files[i].state != Done { QuietMeansDone(w, i); }
      }
    }
    if RequiredDone(w) {
      forall i | 0 <= i < |w.files| && w.files[i].required ensures w.files[i].segs != [] {
        assert FileOK(w.files[i], w.state);
      }
      forall r | ValidRef(w, r) ensures w.files[r.f].state != Working {
        assert FileOK(w.files[r.f], w.state);
      }
    }
  }

  // After GrabAll on a grabber that is not paused, any run that empties queue and
  // network leaves every required file Done, and the counters saying so, if and
  // only if each has segments and none was stranded at the call.
  lemma GrabAllRunCompletes(w: World, es: seq<Event>, w': World)
    requires Inv(w) && w.state != Paused && NetworkRun(Step(w, GrabAll), es, w') && Quiet(w')
    ensures Inv(w') && (RequiredDone(w') <==> Finishable(w)) && (IsPostProcessable(w') <==> Finishable(w))
    ensures IsPostProcessable(w') ==> w'.required == |w'.doneFiles|
  {
    var w1 := Step(w, GrabAll);
    AllAskedFor(w);
    RunSameDemand(w1, es, w');
    RunKeepsFinishable(w1, es, w');
    QuietIsComplete(w');
    Accounting(w');
  }

  // What GrabAll leaves to be done is being done, and could be as before.
  lemma AllAskedFor(w: World)
    requires Inv(w) && w.state != Paused
    ensures var w1 := Step(w, GrabAll);
            && Inv(w1) && w1.state == w.state && (Finishable(w1) <==> Finishable(w))
            && forall i: nat :: i < |w1.files| && w1.files[i].required && w1.files[i].state != Done ==> i in w1.grabbed
  {
    var w1 := Step(w, GrabAll);
    StepKeeps(w, GrabAll);
    GrabAllGrabs(w, 0);
    forall r ensures Stranded(w1, r) <==> Stranded(w, r) { StrandedAfter(w, GrabAll, r); }
    forall i: nat | i < |w1.files| && w1.files[i].required && w1.files[i].state != Done ensures i in w1.grabbed {
      assert FileOK(w.files[i], w.state);
    }
  }

  // And whatever the servers answer and in whatever order, it does run dry.
  lemma GrabAllCompletes(w: World, pick: Scheduler, n: nat) returns (es: seq<Event>, w': World)
    requires Inv(w) && w.state != Paused && Fair(pick)
    ensures Drains(pick, n, Step(w, GrabAll), es, w')
    ensures Quiet(w') && Inv(w') && (RequiredDone(w') <==> Finishable(w)) && (IsPostProcessable(w') <==> Finishable(w))
    ensures IsPostProcessable(w') ==> w'.required == |w'.doneFiles|
  {
    var w1 := Step(w, GrabAll);
    StepKeeps(w, GrabAll);
    es, w' := EveryScheduleDrains(pick, n, w1);
    DrainIsRun(pick, n, w1, es, w');
    GrabAllRunCompletes(w, es, w');
  }

  // ---- The call that strands a segment ----

  ghost function OneSegment(g: State, f: State, s: State, queue: seq<Ref>): World {
    World(1, 3, g, [File([Seg(1, s, None, {}, {}, 0)], ["g"], f, 0, true)], [], 1, 0, 0, queue, [], [], [], {0})
  }

  lemma OneSegmentGrabbed()
    ensures Step(FromNZB([FileSpec([1], ["g"], false, false)], 1, 3, None), GrabAll)
         == OneSegment(Pending, Pending, Pending, [Ref(0, 0)])
  {
    var specs := [FileSpec([1], ["g"], false, false)];
    var w := NewGrabber(specs, 1, 3);
    var f := File([Seg(1, Pending, None, {}, {}, 0)], ["g"], Pending, 0, true);
    assert NewFile(specs[0]) == f;
    assert w.files == [f];
    assert Sum([f], RequiredOne) == 1 + Sum([], RequiredOne) by { assert [f][1..] == []; }
    assert FileRefs(0, 1) == [Ref(0, 0)];
    assert GrabFileAt(w, 0) == OneSegment(Pending, Pending, Pending, [Ref(0, 0)]);
  }

  // What a paused grabber's refusal leaves of the segment and its file.
  lemma OneSegmentRefused(s: State)
    requires s == Paused || s == Pending
    ensures SegWorking(OneSegment(Paused, s, s, []), Ref(0, 0)).1
         == OneSegment(Paused, if s == Pending then Working else s, s, [])
  {
    var w, f1 := OneSegment(Paused, s, s, []), SegWorks(s, s, Paused).2;
    var file := w.files[0];
    assert file.segs[0 := file.segs[0].(state := s)] == file.segs;
    assert w.files[0 := file.(state := f1)] == OneSegment(Paused, f1, s, []).files;
  }

  lemma OneSegmentSteps(env: Env)
    ensures Step(OneSegment(Pending, Pending, Pending, [Ref(0, 0)]), Pause)
         == OneSegment(Paused, Paused, Paused, [Ref(0, 0)])
    ensures Step(OneSegment(Paused, Paused, Paused, [Ref(0, 0)]), Dispatch(env))
         == OneSegment(Paused, Paused, Paused, [])
    ensures Step(OneSegment(Paused, Pending, Pending, [Ref(0, 0)]), Dispatch(env))
         == OneSegment(Paused, Working, Pending, [])
  {
    var w := OneSegment(Pending, Pending, Pending, [Ref(0, 0)]);
    assert PauseSegs(w.files[0].segs) == OneSegment(Paused, Paused, Paused, []).files[0].segs;
    assert PauseFiles(w.files) == OneSegment(Paused, Paused, Paused, []).files;
    OneSegmentRefused(Paused);
    OneSegmentRefused(Pending);
  }

  lemma OneSegmentWoken()
    ensures Step(OneSegment(Paused, Paused, Paused, []), GrabFile(0))
         == OneSegment(Paused, Pending, Pending, [Ref(0, 0)])
  {
    var w := OneSegment(Paused, Paused, Paused, []);
    assert ResumeSegs(w.files[0].segs) == OneSegment(Paused, Pending, Pending, []).files[0].segs;
    assert ResumeFile(w, 0) == OneSegment(Paused, Pending, Pending, []);
    assert FileRefs(0, 1) == [Ref(0, 0)];
  }

  lemma OneSegmentNotRescued()
    ensures Step(OneSegment(Paused, Working, Pending, []), Resume) == OneSegment(Pending, Working, Pending, [])
  {
    var w := OneSegment(Paused, Working, Pending, []);
    assert ResumeOne(w, 0) == w;
    assert ResumeFrom(w, 1) == w;
  }

  // A file of one segment, grabbed and then paused: GrabFile under the paused
  // grabber, the dispatch of the new token, then Resume. The grabber is not paused
  // and has nothing left to do, and the segment is stranded.
  lemma GrabFileWhilePausedStrands(env: Env)
    ensures var w1 := Step(Step(FromNZB([FileSpec([1], ["g"], false, false)], 1, 3, None), GrabAll), Pause);
            && Enabled(w1, Dispatch(env))
            && var w2 := Step(w1, Dispatch(env));
            && !Allowed(w2, GrabFile(0))
            && var w3 := Step(w2, GrabFile(0));
            && Enabled(w3, Dispatch(env))
            && var w4 := Step(Step(w3, Dispatch(env)), Resume);
            && w4.state != Paused && Quiet(w4) && 0 in w4.grabbed && Stranded(w4, Ref(0, 0))
  {
    OneSegmentGrabbed();
    OneSegmentSteps(env);
    OneSegmentWoken();
    OneSegmentNotRescued();
  }
}
