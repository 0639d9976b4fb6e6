// The one thing that can go wrong with the engine: a segment without a token in
// a file that is under way. It is left so by a dispatch that a paused grabber
// refuses after the file has been started, exactly then, and until the grabber
// is paused again. Pausing and resuming puts any reachable state in order.
module GrabStranding {
  import opened Basics
  import opened GrabModel
  import opened GrabInvariant
  import opened GrabNetwork
  import opened GrabApi

  // Nothing is queued or in flight that would finish the segment, and no call but
  // Pause touches a file that is Working.
  ghost predicate Stranded(w: World, r: Ref) {
    ValidRef(w, r) && w.files[r.f].state == Working && Unfinished(SegAt(w, r)) && !HasToken(w, r)
  }

  // The dispatch of a segment's only token, the first of its file, under a paused
  // grabber.
  ghost predicate Strands(w: World, e: Event, r: Ref) {
    && e.Dispatch? && w.queue != [] && w.queue[0] == r && ValidRef(w, r)
    && w.state == Paused && w.files[r.f].state == Pending && Unfinished(SegAt(w, r))
    && r !in w.queue[1..] && !InFlight(w, r)
  }

  // ---- API calls ----

  lemma GrabFileTokens(w: World, i: nat, x: Ref)
    requires i < |w.files| && (x.f != i || !Asleep(w.files[i].state))
    ensures HasToken(GrabFileAt(w, i), x) <==> HasToken(w, x)
  {
    if x.f != i { assert x !in FileRefs(i, |w.files[i].segs|); }
  }

  lemma GrabFileStrandsNone(w: World, i: nat, r: Ref)
    requires i < |w.files|
    ensures Stranded(GrabFileAt(w, i), r) <==> Stranded(w, r)
  {
    GrabFileWakes(w, i);
    if r.f != i || !Asleep(w.files[i].state) { GrabFileTokens(w, i, r); }
  }

  lemma {:induction false} GrabAllStrandsNone(w: World, k: nat, r: Ref)
    requires k <= |w.files|
    ensures Stranded(GrabPendingFrom(w, k), r) <==> Stranded(w, r)
    decreases |w.files| - k
  {
    if k < |w.files| {
      if w.files[k].state == Pending {
        GrabFileStrandsNone(w, k, r);
        GrabAllStrandsNone(GrabFileAt(w, k), k + 1, r);
      } else {
        GrabAllStrandsNone(w, k + 1, r);
      }
    }
  }

  lemma ResumeFileStrandsNone(w: World, k: nat, r: Ref)
    requires k < |w.files|
    ensures Stranded(ResumeFile(w, k), r) <==> Stranded(w, r)
  {
    assert forall x :: HasToken(w, x) <==> HasToken(ResumeFile(w, k), x);
  }

  lemma {:induction false} ResumeStrandsNone(w: World, k: nat, r: Ref)
    requires k <= |w.files|
    ensures Stranded(ResumeFrom(w, k), r) <==> Stranded(w, r)
    decreases |w.files| - k
  {
    if k < |w.files| {
      var w1, w2 := ResumeFile(w, k), ResumeOne(w, k);
      if w.files[k].required {
        ResumeFileStrandsNone(w, k, r);
        if w1.files[k].state == Pending { GrabFileStrandsNone(w1, k, r); }
      }
      ResumeStrandsNone(w2, k + 1, r);
    }
  }

  lemma PauseFreesAll(w: World, r: Ref)
    requires Coherent(w) && w.state != Paused
    ensures !Stranded(PauseGrabber(w), r)
  {
    PausedFiles(w);
    if r.f < |w.files| { assert InStep(PauseGrabber(w).files[r.f], Paused); }
  }

  // ---- Network events ----

  // One segment changes, and afterwards it is finished or has a token; the
  // others keep theirs, and a file that starts had one for each of them.
  lemma StepStrandsNone(w: World, w': World, x: Ref, r: Ref)
    requires Inv(w) && Coherent(w') && OnlyAt(w, w', x) && x.f in w.grabbed
    requires forall y :: y != x ==> (HasToken(w', y) <==> HasToken(w, y))
    requires HasToken(w, x) && (Unfinished(SegAt(w', x)) && w'.files[x.f].state == Working ==> HasToken(w', x))
    requires w.files[x.f].state == Working ==> w'.files[x.f].state == Working || w'.files[x.f].state == Done
    requires w'.files[x.f].state == Working ==> w.files[x.f].state == Working || w.files[x.f].state == Pending
    ensures Stranded(w', r) <==> Stranded(w, r)
  {
    if ValidRef(w, r) && r.f == x.f && r != x {
      assert SegAt(w', r) == SegAt(w, r);
      if w.files[r.f].state == Pending && Unfinished(SegAt(w, r)) {
        assert NotLostIn(w, r.f);
        assert HasToken(w, Ref(r.f, r.s));
      }
      if w'.files[r.f].state == Done {
        assert FileOK(w'.files[r.f], w'.state) && SegFits(SegAt(w', r).state, Done);
      }
    }
  }

  lemma DispatchTokensKept(w: World, y: Ref)
    requires w.queue != [] && y != w.queue[0]
    ensures y in w.queue[1..] <==> y in w.queue
  {
  }

  lemma AskedStrandsNone(w: World, env: Env, q: Request, r: Ref)
    requires Inv(w) && w.queue != [] && OwnedRef(w, w.queue[0]) && Tried(w, env).1 == Asked(q.server, q.group)
    requires q.ref == w.queue[0] && Startable(w, q.ref) && w.files[q.ref.f].required
    ensures var w2 := Tried(w, env).0;
            Stranded(w2.(inflight := w2.inflight + [q], log := w2.log + [q]), r) <==> Stranded(w, r)
  {
    var x, w2 := q.ref, Tried(w, env).0;
    var w' := w2.(inflight := w2.inflight + [q], log := w2.log + [q]);
    TriedOnlyAt(w, env);
    DispatchAsked(w, env, q);
    assert FileOK(w.files[x.f], w.state) && SegFits(SegAt(w, x).state, w.files[x.f].state);
    assert q in w'.inflight;
    assert forall p :: p in w'.inflight <==> p in w.inflight || p == q;
    forall y | y != x ensures HasToken(w', y) <==> HasToken(w, y) {
      DispatchTokensKept(w, y);
    }
    StepStrandsNone(w, w', x, r);
  }

  lemma FailedStrandsNone(w: World, env: Env, e: SegmentError, r: Ref)
    requires Inv(w) && w.queue != [] && OwnedRef(w, w.queue[0]) && Tried(w, env).1 == Failed(e)
    requires Startable(w, w.queue[0]) && w.files[w.queue[0].f].required
    ensures Stranded(SegFailed(Tried(w, env).0, w.queue[0], e), r) <==> Stranded(w, r)
  {
    var x, w2 := w.queue[0], Tried(w, env).0;
    var w' := SegFailed(w2, x, e);
    TriedOnlyAt(w, env);
    SegDoneOnlyAt(w2, x, Some(e));
    FailedOnlyAt(w, env, e);
    DispatchFailed(w, env, e);
    assert FileOK(w.files[x.f], w.state) && SegFits(SegAt(w, x).state, w.files[x.f].state);
    forall y | y != x ensures HasToken(w', y) <==> HasToken(w, y) {
      DispatchTokensKept(w, y);
    }
    StepStrandsNone(w, w', x, r);
  }

  lemma DroppedStrandsNone(w: World, r: Ref)
    requires Inv(w) && w.queue != [] && OwnedRef(w, w.queue[0]) && !Unfinished(SegAt(w, w.queue[0]))
    ensures Stranded(Dequeued(w), r) <==> Stranded(w, r)
  {
    var w' := Dequeued(w);
    DispatchDropped(w);
    forall y | y != w.queue[0] ensures HasToken(w', y) <==> HasToken(w, y) {
      DispatchTokensKept(w, y);
    }
    StepStrandsNone(w, w', w.queue[0], r);
  }

  // The refused dispatch strands its segment, unless that has another token.
  lemma HaltedStrands(w: World, r: Ref)
    requires Inv(w) && w.queue != [] && OwnedRef(w, w.queue[0])
    requires w.files[w.queue[0].f].state == Pending && w.files[w.queue[0].f].required
    requires Unfinished(SegAt(w, w.queue[0]))
    ensures Stranded(Halted(Dequeued(w), w.queue[0].f), r) <==>
              Stranded(w, r) || (r == w.queue[0] && r !in w.queue[1..] && !InFlight(w, r))
  {
    var x, w' := w.queue[0], Halted(Dequeued(w), w.queue[0].f);
    HaltedOnlyAt(Dequeued(w), x);
    if r != x {
      DispatchTokensKept(w, r);
      if ValidRef(w, r) && r.f == x.f && Unfinished(SegAt(w, r)) {
        assert NotLostIn(w, r.f);
        assert HasToken(w, Ref(r.f, r.s));
      }
    }
  }

  lemma DispatchStrands(w: World, env: Env, r: Ref)
    requires Inv(w) && Enabled(w, Dispatch(env))
    ensures Stranded(Step(w, Dispatch(env)), r) <==> Stranded(w, r) || Strands(w, Dispatch(env), r)
  {
    var x := w.queue[0];
    DispatchCases(w, env);
    if Startable(w, x) {
      match Tried(w, env).1
      case Failed(e) => FailedStrandsNone(w, env, e, r);
      case Asked(srv, g) => AskedStrandsNone(w, env, Request(x, srv, g), r);
    } else if Unfinished(SegAt(w, x)) {
      HaltedStrands(w, r);
    } else {
      DroppedStrandsNone(w, r);
    }
  }

  // What a response does to the segment and the file it is about.
  lemma ResponseShape(w: World, k: nat, outcome: Outcome)
    requires Enabled(w, Respond(k, outcome))
    ensures var x, w' := w.inflight[k].ref, Step(w, Respond(k, outcome));
            && OnlyAt(w, w', x) && w'.inflight == RemoveAt(w.inflight, k)
            && (outcome == Grabbed ==> w'.queue == w.queue && SegAt(w', x).state == Done)
            && (outcome != Grabbed ==> w'.queue == w.queue + [x])
            && (w'.files[x.f].state == w.files[x.f].state || w'.files[x.f].state == Done)
  {
    if outcome == Grabbed { SegDoneOnlyAt(Received(w, k), w.inflight[k].ref, None); }
  }

  lemma RespondStrandsNone(w: World, k: nat, outcome: Outcome, r: Ref)
    requires Inv(w) && Enabled(w, Respond(k, outcome))
    ensures Stranded(Step(w, Respond(k, outcome)), r) <==> Stranded(w, r)
  {
    var x, w' := w.inflight[k].ref, Step(w, Respond(k, outcome));
    ReceivedKeeps(w, k);
    RespondKeeps(w, k, outcome);
    ResponseShape(w, k, outcome);
    assert w.inflight[k] in w.inflight;
    assert outcome != Grabbed ==> w'.queue[|w.queue|] == x;
    StepStrandsNone(w, w', x, r);
  }

  // ---- Exactly when ----

  // One event, whatever it is: the segments stranded afterwards are those that
  // were, unless the grabber was just paused, and the one just stranded.
  lemma StrandedAfter(w: World, e: Event, r: Ref)
    requires Inv(w) && Enabled(w, e)
    ensures Stranded(Step(w, e), r) <==> (Stranded(w, r) && !(e.Pause? && w.state != Paused)) || Strands(w, e, r)
  {
    match e
    case GrabAll => GrabAllStrandsNone(w, 0, r);
    case GrabFile(i) => if i < |w.files| { GrabFileStrandsNone(w, i, r); }
    case Pause => if w.state != Paused { PauseFreesAll(w, r); }
    case Resume =>
      if w.state == Paused {
        ResumeStrandsNone(w, 0, r);
        var w1 := ResumeFrom(w, 0);
        assert forall x :: HasToken(w1.(state := Pending), x) <==> HasToken(w1, x);
      }
    case Dispatch(env) => DispatchStrands(w, env, r);
    case Respond(k, outcome) => RespondStrandsNone(w, k, outcome, r);
  }

  // No event of the run pauses a grabber that is not paused.
  ghost predicate NeverPauses(w: World, es: seq<Event>)
    decreases |es|
  {
    es == [] || (Enabled(w, es[0]) && !(es[0].Pause? && w.state != Paused) && NeverPauses(Step(w, es[0]), es[1..]))
  }

  // Until the grabber is paused, whatever else is asked of it and whatever the
  // servers answer, a stranded segment stays stranded and its file Working.
  lemma {:induction false} StrandedStays(w: World, es: seq<Event>, w': World, r: Ref)
    requires Inv(w) && Stranded(w, r) && Runs(w, es, w') && NeverPauses(w, es)
    ensures Stranded(w', r)
    decreases |es|
  {
    if es != [] {
      StepKeeps(w, es[0]);
      StrandedAfter(w, es[0], r);
      StrandedStays(Step(w, es[0]), es[1..], w', r);
    }
  }

  // Asking for any paused file of a paused grabber: a dispatch of any unfinished
  // segment of it then starts the file and not the segment, and makes no request.
  lemma AskedWhilePaused(w: World, i: nat, j: nat, env: Env)
    requires Inv(w) && w.state == Paused && i < |w.files| && w.files[i].state == Paused
    requires j < |w.files[i].segs| && w.files[i].segs[j].state != Done
    ensures var w1 := GrabFileAt(w, i);
            var w2 := DispatchSeg(w1, Ref(i, j), env);
            && w1.files[i].state == Pending && SegAt(w1, Ref(i, j)).state == Pending
            && w2 == Halted(w1, i)
            && w2.files[i].state == Working && SegAt(w2, Ref(i, j)).state == Pending
            && w2.queue == w1.queue && w2.inflight == w1.inflight
  {
    var w1 := GrabFileAt(w, i);
    GrabFileInv(w, i);
    GrabFileWakes(w, i);
    assert FileOK(w.files[i], Paused) && SegFits(w.files[i].segs[j].state, Paused);
    StartCases(w1, Ref(i, j));
  }

  // ---- Putting it right ----

  // If the grabber is resumed before anything of the file is dispatched, nothing
  // has happened.
  lemma ResumedInTime(w: World, i: nat)
    requires Inv(w) && Orderly(w) && w.state == Paused && i < |w.files|
    ensures Orderly(ResumeGrabber(GrabFileAt(w, i)))
  {
    var w1 := GrabFileAt(w, i);
    GrabFileKeeps(w, i);
    GrabFileWakes(w, i);
    forall k | 0 <= k < |w1.files| ensures w1.files[k].state != Working {
      assert InStep(w.files[k], Paused);
    }
    ResumeKeeps(w1);
  }

  // From any state any run can reach, resuming if need be, then pausing and
  // resuming, leaves the engine in order and every segment with what it needs.
  lemma PauseAndResumeRestores(w: World)
    requires Inv(w)
    ensures var w1 := ResumeGrabber(w);
            var w2 := ResumeGrabber(PauseGrabber(w1));
            Inv(w2) && Orderly(w2) && w2.state != Paused && forall r :: !Stranded(w2, r)
  {
    var w1 := ResumeGrabber(w);
    ResumeKeeps(w);
    PauseKeeps(w1);
    ResumeKeeps(PauseGrabber(w1));
    OrderlyHasNoneStranded(ResumeGrabber(PauseGrabber(w1)));
  }

  lemma OrderlyHasNoneStranded(w: World)
    requires Inv(w) && Orderly(w)
    ensures forall r :: !Stranded(w, r)
  {
    forall r | ValidRef(w, r) && w.files[r.f].state == Working && Unfinished(SegAt(w, r)) ensures HasToken(w, r) {
      assert InStep(w.files[r.f], w.state);
      assert NotLostIn(w, r.f);
      assert HasToken(w, Ref(r.f, r.s));
    }
  }
}
