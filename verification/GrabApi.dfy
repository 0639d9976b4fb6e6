// GrabFile, GrabAll, Pause and Resume keep the invariant, so every reachable state
// satisfies it. They also keep the engine orderly, GrabFile exactly when it does
// not wake a paused file under a paused grabber.
module GrabApi {
  import opened Basics
  import opened GrabModel
  import opened GrabInvariant
  import opened GrabNetwork

  // The part of the invariant that does not depend on the grabber's state.
  ghost predicate Books(w: World) {
    Counted(w) && Failures(w) && FiredOnce(w) && LoggedInOrder(w) && Tokens(w)
  }

  // Segments only moved between states other than Done.
  ghost predicate Restated(f: File, f': File) {
    && |f'.segs| == |f.segs| && f'.groups == f.groups && f'.done == f.done
    && (f.required ==> f'.required)
    && (f'.state == Done <==> f.state == Done)
    && forall j :: 0 <= j < |f.segs| ==>
         && f'.segs[j] == f.segs[j].(state := f'.segs[j].state)
         && (f'.segs[j].state == Done <==> f.segs[j].state == Done)
  }

  lemma RestatedSums(f: File, f': File)
    requires Restated(f, f')
    ensures Sum(f'.segs, DoneOne) == Sum(f.segs, DoneOne)
    ensures FailedIn(f') == FailedIn(f)
  {
    SumBelow(f.segs, f'.segs, DoneOne, DoneOne);
    SumBelow(f'.segs, f.segs, DoneOne, DoneOne);
    SumBelow(f.segs, f'.segs, FailedOne, FailedOne);
    SumBelow(f'.segs, f.segs, FailedOne, FailedOne);
  }

  ghost predicate AllRestated(w: World, w': World) {
    && w'.servers == w.servers && w'.log == w.log && w'.fired == w.fired
    && w'.failedSegments == w.failedSegments
    && |w'.files| == |w.files|
    && forall i :: 0 <= i < |w.files| ==> Restated(w.files[i], w'.files[i])
  }

  lemma RestatedBooks(w: World, w': World)
    requires Failures(w) && LoggedInOrder(w) && AllRestated(w, w')
    ensures Failures(w') && LoggedInOrder(w')
  {
    forall i | 0 <= i < |w.files| ensures FailedIn(w'.files[i]) == FailedIn(w.files[i]) {
      RestatedSums(w.files[i], w'.files[i]);
    }
    SumBelow(w.files, w'.files, FailedIn, FailedIn);
    SumBelow(w'.files, w.files, FailedIn, FailedIn);
    forall x | ValidRef(w', x)
      ensures ValidRef(w, x) && SegOK(SegAt(w', x), w'.servers) && SegAt(w', x).failedServer == SegAt(w, x).failedServer
    {
      assert Restated(w.files[x.f], w'.files[x.f]);
      assert SegOK(SegAt(w, x), w.servers);
    }
    forall a | 0 <= a < |w'.log| ensures ValidRef(w', w'.log[a].ref) {
      assert Restated(w.files[w.log[a].ref.f], w'.files[w.log[a].ref.f]);
    }
  }

  // ---- One file ----

  lemma PausedFile(f: File, g: State)
    requires FileOK(f, g)
    ensures Restated(f, FilePause(f)) && FilePause(f).required == f.required
    ensures FileOK(FilePause(f), Paused) && InStep(FilePause(f), Paused)
  {
    var f' := FilePause(f);
    forall j | 0 <= j < |f.segs|
      ensures f'.segs[j] == f.segs[j].(state := f'.segs[j].state)
      ensures f'.segs[j].state == Done <==> f.segs[j].state == Done
      ensures SegFits(f'.segs[j].state, f'.state)
    {
      assert SegFits(f.segs[j].state, f.state);
    }
    RestatedSums(f, f');
  }

  lemma ResumedFile(f: File, g: State)
    requires FileOK(f, g) && f.state == Paused
    ensures Restated(f, FileResume(f)) && FileResume(f).state == Pending && FileResume(f).required
    ensures forall h :: FileOK(FileResume(f), h)
  {
    var f' := FileResume(f);
    forall j | 0 <= j < |f.segs|
      ensures f'.segs[j] == f.segs[j].(state := f'.segs[j].state)
      ensures f'.segs[j].state == Done <==> f.segs[j].state == Done
      ensures SegFits(f'.segs[j].state, Pending)
    {
      assert SegFits(f.segs[j].state, f.state);
    }
    RestatedSums(f, f');
  }

  lemma SelfRestated(f: File)
    ensures Restated(f, f)
  {
  }

  lemma ResumeFileBooks(w: World, i: nat, g: State)
    requires Books(w) && i < |w.files| && FileOK(w.files[i], g)
    ensures Books(ResumeFile(w, i))
  {
    var f, w' := w.files[i], ResumeFile(w, i);
    if f.state == Paused {
      ResumedFile(f, g);
      SumUpdate(w.files, i, FileResume(f), OpenOne);
      forall k | 0 <= k < |w.files| ensures Restated(w.files[k], w'.files[k]) {
        SelfRestated(w.files[k]);
      }
      RestatedBooks(w, w');
      assert forall x :: OwnedRef(w, x) ==> OwnedRef(w', x);
      assert Tokens(w');
    }
  }

  lemma ResetBooks(w: World)
    requires Books(w)
    ensures Books(ResetGrabbed(w))
  {
    var w' := ResetGrabbed(w);
    if IsPostProcessable(w) {
      assert forall x :: ValidRef(w', x) <==> ValidRef(w, x);
      assert forall x :: ValidRef(w, x) ==> SegAt(w', x) == SegAt(w, x);
      assert w'.fired[|w'.fired| - 0..] == [];
      assert forall x :: OwnedRef(w, x) ==> OwnedRef(w', x);
      assert Tokens(w');
    }
  }

  lemma EnqueueBooks(w: World, i: nat)
    requires Books(w) && i < |w.files| && w.files[i].required
    ensures Books(Enqueue(w, i))
  {
    var w' := Enqueue(w, i);
    assert forall x :: ValidRef(w', x) <==> ValidRef(w, x);
    assert forall x :: ValidRef(w, x) ==> SegAt(w', x) == SegAt(w, x);
    assert forall x :: OwnedRef(w, x) ==> OwnedRef(w', x);
    assert Tokens(w');
  }

  lemma EnqueuedIsThere(w: World, i: nat)
    requires i < |w.files|
    ensures NotLostIn(Enqueue(w, i), i)
    ensures forall x :: HasToken(w, x) ==> HasToken(Enqueue(w, i), x)
  {
    var w' := Enqueue(w, i);
    forall j: nat | j < |w.files[i].segs| ensures Ref(i, j) in w'.queue {
      assert w'.queue[|w.queue| + j] == Ref(i, j);
    }
    assert forall x :: x in w.queue ==> x in w'.queue;
  }

  ghost predicate Asleep(s: State) {
    s == Pending || s == Paused
  }

  // What asking for a file that is Pending or Paused comes to.
  ghost predicate Woken(w: World, i: nat, w': World)
    requires i < |w.files|
  {
    && w'.state == w.state && w'.files == w.files[i := FileResume(w.files[i])]
    && w'.grabbed == w.grabbed + {i}
    && (forall x :: HasToken(w, x) ==> HasToken(w', x))
    && w'.files[i].state == Pending && NotLostIn(w', i)
  }

  lemma ResetWoken(w: World, i: nat, w': World)
    requires i < |w.files| && Woken(ResetGrabbed(w), i, w')
    ensures Woken(w, i, w')
  {
    assert forall x :: HasToken(w, x) ==> HasToken(ResetGrabbed(w), x);
  }

  lemma PendingWoken(w: World, i: nat)
    requires i < |w.files| && w.files[i].state == Pending
    ensures Woken(w, i, Enqueue(w, i))
  {
    EnqueuedIsThere(w, i);
    assert w.files[i := w.files[i]] == w.files;
  }

  lemma PausedWoken(w: World, i: nat)
    requires i < |w.files| && w.files[i].state == Paused
    ensures Woken(w, i, Enqueue(ResumeFile(w, i), i))
  {
    var w1 := ResumeFile(w, i);
    EnqueuedIsThere(w1, i);
    assert forall x :: HasToken(w, x) ==> HasToken(w1, x);
  }

  lemma GrabFileBooks(w: World, i: nat, g: State)
    requires Books(w) && i < |w.files| && FileOK(w.files[i], g)
    ensures Books(GrabFileAt(w, i))
  {
    var w1 := ResetGrabbed(w);
    ResetBooks(w);
    if w.files[i].state == Paused {
      ResumeFileBooks(w1, i, g);
      EnqueueBooks(ResumeFile(w1, i), i);
    } else if w.files[i].state == Pending {
      EnqueueBooks(w1, i);
    }
  }

  lemma GrabFileWakes(w: World, i: nat)
    requires i < |w.files|
    ensures var w' := GrabFileAt(w, i);
            if Asleep(w.files[i].state) then Woken(w, i, w') else w' == ResetGrabbed(w)
  {
    var w1 := ResetGrabbed(w);
    if w.files[i].state == Paused {
      PausedWoken(w1, i);
      ResetWoken(w, i, GrabFileAt(w, i));
    } else if w.files[i].state == Pending {
      PendingWoken(w1, i);
      ResetWoken(w, i, GrabFileAt(w, i));
    }
  }

  lemma PendingFits(f: File, g: State)
    requires FileOK(f, g) && Asleep(f.state)
    ensures forall h :: FileOK(FileResume(f), h)
  {
    if f.state == Paused { ResumedFile(f, g); }
  }

  // ---- GrabFile and GrabAll ----

  lemma GrabFileHeld(w: World, i: nat)
    requires PendingHeld(w) && i < |w.files|
    ensures PendingHeld(GrabFileAt(w, i))
  {
    var w' := GrabFileAt(w, i);
    GrabFileWakes(w, i);
    forall k: nat | k < |w'.files| && k in w'.grabbed && w'.files[k].state == Pending ensures NotLostIn(w', k) {
      if k != i || !Asleep(w.files[i].state) { assert NotLostIn(w, k); }
    }
  }

  lemma GrabFileInv(w: World, i: nat)
    requires Inv(w) && i < |w.files|
    ensures Inv(GrabFileAt(w, i))
  {
    var w' := GrabFileAt(w, i);
    assert FileOK(w.files[i], w.state);
    GrabFileBooks(w, i, w.state);
    GrabFileWakes(w, i);
    GrabFileHeld(w, i);
    if Asleep(w.files[i].state) { PendingFits(w.files[i], w.state); }
    forall k | 0 <= k < |w'.files| ensures FileOK(w'.files[k], w'.state) {
      assert FileOK(w.files[k], w.state);
    }
  }

  lemma GrabFileInStep(w: World, i: nat)
    requires Orderly(w) && i < |w.files|
    ensures (forall k :: 0 <= k < |w.files| ==> InStep(GrabFileAt(w, i).files[k], w.state))
        <==> !(w.state == Paused && w.files[i].state == Paused)
  {
    var w' := GrabFileAt(w, i);
    GrabFileWakes(w, i);
    assert InStep(w.files[i], w.state);
    if w.state == Paused && w.files[i].state == Paused {
      assert !InStep(w'.files[i], Paused);
    } else {
      forall k | 0 <= k < |w'.files| ensures InStep(w'.files[k], w'.state) {
        assert InStep(w.files[k], w.state);
      }
    }
  }

  lemma GrabFileNotLost(w: World, i: nat)
    requires NotLost(w) && i < |w.files|
    ensures NotLost(GrabFileAt(w, i))
  {
    var w' := GrabFileAt(w, i);
    GrabFileWakes(w, i);
    if w'.state != Paused {
      forall k: nat | k < |w'.files| && k in w'.grabbed ensures NotLostIn(w', k) {
        if k != i || !Asleep(w.files[i].state) { assert NotLostIn(w, k); }
      }
    }
  }

  // GrabFile keeps the engine orderly if and only if it does not name a paused
  // file while the grabber is paused.
  lemma GrabFileKeeps(w: World, i: nat)
    requires Inv(w) && i < |w.files|
    ensures Inv(GrabFileAt(w, i))
    ensures Orderly(w) ==> (Orderly(GrabFileAt(w, i)) <==> !(w.state == Paused && w.files[i].state == Paused))
  {
    GrabFileInv(w, i);
    if Orderly(w) {
      GrabFileInStep(w, i);
      GrabFileNotLost(w, i);
    }
  }

  lemma {:induction false} GrabPendingKeeps(w: World, k: nat)
    requires Inv(w) && k <= |w.files|
    ensures Inv(GrabPendingFrom(w, k))
    ensures Orderly(w) ==> Orderly(GrabPendingFrom(w, k))
    decreases |w.files| - k
  {
    if k < |w.files| {
      if w.files[k].state == Pending {
        GrabFileKeeps(w, k);
        GrabPendingKeeps(GrabFileAt(w, k), k + 1);
      } else {
        GrabPendingKeeps(w, k + 1);
      }
    }
  }

  // ---- Pause ----

  lemma PausedFiles(w: World)
    requires Coherent(w) && w.state != Paused
    ensures AllRestated(w, PauseGrabber(w))
    ensures forall i :: 0 <= i < |w.files| ==>
              var f' := PauseGrabber(w).files[i];
              FileOK(f', Paused) && InStep(f', Paused) && f'.required == w.files[i].required
  {
    forall i | 0 <= i < |w.files|
      ensures Restated(w.files[i], FilePause(w.files[i])) && FileOK(FilePause(w.files[i]), Paused)
      ensures InStep(FilePause(w.files[i]), Paused) && FilePause(w.files[i]).required == w.files[i].required
    {
      assert FileOK(w.files[i], w.state);
      PausedFile(w.files[i], w.state);
    }
  }

  lemma PauseCounted(w: World)
    requires Coherent(w) && Counted(w) && w.state != Paused
    ensures Counted(PauseGrabber(w))
  {
    var w' := PauseGrabber(w);
    PausedFiles(w);
    SumBelow(w.files, w'.files, OpenOne, OpenOne);
    SumBelow(w'.files, w.files, OpenOne, OpenOne);
  }

  // Pausing puts the engine in order, whatever state it was in.
  lemma PauseKeeps(w: World)
    requires Inv(w)
    ensures Inv(PauseGrabber(w))
    ensures w.state != Paused || Orderly(w) ==> Orderly(PauseGrabber(w))
  {
    var w' := PauseGrabber(w);
    if w.state != Paused {
      PausedFiles(w);
      RestatedBooks(w, w');
      PauseCounted(w);
      assert forall x :: OwnedRef(w, x) ==> OwnedRef(w', x);
      forall i | 0 <= i < |w'.files| ensures InStep(w'.files[i], Paused) {
        assert FileOK(PauseGrabber(w).files[i], Paused);
      }
      assert Tokens(w');
    }
  }

  // ---- Resume ----

  // Resume has dealt with the files before k.
  ghost predicate HalfResumed(w: World, k: nat) {
    && k <= |w.files| && Books(w) && PendingHeld(w)
    && forall i :: 0 <= i < |w.files| ==> FileOK(w.files[i], if i < k then Pending else Paused)
  }

  lemma ResumeOneFiles(w: World, k: nat)
    requires k < |w.files|
    ensures ResumeOne(w, k).files == w.files[k := if w.files[k].required then FileResume(w.files[k]) else w.files[k]]
  {
    var f, w1 := w.files[k], ResumeFile(w, k);
    assert w.files[k := f] == w.files;
    if f.required && w1.files[k].state == Pending {
      GrabFileWakes(w1, k);
      assert FileResume(w1.files[k]) == w1.files[k];
      assert w1.files[k := w1.files[k]] == w1.files;
    }
  }

  lemma ResumeOneBooks(w: World, k: nat)
    requires Books(w) && k < |w.files| && FileOK(w.files[k], Paused)
    ensures Books(ResumeOne(w, k))
  {
    var f, w1 := w.files[k], ResumeFile(w, k);
    if f.required {
      ResumeFileBooks(w, k, Paused);
      if f.state == Paused { ResumedFile(f, Paused); }
      if w1.files[k].state == Pending { GrabFileBooks(w1, k, Paused); }
    }
  }

  lemma ResumeOneHeld(w: World, k: nat)
    requires PendingHeld(w) && k < |w.files| && FileOK(w.files[k], Paused)
    ensures PendingHeld(ResumeOne(w, k))
  {
    var f, w1, w' := w.files[k], ResumeFile(w, k), ResumeOne(w, k);
    if f.required && w1.files[k].state == Pending {
      GrabFileWakes(w1, k);
      assert forall x :: HasToken(w, x) ==> HasToken(w1, x);
      forall i: nat | i < |w'.files| && i in w'.grabbed && w'.files[i].state == Pending ensures NotLostIn(w', i) {
        if i != k { assert NotLostIn(w, i); }
      }
    }
  }

  lemma ResumeOneKeeps(w: World, k: nat)
    requires HalfResumed(w, k) && k < |w.files|
    ensures HalfResumed(ResumeOne(w, k), k + 1)
  {
    var f, w' := w.files[k], ResumeOne(w, k);
    assert FileOK(f, Paused);
    ResumeOneFiles(w, k);
    ResumeOneBooks(w, k);
    ResumeOneHeld(w, k);
    if f.state == Paused { ResumedFile(f, Paused); }
  }

  lemma {:induction false} ResumeFromKeeps(w: World, k: nat)
    requires HalfResumed(w, k)
    ensures var w' := ResumeFrom(w, k);
            && HalfResumed(w', |w.files|)
            && forall i :: 0 <= i < |w.files| ==>
                 w'.files[i] == if i >= k && w.files[i].required then FileResume(w.files[i]) else w.files[i]
    decreases |w.files| - k
  {
    if k < |w.files| {
      ResumeOneKeeps(w, k);
      ResumeOneFiles(w, k);
      ResumeFromKeeps(ResumeOne(w, k), k + 1);
    }
  }

  lemma ResumeInv(w: World)
    requires HalfResumed(w, |w.files|)
    ensures Inv(w.(state := Pending))
  {
    var w' := w.(state := Pending);
    assert forall x :: ValidRef(w', x) <==> ValidRef(w, x);
    assert forall x :: ValidRef(w, x) ==> SegAt(w', x) == SegAt(w, x);
    assert forall x :: OwnedRef(w, x) ==> OwnedRef(w', x);
    assert forall x :: HasToken(w, x) ==> HasToken(w', x);
    assert Tokens(w');
    forall i: nat | i < |w'.files| && i in w'.grabbed && w'.files[i].state == Pending ensures NotLostIn(w', i) {
      assert NotLostIn(w, i);
    }
  }

  // Nothing is lost where no file is under way: what is grabbed is Pending or Done.
  lemma RestingIsOrderly(w: World)
    requires Inv(w) && w.state != Paused && forall i :: 0 <= i < |w.files| ==> w.files[i].state != Working
    ensures Orderly(w)
  {
    forall i: nat | i < |w.files| && i in w.grabbed ensures NotLostIn(w, i) {
      var f := w.files[i];
      assert FileOK(f, w.state);
      if f.state != Pending {
        forall j | 0 <= j < |f.segs| ensures !Unfinished(f.segs[j]) {
          assert SegFits(f.segs[j].state, f.state);
        }
      }
    }
  }

  // Resuming puts the engine in order if and only if no file is Working, which
  // under a paused grabber only a file woken by its name can be.
  lemma ResumeKeeps(w: World)
    requires Inv(w)
    ensures Inv(ResumeGrabber(w))
    ensures w.state == Paused ==>
              (Orderly(ResumeGrabber(w)) <==> forall i :: 0 <= i < |w.files| ==> w.files[i].state != Working)
    ensures Orderly(w) ==> Orderly(ResumeGrabber(w))
  {
    if w.state == Paused {
      assert HalfResumed(w, 0);
      ResumeFromKeeps(w, 0);
      ResumeInv(ResumeFrom(w, 0));
      var w' := ResumeGrabber(w);
      if i :| 0 <= i < |w.files| && w.files[i].state == Working {
        assert w'.files[i].state == Working && !InStep(w'.files[i], w'.state);
        assert !InStep(w.files[i], Paused);
      } else {
        RestingIsOrderly(w');
      }
    }
  }

  // ---- Dispatch and response ----

  lemma OrderlyKept(w: World, w': World, r: Ref)
    requires Orderly(w) && OnlyAt(w, w', r) && (w'.state == Paused <==> w.state == Paused)
    requires forall x :: x != r && HasToken(w, x) ==> HasToken(w', x)
    requires w.state != Paused && Unfinished(SegAt(w', r)) ==> HasToken(w', r)
    requires InStep(w'.files[r.f], w'.state) && (w.state == Working ==> w'.state == Working)
    ensures Orderly(w')
  {
    forall i | 0 <= i < |w'.files| ensures InStep(w'.files[i], w'.state) {
      assert InStep(w.files[i], w.state);
    }
    if w'.state != Paused {
      forall i: nat | i < |w'.files| && i in w'.grabbed ensures NotLostIn(w', i) {
        assert NotLostIn(w, i);
        NotLostInKept(w, w', r, i);
      }
    }
  }

  lemma OrderlyAsked(w: World, env: Env, q: Request)
    requires Inv(w) && Orderly(w) && w.queue != [] && OwnedRef(w, w.queue[0]) && Startable(w, w.queue[0])
    requires q.ref == w.queue[0]
    ensures var w2 := Tried(w, env).0;
            Orderly(w2.(inflight := w2.inflight + [q], log := w2.log + [q]))
  {
    var r, w2 := q.ref, Tried(w, env).0;
    var w' := w2.(inflight := w2.inflight + [q], log := w2.log + [q]);
    TriedOnlyAt(w, env);
    assert InStep(w.files[r.f], w.state);
    assert FileOK(w.files[r.f], w.state) && SegFits(SegAt(w, r).state, w.files[r.f].state);
    assert forall x :: x in w.queue && x != r ==> x in w'.queue;
    assert forall x :: x in w.inflight ==> x in w'.inflight;
    assert q in w'.inflight;
    OrderlyKept(w, w', r);
  }

  lemma OrderlyFailed(w: World, env: Env, e: SegmentError)
    requires Inv(w) && Orderly(w) && w.queue != [] && OwnedRef(w, w.queue[0]) && Startable(w, w.queue[0])
    ensures Orderly(SegFailed(Tried(w, env).0, w.queue[0], e))
  {
    var r, w2 := w.queue[0], Tried(w, env).0;
    var w' := SegFailed(w2, r, e);
    TriedOnlyAt(w, env);
    FailedOnlyAt(w, env, e);
    SegDoneOnlyAt(w2, r, Some(e));
    assert InStep(w.files[r.f], w.state);
    assert FileOK(w.files[r.f], w.state) && SegFits(SegAt(w, r).state, w.files[r.f].state);
    assert forall x :: x in w.queue && x != r ==> x in w'.queue;
    OrderlyKept(w, w', r);
  }

  lemma DispatchOrderly(w: World, env: Env)
    requires Inv(w) && Orderly(w) && Enabled(w, Dispatch(env))
    ensures Orderly(Step(w, Dispatch(env)))
  {
    var r := w.queue[0];
    DispatchCases(w, env);
    assert InStep(w.files[r.f], w.state);
    if Startable(w, r) {
      match Tried(w, env).1
      case Failed(e) => OrderlyFailed(w, env, e);
      case Asked(srv, g) => OrderlyAsked(w, env, Request(r, srv, g));
    } else {
      var w' := Dequeued(w);
      assert forall x :: x in w.queue && x != r ==> x in w'.queue;
      OrderlyKept(w, w', r);
    }
  }

  lemma RespondOrderly(w: World, k: nat, outcome: Outcome)
    requires Inv(w) && Orderly(w) && Enabled(w, Respond(k, outcome))
    ensures Orderly(Step(w, Respond(k, outcome)))
  {
    var r, w1, w' := w.inflight[k].ref, Received(w, k), Step(w, Respond(k, outcome));
    ReceivedKeeps(w, k);
    assert InStep(w.files[r.f], w.state);
    if outcome == Grabbed {
      SegDoneOnlyAt(w1, r, None);
    } else {
      assert w'.queue[|w.queue|] == r;
    }
    OrderlyKept(w, w', r);
  }

  // ---- Every run ----

  // The one call that puts the engine out of order: naming a paused file while
  // the whole grabber is paused.
  ghost predicate Allowed(w: World, e: Event) {
    && Enabled(w, e)
    && (e.GrabFile? && e.file < |w.files| ==> !(w.state == Paused && w.files[e.file].state == Paused))
  }

  lemma StepKeeps(w: World, e: Event)
    requires Inv(w) && Enabled(w, e)
    ensures Inv(Step(w, e))
  {
    match e
    case GrabAll => GrabPendingKeeps(w, 0);
    case GrabFile(i) => if i < |w.files| { GrabFileKeeps(w, i); }
    case Pause => PauseKeeps(w);
    case Resume => ResumeKeeps(w);
    case Dispatch(env) => DispatchKeeps(w, env);
    case Respond(k, outcome) => RespondKeeps(w, k, outcome);
  }

  lemma StepOrderly(w: World, e: Event)
    requires Inv(w) && Orderly(w) && Enabled(w, e)
    ensures Orderly(Step(w, e)) <==> Allowed(w, e)
  {
    match e
    case GrabAll => GrabPendingKeeps(w, 0);
    case GrabFile(i) => if i < |w.files| { GrabFileKeeps(w, i); }
    case Pause => PauseKeeps(w);
    case Resume => ResumeKeeps(w);
    case Dispatch(env) => DispatchOrderly(w, env);
    case Respond(k, outcome) => RespondOrderly(w, k, outcome);
  }

  // The state after a run of any events that can happen.
  ghost predicate Runs(w: World, es: seq<Event>, w': World)
    decreases |es|
  {
    if es == [] then w' == w
    else Enabled(w, es[0]) && Runs(Step(w, es[0]), es[1..], w')
  }

  // No event of the run is the one call that is not allowed.
  ghost predicate AllAllowed(w: World, es: seq<Event>)
    decreases |es|
  {
    es == [] || (Allowed(w, es[0]) && AllAllowed(Step(w, es[0]), es[1..]))
  }

  lemma {:induction false} RunKeeps(w: World, es: seq<Event>, w': World)
    requires Inv(w) && Runs(w, es, w')
    ensures Inv(w')
    ensures Orderly(w) && AllAllowed(w, es) ==> Orderly(w')
    decreases |es|
  {
    if es != [] {
      StepKeeps(w, es[0]);
      if Orderly(w) { StepOrderly(w, es[0]); }
      RunKeeps(Step(w, es[0]), es[1..], w');
    }
  }

  // ---- The initial state ----

  lemma NewFileOK(spec: FileSpec)
    ensures FileOK(NewFile(spec), Pending)
    ensures FailedIn(NewFile(spec)) == 0
    ensures NewFile(spec).state == (if NewFile(spec).required then Pending else Paused)
    ensures forall j :: 0 <= j < |NewFile(spec).segs| ==> NewFile(spec).segs[j].err.None?
  {
    var f := NewFile(spec);
    SumZero(f.segs, DoneOne);
    SumZero(f.segs, FailedOne);
  }

  lemma NewGrabberOK(specs: seq<FileSpec>, servers: nat, maxRetry: int)
    ensures Inv(NewGrabber(specs, servers, maxRetry))
  {
    var w := NewGrabber(specs, servers, maxRetry);
    forall i | 0 <= i < |w.files|
      ensures FileOK(w.files[i], Pending) && FailedIn(w.files[i]) == 0
      ensures RequiredOne(w.files[i]) == OpenOne(w.files[i])
      ensures w.files[i].state != Working && w.files[i].state != Done
      ensures forall j :: 0 <= j < |w.files[i].segs| ==> w.files[i].segs[j].err.None?
    {
      NewFileOK(specs[i]);
    }
    SumBelow(w.files, w.files, RequiredOne, OpenOne);
    SumBelow(w.files, w.files, OpenOne, RequiredOne);
    SumZero(w.files, FailedIn);
  }

  // Waking one file by itself, as construction does for the first par2 file.
  lemma ResumeFileKeeps(w: World, i: nat)
    requires Inv(w) && w.state == Pending && i < |w.files|
    ensures Inv(ResumeFile(w, i))
  {
    var w' := ResumeFile(w, i);
    var f := w.files[i];
    assert FileOK(f, w.state);
    ResumeFileBooks(w, i, w.state);
    if f.state == Paused {
      ResumedFile(f, w.state);
      assert w'.files == w.files[i := FileResume(f)];
      assert i !in w.grabbed;
      forall k: nat | k < |w'.files| && k in w'.grabbed && w'.files[k].state == Pending ensures NotLostIn(w', k) {
        assert NotLostIn(w, k);
        assert forall x :: HasToken(w, x) ==> HasToken(w', x);
      }
    }
  }

  lemma StartsOK(specs: seq<FileSpec>, servers: nat, maxRetry: int, first: Option<nat>)
    requires SmallestPar2(specs, first)
    ensures Inv(FromNZB(specs, servers, maxRetry, first)) && Orderly(FromNZB(specs, servers, maxRetry, first))
  {
    NewGrabberOK(specs, servers, maxRetry);
    if first.Some? {
      ResumeFileKeeps(NewGrabber(specs, servers, maxRetry), first.value);
    }
    RestingIsOrderly(FromNZB(specs, servers, maxRetry, first));
  }
}
