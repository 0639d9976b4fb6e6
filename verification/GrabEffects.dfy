// The whole effect of each API call and of each answer, field by field.
module GrabEffects {
  import opened Basics
  import opened GrabModel
  import opened GrabInvariant
  import opened GrabNetwork
  import opened GrabApi
  import opened GrabTheorems

  // ---- Files paused and resumed ----

  ghost predicate FilePaused(f: File, f': File) {
    && f' == f.(state := f'.state, segs := f'.segs) && |f'.segs| == |f.segs|
    && if f.state == Pending || f.state == Working then
         && f'.state == Paused
         && forall j :: 0 <= j < |f.segs| ==>
              var s := f.segs[j];
              f'.segs[j] == s.(state := if s.state == Pending then Paused
                                        else if s.state == Working then Pausing else s.state)
       else f' == f
  }

  ghost predicate FileResumed(f: File, f': File) {
    && f' == f.(state := f'.state, segs := f'.segs, required := f'.required) && |f'.segs| == |f.segs|
    && if f.state == Paused then
         && f'.state == Pending && f'.required
         && forall j :: 0 <= j < |f.segs| ==>
              var s := f.segs[j];
              f'.segs[j] == s.(state := if s.state == Paused || s.state == Pausing then Pending else s.state)
       else f' == f
  }

  lemma PauseShows(f: File)
    ensures FilePaused(f, FilePause(f))
  {
  }

  lemma ResumeShows(f: File)
    ensures FileResumed(f, FileResume(f))
  {
  }

  // Pausing a grabber that is Pending or Working pauses every file, and changes
  // nothing else; pausing any other does nothing.
  lemma PauseEffect(w: World)
    ensures var w' := Step(w, Pause);
            if w.state == Pending || w.state == Working then
              && w' == w.(files := w'.files, state := Paused) && |w'.files| == |w.files|
              && forall i :: 0 <= i < |w.files| ==> FilePaused(w.files[i], w'.files[i])
            else w' == w
  {
    forall i | 0 <= i < |w.files| ensures FilePaused(w.files[i], FilePause(w.files[i])) {
      PauseShows(w.files[i]);
    }
  }

  // ---- Asking for files ----

  // Every segment of every file from k on that is picked, in order.
  function RefsOf(files: seq<File>, pick: File -> bool, k: nat): seq<Ref>
    requires k <= |files|
    decreases |files| - k
  {
    if k == |files| then []
    else (if pick(files[k]) then FileRefs(k, |files[k].segs|) else []) + RefsOf(files, pick, k + 1)
  }

  function PickedOf(files: seq<File>, pick: File -> bool, k: nat): set<nat>
    requires k <= |files|
  {
    set i: nat | k <= i < |files| && pick(files[i])
  }

  lemma {:induction false} RefsOfRest(files: seq<File>, files': seq<File>, pick: File -> bool, k: nat)
    requires |files'| == |files| && k <= |files| && forall i :: k <= i < |files| ==> files'[i] == files[i]
    ensures RefsOf(files', pick, k) == RefsOf(files, pick, k) && PickedOf(files', pick, k) == PickedOf(files, pick, k)
    decreases |files| - k
  {
    if k < |files| { RefsOfRest(files, files', pick, k + 1); }
  }

  lemma PickedFirst(files: seq<File>, pick: File -> bool, k: nat)
    requires k < |files|
    ensures PickedOf(files, pick, k) == (if pick(files[k]) then {k} else {}) + PickedOf(files, pick, k + 1)
  {
  }

  // One file that was Pending or Paused has been asked for.
  ghost predicate AskedFile(w: World, i: nat, w': World)
    requires i < |w.files|
  {
    && w' == w.(files := w'.files, queue := w.queue + FileRefs(i, |w.files[i].segs|), grabbed := w.grabbed + {i},
                doneFiles := w'.doneFiles, required := w'.required)
    && |w'.files| == |w.files| && FileResumed(w.files[i], w'.files[i])
    && forall k :: 0 <= k < |w.files| && k != i ==> w'.files[k] == w.files[k]
  }

  // Asking for a file starts a new round if the last one is complete. A file that is
  // Pending or Paused is resumed and its segments queued in order; it is counted as
  // required if it was paused and not required before.
  lemma GrabFileEffect(w: World, i: nat)
    requires i < |w.files|
    ensures var w', f := Step(w, GrabFile(i)), w.files[i];
            var complete := |w.doneFiles| >= w.required;
            && (if f.state == Pending || f.state == Paused then AskedFile(w, i, w')
                else w' == w.(doneFiles := w'.doneFiles, required := w'.required))
            && w'.doneFiles == (if complete then [] else w.doneFiles)
            && w'.required == (if complete then 0 else w.required)
                              + (if f.state == Paused && !f.required then 1 else 0)
  {
    ResumeShows(w.files[i]);
    assert w.files[i := w.files[i]] == w.files;
  }

  lemma UnknownFileEffect(w: World, i: nat)
    requires i >= |w.files|
    ensures Step(w, GrabFile(i)) == w
  {
  }

  // Asking for a file that is required and not Done, no file being discarded.
  lemma GrabOpenFile(w: World, i: nat)
    requires Counted(w) && i < |w.files| && w.files[i].required && w.files[i].state == Pending
    ensures GrabFileAt(w, i) == w.(queue := w.queue + FileRefs(i, |w.files[i].segs|), grabbed := w.grabbed + {i})
  {
    OpenFileBlocks(w, i);
  }

  predicate IsPending(f: File) {
    f.state == Pending
  }

  // Required files that were paused, or were Pending all along.
  predicate WillBeGrabbed(f: File) {
    f.required && (f.state == Paused || f.state == Pending)
  }

  function WithAsked(w: World, files: seq<File>, pick: File -> bool, k: nat): World
    requires k <= |files|
  {
    w.(queue := w.queue + RefsOf(files, pick, k), grabbed := w.grabbed + PickedOf(files, pick, k))
  }

  lemma AskedNone(w: World, files: seq<File>, pick: File -> bool)
    ensures WithAsked(w, files, pick, |files|) == w
  {
    assert PickedOf(files, pick, |files|) == {};
    assert w.queue + [] == w.queue && w.grabbed + {} == w.grabbed;
  }

  lemma AskedFirst(w: World, w1: World, files: seq<File>, pick: File -> bool, k: nat)
    requires k < |files|
    requires w1 == if pick(files[k])
                   then w.(queue := w.queue + FileRefs(k, |files[k].segs|), grabbed := w.grabbed + {k}) else w
    ensures WithAsked(w1, files, pick, k + 1) == WithAsked(w, files, pick, k)
  {
    var more, ids := RefsOf(files, pick, k + 1), PickedOf(files, pick, k + 1);
    PickedFirst(files, pick, k);
    if pick(files[k]) {
      Associates(w.queue, FileRefs(k, |files[k].segs|), more);
      assert w.grabbed + {k} + ids == w.grabbed + ({k} + ids);
    } else {
      assert [] + more == more && {} + ids == ids;
    }
  }

  lemma {:induction false} GrabPendingEffect(w: World, k: nat)
    requires Inv(w) && k <= |w.files|
    ensures GrabPendingFrom(w, k) == WithAsked(w, w.files, IsPending, k)
    decreases |w.files| - k
  {
    if k == |w.files| {
      AskedNone(w, w.files, IsPending);
    } else {
      var w1 := if w.files[k].state == Pending then GrabFileAt(w, k) else w;
      if w.files[k].state == Pending {
        assert FileOK(w.files[k], w.state);
        GrabOpenFile(w, k);
        GrabFileInv(w, k);
      }
      AskedFirst(w, w1, w.files, IsPending, k);
      GrabPendingEffect(w1, k + 1);
    }
  }

  // GrabAll queues the segments of every Pending file, in order, and does nothing else.
  lemma GrabAllEffect(w: World)
    requires Inv(w)
    ensures Step(w, GrabAll)
         == w.(queue := w.queue + RefsOf(w.files, IsPending, 0), grabbed := w.grabbed + PickedOf(w.files, IsPending, 0))
  {
    GrabPendingEffect(w, 0);
  }

  // ---- Resuming ----

  lemma ResumeOneEffect(w: World, k: nat)
    requires HalfResumed(w, k) && k < |w.files|
    ensures var f := w.files[k];
            ResumeOne(w, k) ==
              if WillBeGrabbed(f)
              then w.(files := w.files[k := FileResume(f)], queue := w.queue + FileRefs(k, |f.segs|),
                      grabbed := w.grabbed + {k})
              else w
  {
    var f, w1 := w.files[k], ResumeFile(w, k);
    assert FileOK(f, Paused);
    if f.required {
      ResumeFileBooks(w, k, Paused);
      assert w.files[k := f] == w.files;
      if WillBeGrabbed(f) {
        assert w1.files[k] == FileResume(f) && w1.files == w.files[k := FileResume(f)];
        GrabOpenFile(w1, k);
      }
    }
  }

  lemma {:induction false} ResumeFromEffect(w: World, k: nat)
    requires HalfResumed(w, k)
    ensures var w' := ResumeFrom(w, k);
            w' == WithAsked(w, w.files, WillBeGrabbed, k).(files := w'.files)
    decreases |w.files| - k
  {
    if k == |w.files| {
      AskedNone(w, w.files, WillBeGrabbed);
    } else {
      var w1 := ResumeOne(w, k);
      ResumeOneKeeps(w, k);
      ResumeOneEffect(w, k);
      ResumeFromEffect(w1, k + 1);
      RefsOfRest(w.files, w1.files, WillBeGrabbed, k + 1);
      AskedFirst(w, w1.(files := w.files), w.files, WillBeGrabbed, k);
    }
  }

  // Resuming a paused grabber makes it Pending, resumes the required files that are
  // paused, queues the segments of these and of the required files that were Pending,
  // in order, and does nothing else. Resuming any other does nothing.
  lemma ResumeEffect(w: World)
    requires Inv(w)
    ensures var w' := Step(w, Resume);
            if w.state == Paused then
              && w' == w.(files := w'.files, state := Pending,
                          queue := w.queue + RefsOf(w.files, WillBeGrabbed, 0),
                          grabbed := w.grabbed + PickedOf(w.files, WillBeGrabbed, 0))
              && |w'.files| == |w.files|
              && forall i :: 0 <= i < |w.files| ==>
                   if w.files[i].required then FileResumed(w.files[i], w'.files[i]) else w'.files[i] == w.files[i]
            else w' == w
  {
    if w.state == Paused {
      assert HalfResumed(w, 0);
      ResumeFromEffect(w, 0);
      ResumeFromKeeps(w, 0);
      forall i | 0 <= i < |w.files| ensures FileResumed(w.files[i], FileResume(w.files[i])) {
        ResumeShows(w.files[i]);
      }
    }
  }

  // ---- Dispatches ----

  // Every server tried is given an output of its own, created before anything else is
  // looked at. The segment fails for want of one exactly if the last cannot be created.
  lemma {:induction false} OutputPerServer(s: Seg, groups: seq<string>, servers: nat, env: Env, attempt: nat)
    ensures var (t, a) := TryServers(s, groups, servers, env, attempt);
            var last := attempt + Unfailed(s.failedServer, servers) - Unfailed(t.failedServer, servers);
            && attempt <= last
            && (forall k: nat :: attempt <= k < last ==> env.created(k))
            && (a == Failed(OutputNotCreated) <==> !env.created(last))
    decreases Unfailed(s.failedServer, servers)
  {
    if env.created(attempt) {
      match SelectServer(s.failedServer, 0, servers)
      case None =>
      case Some(srv) =>
        UnfailedShrinks(s.failedServer, srv, servers);
        if !env.alive(srv) || env.expired(srv) || SelectGroup(s.failedGroup, groups).None? {
          OutputPerServer(FailServer(s, srv), groups, servers, env, attempt + 1);
        }
    }
  }

  // Servers are given up on only in front of the one that is asked.
  lemma {:induction false} GivenUpInFront(s: Seg, groups: seq<string>, servers: nat, env: Env, attempt: nat)
    ensures var (t, a) := TryServers(s, groups, servers, env, attempt);
            && s.failedServer <= t.failedServer
            && (a.Asked? ==> a.server !in t.failedServer)
            && (a.Asked? ==> forall k :: k in t.failedServer && k !in s.failedServer ==> k < a.server)
    decreases Unfailed(s.failedServer, servers)
  {
    if env.created(attempt) {
      match SelectServer(s.failedServer, 0, servers)
      case None =>
      case Some(srv) =>
        UnfailedShrinks(s.failedServer, srv, servers);
        if !env.alive(srv) || env.expired(srv) || SelectGroup(s.failedGroup, groups).None? {
          var t := FailServer(s, srv);
          GivenUpInFront(t, groups, servers, env, attempt + 1);
          assert srv in t.failedServer && s.failedServer <= t.failedServer;
          var a := TryServers(t, groups, servers, env, attempt + 1).1;
          assert a.Asked? ==> a.server !in s.failedServer && a.server != srv;
        }
    }
  }

  // ---- Answers ----

  // What the failure of a request leaves of its segment's books.
  ghost predicate Rebooked(s: Seg, s': Seg, q: Request, outcome: Outcome, maxRetry: int) {
    var again := outcome == OtherError && s.retries < maxRetry;
    && s' == s.(failedServer := s'.failedServer, failedGroup := s'.failedGroup, retries := s'.retries)
    && (outcome == NoSuchGroup ==>
          && s'.failedServer == s.failedServer && s'.failedGroup == s.failedGroup + {q.group}
          && s'.retries == s.retries)
    && (again ==>
          && s'.failedServer == s.failedServer && s'.failedGroup == s.failedGroup && s'.retries == s.retries + 1)
    && (outcome != NoSuchGroup && !again ==>
          s'.failedServer == s.failedServer + {q.server} && s'.failedGroup == {} && s'.retries == 0)
  }

  // An error takes the request off the network, books the failure, and queues the
  // segment again, and that is all. Success finishes the segment, unless it is Done
  // already, and with its last segment the file; and the signal goes out if no
  // required file is left.
  lemma AnswerEffect(w: World, k: nat, outcome: Outcome)
    requires Enabled(w, Respond(k, outcome))
    ensures var w', q := Step(w, Respond(k, outcome)), w.inflight[k];
            var f, s := w.files[q.ref.f], SegAt(w, q.ref);
            && OnlyAt(w, w', q.ref) && w'.inflight == w.inflight[..k] + w.inflight[k + 1..]
            && var f', s' := w'.files[q.ref.f], SegAt(w', q.ref);
            && (outcome != Grabbed ==>
                  && Rebooked(s, s', q, outcome, w.maxRetry) && f' == f.(segs := f'.segs)
                  && w' == w.(files := w'.files, inflight := w'.inflight, queue := w.queue + [q.ref]))
            && (outcome == Grabbed && s.state == Done ==> w' == w.(inflight := w'.inflight))
            && (outcome == Grabbed && s.state != Done ==>
                  && s' == s.(state := Done, err := None)
                  && f' == f.(segs := f'.segs, done := f.done + 1, state := f'.state)
                  && var last := f.done + 1 >= |f.segs|;
                  && f'.state == (if last then Done else f.state)
                  && w' == w.(files := w'.files, inflight := w'.inflight, signals := w'.signals,
                              doneFiles := w.doneFiles + (if last then [q.ref.f] else []),
                              fired := w.fired + (if last then [q.ref.f] else []))
                  && w'.signals == w.signals + if last && |w'.doneFiles| >= w.required then 1 else 0)
  {
    var q, w1 := w.inflight[k], Received(w, k);
    if outcome == Grabbed && SegAt(w1, q.ref).state != Done {
      SegDoneShape(w1, q.ref, None);
      assert w.doneFiles + [] == w.doneFiles && w.fired + [] == w.fired;
    } else if outcome == Grabbed {
      assert w.files[q.ref.f].segs[q.ref.s] == SegAt(w, q.ref);
    }
  }
}
