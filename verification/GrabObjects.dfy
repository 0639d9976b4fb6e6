// The grab engine as the objects it is made of: a grabber, its files and their
// segments, updating each other in place. Each method states what it does to the
// objects it touches; the grabber's own methods are shown to do exactly what the
// state machine's functions say.
module GrabObjects {
  import opened Basics
  import opened GrabModel
  import opened GrabInvariant
  import GrabNetwork
  import opened GrabBuild

  lemma UpdateTwice<T>(s: seq<T>, i: nat, x: T, y: T)
    requires i < |s|
    ensures s[i := x][i := y] == s[i := y]
  {
  }

  // The file, and the attempt if the segment may start, after dispatch.
  ghost function DispatchedFile(f: File, j: nat, g: State, servers: nat, env: Env): File
    requires j < |f.segs|
  {
    var (ok, s1, f1, g1) := SegWorks(f.segs[j].state, f.state, g);
    var s := f.segs[j].(state := s1);
    if !ok then f.(state := f1, segs := f.segs[j := s])
    else
      var (t, a) := TryServers(s, f.groups, servers, env, 0);
      match a
      case Failed(e) => FinishIn(f.(state := f1, segs := f.segs[j := t]), j, Some(e))
      case Asked(_, _) => f.(state := f1, segs := f.segs[j := t])
  }

  ghost function DispatchedTo(f: File, j: nat, g: State, servers: nat, env: Env): Option<Attempt>
    requires j < |f.segs|
  {
    var (ok, s1, f1, g1) := SegWorks(f.segs[j].state, f.state, g);
    if !ok then None
    else Some(TryServers(f.segs[j].(state := s1), f.groups, servers, env, 0).1)
  }

  ghost function AfterAttempt(w: World, r: Ref, f: File, a: Option<Attempt>): World
    requires r.f < |w.files|
  {
    match a
    case None => WithFile(w, r.f, f)
    case Some(Failed(_)) => AfterFinish(w, r.f, f).(failedSegments := w.failedSegments + 1)
    case Some(Asked(srv, g)) =>
      WithFile(w, r.f, f).(inflight := w.inflight + [Request(r, srv, g)], log := w.log + [Request(r, srv, g)])
  }

  ghost function AfterDispatch(w: World, r: Ref, env: Env): World
    requires ValidRef(w, r)
  {
    var f, s := w.files[r.f], SegAt(w, r);
    AfterAttempt(w.(state := SegWorks(s.state, f.state, w.state).3), r,
                 DispatchedFile(f, r.s, w.state, w.servers, env), DispatchedTo(f, r.s, w.state, w.servers, env))
  }

  lemma DispatchWorld(w: World, r: Ref, env: Env)
    requires ValidRef(w, r)
    ensures DispatchSeg(w, r, env) == AfterDispatch(w, r, env)
  {
    var f, s, s1 := w.files[r.f], SegAt(w, r), SegWorks(SegAt(w, r).state, w.files[r.f].state, w.state).1;
    var (ok, w1) := SegWorking(w, r);
    if ok {
      var (t, a) := TryServers(SegAt(w1, r), w1.files[r.f].groups, w1.servers, env, 0);
      GrabNetwork.TryServersOutcome(SegAt(w1, r), w1.files[r.f].groups, w1.servers, env, 0);
      UpdateTwice(w.files, r.f, w1.files[r.f], w1.files[r.f].(segs := f.segs[r.s := t]));
      UpdateTwice(f.segs, r.s, s.(state := s1), t);
      if a.Failed? {
        var w2 := WithSeg(w1, r, t);
        SegDoneShape(w2, r, Some(a.err));
        UpdateTwice(w.files, r.f, w2.files[r.f], FinishIn(w2.files[r.f], r.s, Some(a.err)));
      }
    }
  }

  lemma OneMoreSpec(specs: seq<FileSpec>, i: nat)
    requires i < |specs|
    ensures specs[..i + 1] == specs[..i] + [specs[i]]
  {
  }

  lemma NewGrabberMore(specs: seq<FileSpec>, spec: FileSpec, servers: nat, maxRetry: int)
    ensures var w := NewGrabber(specs, servers, maxRetry);
            NewGrabber(specs + [spec], servers, maxRetry)
              == w.(files := w.files + [NewFile(spec)], required := w.required + RequiredOne(NewFile(spec)))
  {
    var w, w' := NewGrabber(specs, servers, maxRetry), NewGrabber(specs + [spec], servers, maxRetry);
    assert w'.files == w.files + [NewFile(spec)];
    SumConcat(w.files, [NewFile(spec)], RequiredOne);
  }

  // The worlds Resume passes through, file by file.
  ghost predicate Chained(ws: seq<World>) {
    forall k: nat :: k + 1 < |ws| ==> k < |ws[k].files| && ws[k + 1] == ResumeOne(ws[k], k)
  }

  lemma ChainedMore(ws: seq<World>, w: World)
    requires ws != [] && Chained(ws) && |ws| - 1 < |ws[|ws| - 1].files| && w == ResumeOne(ws[|ws| - 1], |ws| - 1)
    ensures Chained(ws + [w])
  {
    var ws' := ws + [w];
    forall k: nat | k + 1 < |ws'| ensures k < |ws'[k].files| && ws'[k + 1] == ResumeOne(ws'[k], k) {
      assert ws'[k] == ws[k];
      if k + 1 < |ws| { assert ws'[k + 1] == ws[k + 1]; }
    }
  }

  lemma {:induction false} ChainedIsResume(ws: seq<World>, k: nat)
    requires k < |ws| && Chained(ws) && |ws[|ws| - 1].files| == |ws| - 1
    ensures |ws[k].files| == |ws| - 1
    ensures ResumeFrom(ws[k], k) == ws[|ws| - 1]
    decreases |ws| - k
  {
    if k + 1 < |ws| { ChainedIsResume(ws, k + 1); }
  }

  class SegmentObject {
    const number: int
    const f: FileObject
    ghost const ref: Ref
    var state: State
    var err: Option<SegmentError>
    var failedServer: set<nat>
    var failedGroup: set<string>
    var retries: nat

    constructor (number: int, f: FileObject, ghost ref: Ref)
      ensures View() == NewSeg(number) && this.f == f && this.ref == ref
    {
      this.number, this.f, this.ref := number, f, ref;
      state, err, failedServer, failedGroup, retries := Pending, None, {}, {}, 0;
    }

    function View(): Seg
      reads this
    {
      Seg(number, state, err, failedServer, failedGroup, retries)
    }

    method Working() returns (ok: bool)
      modifies this`state, f`state, f.g`state
      ensures (ok, state, f.state, f.g.state) == SegWorks(old(state), old(f.state), old(f.g.state))
      ensures var asked := old(state) == Pending || old(state) == Pausing;
              var starts := asked && old(f.state) == Pending;
              var granted := asked && (old(f.state) == State.Working
                                       || (starts && (old(f.g.state) == Pending || old(f.g.state) == State.Working)));
              && (ok <==> old(state) == State.Working || (old(state) == Pending && granted))
              && state == (if granted then (if old(state) == Pending then State.Working else Paused) else old(state))
              && f.state == (if starts then State.Working else old(f.state))
              && f.g.state == (if starts && old(f.g.state) == Pending then State.Working else old(f.g.state))
    {
      match state {
        case Working => return true;
        case Pending =>
        case Pausing =>
        case _ => return false;
      }
      var fileOK := f.Working();
      if !fileOK { return false; }
      if state == Pausing {
        state := Paused;
        return false;
      }
      state := State.Working;
      return true;
    }

    method Pause()
      modifies this
      ensures View() == SegPause(old(View()))
      ensures state == (if old(state) == Pending then Paused
                        else if old(state) == State.Working then Pausing else old(state))
      ensures unchanged(`err, `failedServer, `failedGroup, `retries)
    {
      match state {
        case Pending => state := Paused;
        case Working => state := Pausing;
        case _ =>
      }
    }

    method Resume()
      modifies this
      ensures View() == SegResume(old(View()))
      ensures state == if old(state) == Paused || old(state) == Pausing then Pending else old(state)
      ensures unchanged(`err, `failedServer, `failedGroup, `retries)
    {
      if state == Paused || state == Pausing { state := Pending; }
    }

    // A segment finishes only once, and the first outcome stands.
    method Done(e: Option<SegmentError>)
      modifies this`state, this`err, f`state, f`done, f.g`doneFiles, f.g`signals
      ensures View() == if old(state) == State.Done then old(View()) else old(View()).(state := State.Done, err := e)
      ensures f.done == if old(state) == State.Done then old(f.done) else old(f.done) + 1
      ensures old(state) == State.Done || f.done < |f.segments| ==>
                f.state == old(f.state) && f.g.doneFiles == old(f.g.doneFiles) && f.g.signals == old(f.g.signals)
      ensures old(state) != State.Done && f.done >= |f.segments| ==>
                && f.state == State.Done && f.g.doneFiles == old(f.g.doneFiles) + [f]
                && f.g.signals == old(f.g.signals) + if |f.g.doneFiles| >= f.g.required then 1 else 0
    {
      if state == State.Done { return; }
      state := State.Done;
      err := e;
      f.SegmentDone();
    }

    method FailGroup(g: string)
      modifies this
      ensures View() == GrabModel.FailGroup(old(View()), g)
      ensures failedGroup == old(failedGroup) + {g} && unchanged(`state, `err, `failedServer, `retries)
    {
      failedGroup := failedGroup + {g};
    }

    method FailServer(srv: nat)
      modifies this
      ensures View() == GrabModel.FailServer(old(View()), srv)
      ensures failedServer == old(failedServer) + {srv} && failedGroup == {} && retries == 0
      ensures unchanged(`state, `err)
    {
      failedServer := failedServer + {srv};
      failedGroup := {};
      retries := 0;
    }

    method SelectGroup(groups: seq<string>) returns (g: Option<string>)
      ensures g == GrabModel.SelectGroup(failedGroup, groups)
    {
      for i := 0 to |groups|
        invariant GrabModel.SelectGroup(failedGroup, groups) == GrabModel.SelectGroup(failedGroup, groups[i..])
      {
        assert groups[i..][0] == groups[i] && groups[i..][1..] == groups[i + 1..];
        if groups[i] in failedGroup { continue; }
        return Some(groups[i]);
      }
      return None;
    }

    // Servers are asked for by position in priority order.
    method SelectServer(servers: nat) returns (srv: Option<nat>)
      ensures srv == GrabModel.SelectServer(failedServer, 0, servers)
    {
      for i := 0 to servers
        invariant GrabModel.SelectServer(failedServer, 0, servers) == GrabModel.SelectServer(failedServer, i, servers)
      {
        if i in failedServer { continue; }
        return Some(i);
      }
      return None;
    }

    method RetryServer(max: int) returns (again: bool)
      modifies this
      ensures again == MayRetry(old(View()), max)
      ensures View() == GrabModel.RetryServer(old(View()), max)
      ensures again <==> old(retries) < max
      ensures retries == (if again then old(retries) + 1 else old(retries))
      ensures unchanged(`state, `err, `failedServer, `failedGroup)
    {
      if retries >= max { return false; }
      retries := retries + 1;
      return true;
    }
  }

  class FileObject {
    const g: Grabber
    ghost const index: nat
    const groups: seq<string>
    var segments: seq<SegmentObject>
    var state: State
    var done: nat
    var required: bool

    // Par2 and filtered files start out paused and not required.
    constructor (g: Grabber, spec: FileSpec, ghost index: nat)
      modifies g`required
      ensures this.g == g && this.index == index && Shows(NewFile(spec))
      ensures forall j :: 0 <= j < |segments| ==> fresh(segments[j])
      ensures g.required == old(g.required) + RequiredOne(NewFile(spec))
    {
      this.g, this.groups, this.index := g, spec.groups, index;
      segments, state, done, required := [], Pending, 0, true;
      new;
      for i := 0 to |spec.numbers|
        invariant |segments| == i && state == Pending && done == 0 && required && g.required == old(g.required)
        invariant forall j :: 0 <= j < i ==> fresh(segments[j]) && segments[j].View() == NewSeg(spec.numbers[j])
        invariant forall j :: 0 <= j < i ==> segments[j].f == this && segments[j].ref == Ref(index, j)
      {
        var s := new SegmentObject(spec.numbers[i], this, Ref(index, i));
        segments := segments + [s];
      }
      ghost var v := File(seq(|spec.numbers|, i requires 0 <= i < |spec.numbers| => NewSeg(spec.numbers[i])),
                          spec.groups, Pending, 0, true);
      if spec.par2 || spec.filtered {
        required := false;
        Pause(v.(required := false));
      }
      if required { g.FileRequired(); }
    }

    // The file and its segments are those of v.
    ghost predicate Shows(v: File)
      reads this, segments
    {
      && state == v.state && done == v.done && required == v.required && groups == v.groups
      && |segments| == |v.segs|
      && forall j :: 0 <= j < |segments| ==>
           segments[j].View() == v.segs[j] && segments[j].f == this && segments[j].ref == Ref(index, j)
    }

    method Working() returns (ok: bool)
      modifies this`state, g`state
      ensures (ok, state, g.state) == FileWorks(old(state), old(g.state))
      ensures var starts := old(state) == Pending;
              && (ok <==> old(state) == State.Working
                          || (starts && (old(g.state) == Pending || old(g.state) == State.Working)))
              && state == (if starts then State.Working else old(state))
              && g.state == (if starts && old(g.state) == Pending then State.Working else old(g.state))
    {
      match state {
        case Working => return true;
        case Pending =>
        case _ => return false;
      }
      state := State.Working;
      ok := g.Working();
    }

    method Pause(ghost v: File)
      requires Shows(v)
      modifies this`state, segments
      ensures Shows(FilePause(v))
    {
      if state != Pending && state != State.Working { return; }
      state := Pausing;
      for i := 0 to |segments|
        invariant |segments| == |v.segs| && done == v.done && required == v.required
        invariant segments == old(segments)
        invariant forall j :: 0 <= j < |segments| ==> segments[j].f == this && segments[j].ref == Ref(index, j)
        invariant forall j :: 0 <= j < |segments| ==>
                    segments[j].View() == if j < i then SegPause(v.segs[j]) else v.segs[j]
      {
        segments[i].Pause();
      }
      state := Paused;
    }

    method Resume(ghost v: File)
      requires Shows(v)
      modifies this`state, this`required, segments, g`required
      ensures Shows(FileResume(v))
      ensures g.required == old(g.required) + if v.state == Paused && !v.required then 1 else 0
    {
      if state != Paused { return; }
      state := Resuming;
      for i := 0 to |segments|
        invariant |segments| == |v.segs| && done == v.done && required == v.required
        invariant segments == old(segments) && g.required == old(g.required)
        invariant forall j :: 0 <= j < |segments| ==> segments[j].f == this && segments[j].ref == Ref(index, j)
        invariant forall j :: 0 <= j < |segments| ==>
                    segments[j].View() == if j < i then SegResume(v.segs[j]) else v.segs[j]
      {
        segments[i].Resume();
      }
      state := Pending;
      if !required {
        required := true;
        g.FileRequired();
      }
    }

    method Done()
      modifies this`state, g`doneFiles, g`signals
      ensures state == State.Done && g.doneFiles == old(g.doneFiles) + [this]
      ensures g.signals == old(g.signals) + if |g.doneFiles| >= g.required then 1 else 0
    {
      state := State.Done;
      g.FileDone(this);
    }

    method SegmentDone()
      modifies this`done, this`state, g`doneFiles, g`signals
      ensures done == old(done) + 1
      ensures done < |segments| ==>
                state == old(state) && g.doneFiles == old(g.doneFiles) && g.signals == old(g.signals)
      ensures done >= |segments| ==>
                && state == State.Done && g.doneFiles == old(g.doneFiles) + [this]
                && g.signals == old(g.signals) + if |g.doneFiles| >= g.required then 1 else 0
    {
      done := done + 1;
      if done >= |segments| { Done(); }
    }
  }

  datatype GrabRequest = GrabRequest(s: SegmentObject, server: nat, group: string)

  class Grabber {
    const servers: nat
    const maxRetry: int
    var state: State
    var files: seq<FileObject>
    var doneFiles: seq<FileObject>
    var required: int
    var failedSegments: nat
    var signals: nat
    var queue: seq<SegmentObject>
    var inflight: seq<GrabRequest>
    ghost var world: World
    ghost var roster: seq<seq<SegmentObject>>

    constructor (servers: nat, maxRetry: int)
      ensures Valid() && world == NewGrabber([], servers, maxRetry) && roster == []
    {
      this.servers, this.maxRetry := servers, maxRetry;
      state, files, doneFiles, required, failedSegments, signals, queue, inflight := Pending, [], [], 0, 0, 0, [], [];
      world := NewGrabber([], servers, maxRetry);
      roster := [];
    }

    method Working() returns (ok: bool)
      modifies this`state
      ensures (ok, state) == GrabberWorks(old(state))
      ensures ok <==> old(state) == Pending || old(state) == State.Working
      ensures state == if old(state) == Pending then State.Working else old(state)
    {
      match state {
        case Working => return true;
        case Pending =>
        case _ => return false;
      }
      state := State.Working;
      return true;
    }

    predicate IsPostProcessable()
      reads this
    {
      |doneFiles| >= required
    }

    method FileDone(f: FileObject)
      requires f.g == this
      modifies this`doneFiles, this`signals
      ensures doneFiles == old(doneFiles) + [f]
      ensures signals == old(signals) + if |doneFiles| >= required then 1 else 0
    {
      doneFiles := doneFiles + [f];
      if IsPostProcessable() { signals := signals + 1; }
    }

    method FileRequired()
      modifies this`required
      ensures required == old(required) + 1
    {
      required := required + 1;
    }

    // ---- The whole engine ----

    // All segments, file by file.
    ghost function Segs(): set<SegmentObject>
      reads this`roster
    {
      set i, j | 0 <= i < |roster| && 0 <= j < |roster[i]| :: roster[i][j]
    }

    ghost predicate Known(s: SegmentObject)
      reads this`roster
    {
      s.ref.f < |roster| && s.ref.s < |roster[s.ref.f]| && roster[s.ref.f][s.ref.s] == s
    }

    ghost predicate FilesShow(fs: seq<File>)
      reads this`files, this`roster, files, Segs()
    {
      && |files| == |fs| == |roster|
      && forall i :: 0 <= i < |files| ==> FileShows(i, fs[i])
    }

    ghost predicate FileShows(i: nat, f: File)
      requires i < |files| && i < |roster|
      reads this`files, this`roster, files, Segs()
    {
      assert forall j :: 0 <= j < |roster[i]| ==> roster[i][j] in Segs();
      FileIs(files[i], roster[i], i, f)
    }

    ghost predicate FileIs(file: FileObject, segments: seq<SegmentObject>, i: nat, f: File)
      reads file, segments
    {
      file.segments == segments && file.g == this && file.index == i && file.Shows(f)
    }

    ghost predicate TokensAre(queue: seq<SegmentObject>, inflight: seq<GrabRequest>,
                              queue': seq<Ref>, inflight': seq<Request>)
      reads this`roster
    {
      && |queue| == |queue'| && |inflight| == |inflight'|
      && (forall k :: 0 <= k < |queue| ==> Known(queue[k]) && queue[k].ref == queue'[k])
      && forall k :: 0 <= k < |inflight| ==>
           && Known(inflight[k].s)
           && inflight'[k] == Request(inflight[k].s.ref, inflight[k].server, inflight[k].group)
    }

    ghost predicate TokensShow(queue': seq<Ref>, inflight': seq<Request>)
      reads this`roster, this`queue, this`inflight
    {
      TokensAre(queue, inflight, queue', inflight')
    }

    // Sending out a request, or none.
    lemma TokensMoved(q: seq<SegmentObject>, l: seq<GrabRequest>, q': seq<Ref>, l': seq<Request>,
                      s: SegmentObject, a: Option<Attempt>)
      requires TokensAre(q, l, q', l') && Known(s)
      ensures TokensAre(q,
                if a.Some? && a.value.Asked? then l + [GrabRequest(s, a.value.server, a.value.group)] else l,
                q',
                if a.Some? && a.value.Asked? then l' + [Request(s.ref, a.value.server, a.value.group)] else l')
    {
    }

    ghost predicate DoneFilesShow(doneFiles': seq<nat>)
      reads this`doneFiles
    {
      |doneFiles| == |doneFiles'| && forall k :: 0 <= k < |doneFiles| ==> doneFiles[k].index == doneFiles'[k]
    }

    // These objects are the abstract world.
    ghost predicate Shows(w: World)
      reads this`files, this`roster, this`state, this`required, this`failedSegments, this`signals, this`doneFiles,
            this`queue, this`inflight, files, Segs()
    {
      && servers == w.servers && maxRetry == w.maxRetry && state == w.state
      && required == w.required && failedSegments == w.failedSegments && signals == w.signals
      && FilesShow(w.files) && DoneFilesShow(w.doneFiles) && TokensShow(w.queue, w.inflight)
    }

    ghost predicate Valid()
      reads this, files, Segs()
    {
      Shows(world)
    }

    // ---- Construction ----

    method AddFile(spec: FileSpec, ghost specs: seq<FileSpec>)
      requires Valid() && world == NewGrabber(specs, servers, maxRetry)
      modifies this`files, this`required, this`world, this`roster
      ensures Valid() && world == NewGrabber(specs + [spec], servers, maxRetry)
      ensures files == old(files) + [files[|files| - 1]] && fresh(files[|files| - 1])
      ensures forall s :: s in Segs() ==> s in old(Segs()) || fresh(s)
    {
      var f := new FileObject(this, spec, |files|);
      NewGrabberMore(specs, spec, servers, maxRetry);
      Install(f, NewFile(spec));
    }

    // The last file of the grabber, already counted if it is required.
    method Install(f: FileObject, ghost v: File)
      requires Shows(world.(required := required)) && FileIs(f, f.segments, |files|, v)
      modifies this`files, this`world, this`roster
      ensures Valid() && world == old(world).(files := old(world).files + [v], required := required)
      ensures files == old(files) + [f] && roster == old(roster) + [f.segments]
    {
      ghost var fs, before := world.files, roster;
      assert forall i :: 0 <= i < |fs| ==> FileShows(i, fs[i]);
      assert forall i :: 0 <= i < |fs| ==> FileIs(files[i], before[i], i, fs[i]);
      files := files + [f];
      roster := roster + [f.segments];
      world := world.(files := fs + [v], required := required);
      assert forall i :: 0 <= i < |fs| ==> FileShows(i, fs[i]);
    }

    // No file has a segment of another.
    lemma Disjoint(fs: seq<File>, i: nat)
      requires FilesShow(fs) && i < |files|
      ensures forall k, j :: 0 <= k < |files| && k != i && 0 <= j < |roster[k]| ==> roster[k][j] !in roster[i]
      ensures forall k :: 0 <= k < |files| && k != i ==> files[k] != files[i]
    {
      assert FileShows(i, fs[i]);
      forall k, j | 0 <= k < |files| && k != i && 0 <= j < |roster[k]| ensures roster[k][j] !in roster[i] {
        assert FileShows(k, fs[k]) && roster[k][j].ref == Ref(k, j);
      }
      forall k | 0 <= k < |files| && k != i ensures files[k] != files[i] {
        assert FileShows(k, fs[k]);
      }
    }

    // The changed file shows its new value; the others are as they were.
    lemma AllShow(fs: seq<File>, i: nat, f: File)
      requires |files| == |fs| == |roster| && i < |files| && FileShows(i, f)
      requires forall k :: 0 <= k < |files| && k != i ==> FileShows(k, fs[k])
      ensures FilesShow(fs[i := f])
    {
    }

    method PauseAll(ghost fs: seq<File>)
      requires FilesShow(fs)
      modifies files`state, Segs()
      ensures FilesShow(PauseFiles(fs))
    {
      ghost var cur := fs;
      for i := 0 to |files|
        invariant FilesShow(cur)
        invariant forall k :: 0 <= k < |files| ==> cur[k] == if k < i then FilePause(fs[k]) else fs[k]
      {
        assert FileShows(i, cur[i]);
        assert forall j :: 0 <= j < |roster[i]| ==> roster[i][j] in Segs();
        Disjoint(cur, i);
        files[i].Pause(cur[i]);
        assert FileShows(i, FilePause(cur[i]));
        AllShow(cur, i, FilePause(cur[i]));
        cur := cur[i := FilePause(cur[i])];
      }
      assert cur == PauseFiles(fs);
    }

    method Pause()
      requires Valid()
      modifies this`state, this`world, files`state, Segs()
      ensures Valid() && world == PauseGrabber(old(world))
    {
      if state != Pending && state != State.Working { return; }
      PauseAll(world.files);
      state := Paused;
      world := PauseGrabber(world);
    }

    // ---- GrabFile, GrabAll and Resume ----

    method Enqueue(s: SegmentObject)
      modifies this`queue
      ensures queue == old(queue) + [s]
    {
      queue := queue + [s];
    }

    method ResetGrabbedFiles()
      requires Valid()
      modifies this`doneFiles, this`required, this`world
      ensures Valid() && world == ResetGrabbed(old(world))
    {
      if IsPostProcessable() {
        doneFiles := [];
        required := 0;
        world := ResetGrabbed(world);
      }
    }

    method ResumeAt(f: FileObject, ghost i: nat)
      requires Valid() && i < |files| && files[i] == f
      modifies this`required, this`world, f`state, f`required, f.segments
      ensures Valid() && world == ResumeFile(old(world), i)
    {
      ghost var fs := world.files;
      assert FileShows(i, fs[i]);
      Disjoint(fs, i);
      f.Resume(fs[i]);
      AllShow(fs, i, FileResume(fs[i]));
      world := ResumeFile(world, i);
      assert world.files == if fs[i].state == Paused then fs[i := FileResume(fs[i])] else fs;
    }

    method EnqueueOf(f: FileObject, ghost i: nat)
      requires Valid() && i < |files| && files[i] == f
      modifies this`queue, this`world
      ensures Valid() && world == GrabModel.Enqueue(old(world), i)
    {
      ghost var refs := FileRefs(i, |f.segments|);
      ghost var q0 := world.queue;
      assert FileShows(i, world.files[i]);
      for j := 0 to |f.segments|
        invariant world == old(world) && TokensShow(q0 + refs[..j], world.inflight)
      {
        assert f.segments[j].ref == Ref(i, j) && Known(f.segments[j]);
        Enqueue(f.segments[j]);
        assert refs[..j + 1] == refs[..j] + [refs[j]];
        assert q0 + refs[..j + 1] == q0 + refs[..j] + [refs[j]];
      }
      assert refs[..|refs|] == refs;
      world := GrabModel.Enqueue(world, i);
    }

    // A file of another grabber is refused.
    method GrabFile(f: FileObject) returns (unknown: bool)
      requires Valid()
      requires f.g == this ==> f.index < |files| && files[f.index] == f
      modifies this`queue, this`doneFiles, this`required, this`world, files`state, files`required, Segs()
      ensures Valid() && unknown == (f.g != this)
      ensures unknown ==> world == old(world)
      ensures !unknown ==> world == GrabFileAt(old(world), f.index)
    {
      if f.g != this { return true; }
      ResetGrabbedFiles();
      assert FileShows(f.index, world.files[f.index]);
      assert forall j :: 0 <= j < |roster[f.index]| ==> roster[f.index][j] in Segs();
      match f.state {
        case Pending =>
        case Paused => ResumeAt(f, f.index);
        case _ => return false;
      }
      EnqueueOf(f, f.index);
      return false;
    }

    method GrabAll()
      requires Valid()
      modifies this`queue, this`doneFiles, this`required, this`world, files`state, files`required, Segs()
      ensures Valid() && world == GrabPendingFrom(old(world), 0)
    {
      for i := 0 to |files|
        invariant Valid()
        invariant GrabPendingFrom(world, i) == GrabPendingFrom(old(world), 0)
      {
        assert FileShows(i, world.files[i]);
        if files[i].state != Pending { continue; }
        var unknown := GrabFile(files[i]);
      }
    }

    method ResumeRequired(f: FileObject, ghost i: nat)
      requires Valid() && i < |files| && files[i] == f
      modifies this`queue, this`doneFiles, this`required, this`world, files`state, files`required, Segs()
      ensures Valid() && world == ResumeOne(old(world), i)
    {
      assert FileShows(i, world.files[i]);
      if !f.required { return; }
      assert forall j :: 0 <= j < |roster[i]| ==> roster[i][j] in Segs();
      ResumeAt(f, i);
      assert FileShows(i, world.files[i]);
      if f.state != Pending { return; }
      var unknown := GrabFile(f);
    }

    method ResumeAll()
      requires Valid()
      modifies this`queue, this`doneFiles, this`required, this`world, files`state, files`required, Segs()
      ensures Valid() && world == ResumeFrom(old(world), 0)
    {
      ghost var ws := [world];
      for i := 0 to |files|
        invariant Valid()
        invariant |ws| == i + 1 && ws[0] == old(world) && ws[i] == world && Chained(ws)
      {
        ResumeRequired(files[i], i);
        ChainedMore(ws, world);
        ws := ws + [world];
      }
      ChainedIsResume(ws, 0);
    }

    method Resume()
      requires Valid()
      modifies this`state, this`queue, this`doneFiles, this`required, this`world, files`state, files`required, Segs()
      ensures Valid() && world == ResumeGrabber(old(world))
    {
      if state != Paused { return; }
      ResumeAll();
      state := Pending;
      world := world.(state := Pending);
    }

    // A grabber for an NZB's files. Of the par2 files, the one its sort puts first is resumed.
    static method FromNZB(specs: seq<FileSpec>, servers: nat, maxRetry: int, first: Option<nat>) returns (g: Grabber)
      requires SmallestPar2(specs, first)
      ensures fresh(g) && g.Valid() && g.world == GrabModel.FromNZB(specs, servers, maxRetry, first)
      ensures g.servers == servers && g.maxRetry == maxRetry && |g.files| == |specs|
      ensures forall i :: 0 <= i < |specs| ==>
                BuiltFrom(g.world.files[i], specs[i], Wanted(specs, first, i)) && g.FileShows(i, g.world.files[i])
    {
      g := new Grabber(servers, maxRetry);
      assert specs[..0] == [];
      for i := 0 to |specs|
        invariant fresh(g) && g.Valid() && g.servers == servers && g.maxRetry == maxRetry
        invariant g.world == NewGrabber(specs[..i], servers, maxRetry)
        invariant forall k :: 0 <= k < |g.files| ==> fresh(g.files[k])
        invariant forall s :: s in g.Segs() ==> fresh(s)
      {
        g.AddFile(specs[i], specs[..i]);
        OneMoreSpec(specs, i);
      }
      assert specs[..|specs|] == specs;
      match first {
        case None =>
        case Some(p) =>
          assert g.FileShows(p, g.world.files[p]);
          assert forall j :: 0 <= j < |g.roster[p]| ==> g.roster[p][j] in g.Segs();
          g.ResumeAt(g.files[p], p);
      }
      forall i | 0 <= i < |specs|
        ensures BuiltFrom(g.world.files[i], specs[i], Wanted(specs, first, i)) && g.FileShows(i, g.world.files[i])
      {
        BuiltFile(specs, servers, maxRetry, first, i);
      }
    }

    // ---- Dispatch ----

    method SegFailed()
      modifies this`failedSegments
      ensures failedSegments == old(failedSegments) + 1
    {
      failedSegments := failedSegments + 1;
    }

    method Grab(s: SegmentObject, server: nat, group: string)
      modifies this`inflight
      ensures inflight == old(inflight) + [GrabRequest(s, server, group)]
    {
      inflight := inflight + [GrabRequest(s, server, group)];
    }

    // What dispatch makes of a segment in the Working state, for the objects it
    // touches: either it fails, is Done and counted, or a request is on its way.
    ghost predicate Tried(s: SegmentObject, t: Seg, a: Attempt, inflight0: seq<GrabRequest>, done0: nat, failed0: nat)
      reads this, s, s.f
    {
      match a
      case Failed(e) =>
        && s.View() == t.(state := State.Done, err := Some(e)) && s.f.done == done0 + 1
        && inflight == inflight0 && failedSegments == failed0 + 1
      case Asked(server, group) =>
        && s.View() == t && s.f.done == done0
        && inflight == inflight0 + [GrabRequest(s, server, group)] && failedSegments == failed0
    }

    ghost predicate Finishes(f: FileObject, finished: bool, state0: State, done0: seq<FileObject>, signals0: nat)
      reads this, f
    {
      if finished && f.done >= |f.segments| then
        && f.state == State.Done && doneFiles == done0 + [f]
        && signals == signals0 + if |doneFiles| >= required then 1 else 0
      else
        f.state == state0 && doneFiles == done0 && signals == signals0
    }

    method DispatchSegment(s: SegmentObject, env: Env, attempt: nat)
      requires s.f.g == this
      modifies this`state, this`doneFiles, this`signals, this`inflight, this`failedSegments, s, s.f`state, s.f`done
      ensures var (ok, s1, f1, g1) := SegWorks(old(s.state), old(s.f.state), old(state));
              && state == g1
              && (!ok ==>
                    && s.View() == old(s.View()).(state := s1) && s.f.state == f1 && s.f.done == old(s.f.done)
                    && doneFiles == old(doneFiles) && signals == old(signals)
                    && inflight == old(inflight) && failedSegments == old(failedSegments))
              && (ok ==>
                    var (t, a) := TryServers(old(s.View()).(state := s1), s.f.groups, servers, env, attempt);
                    && Tried(s, t, a, old(inflight), old(s.f.done), old(failedSegments))
                    && Finishes(s.f, a.Failed?, f1, old(doneFiles), old(signals)))
      decreases Unfailed(s.failedServer, servers), 1
    {
      var ok := s.Working();
      if !ok { return; }
      TryToGrab(s, env, attempt);
    }

    method TryToGrab(s: SegmentObject, env: Env, attempt: nat)
      requires s.f.g == this && s.state == State.Working
      modifies this`state, this`doneFiles, this`signals, this`inflight, this`failedSegments, s, s.f`state, s.f`done
      ensures state == old(state)
      ensures var (t, a) := TryServers(old(s.View()), s.f.groups, servers, env, attempt);
              && Tried(s, t, a, old(inflight), old(s.f.done), old(failedSegments))
              && Finishes(s.f, a.Failed?, old(s.f.state), old(doneFiles), old(signals))
      decreases Unfailed(s.failedServer, servers), 0
    {
      if !env.created(attempt) {
        s.Done(Some(OutputNotCreated));
        SegFailed();
        return;
      }
      var srv := s.SelectServer(servers);
      if srv.None? {
        s.Done(Some(NoMoreServers));
        SegFailed();
        return;
      }
      UnfailedShrinks(s.failedServer, srv.value, servers);
      if !env.alive(srv.value) {
        s.FailServer(srv.value);
        DispatchSegment(s, env, attempt + 1);
        return;
      }
      if env.expired(srv.value) {
        s.FailServer(srv.value);
        DispatchSegment(s, env, attempt + 1);
        return;
      }
      var group := s.SelectGroup(s.f.groups);
      if group.None? {
        s.FailServer(srv.value);
        DispatchSegment(s, env, attempt + 1);
        return;
      }
      Grab(s, srv.value, group.value);
    }

    // Dispatch of one segment, seen from its file.
    method DispatchFrom(s: SegmentObject, env: Env, ghost f0: File)
      requires s.f.g == this && s.f.Shows(f0) && s.ref.s < |f0.segs| && s.f.segments[s.ref.s] == s
      modifies this`state, this`doneFiles, this`signals, this`inflight, this`failedSegments, s, s.f`state, s.f`done
      ensures s.f.Shows(DispatchedFile(f0, s.ref.s, old(state), servers, env))
      ensures state == SegWorks(old(s.state), old(s.f.state), old(state)).3
      ensures var a := DispatchedTo(f0, s.ref.s, old(state), servers, env);
              && Finishes(s.f, a.Some? && a.value.Failed?, s.f.state, old(doneFiles), old(signals))
              && failedSegments == old(failedSegments) + (if a.Some? && a.value.Failed? then 1 else 0)
              && inflight == if a.Some? && a.value.Asked?
                             then old(inflight) + [GrabRequest(s, a.value.server, a.value.group)] else old(inflight)
    {
      DispatchSegment(s, env, 0);
    }

    // The same, seen from all the files.
    method DispatchAmong(s: SegmentObject, env: Env, ghost fs: seq<File>)
      requires FilesShow(fs) && Known(s)
      modifies this`state, this`doneFiles, this`signals, this`inflight, this`failedSegments,
               files`state, files`done, Segs()
      ensures FilesShow(fs[s.ref.f := DispatchedFile(fs[s.ref.f], s.ref.s, old(state), servers, env)])
      ensures state == SegWorks(fs[s.ref.f].segs[s.ref.s].state, fs[s.ref.f].state, old(state)).3
      ensures var a := DispatchedTo(fs[s.ref.f], s.ref.s, old(state), servers, env);
              && Finishes(s.f, a.Some? && a.value.Failed?, s.f.state, old(doneFiles), old(signals))
              && failedSegments == old(failedSegments) + (if a.Some? && a.value.Failed? then 1 else 0)
              && inflight == if a.Some? && a.value.Asked?
                             then old(inflight) + [GrabRequest(s, a.value.server, a.value.group)] else old(inflight)
    {
      ghost var i := s.ref.f;
      assert FileShows(i, fs[i]) && s.f == files[i];
      assert forall j :: 0 <= j < |roster[i]| ==> roster[i][j] in Segs();
      Disjoint(fs, i);
      ghost var f' := DispatchedFile(fs[i], s.ref.s, state, servers, env);
      DispatchFrom(s, env, fs[i]);
      AllShow(fs, i, f');
    }

    // The grabber shows the world after an attempt, when its parts do.
    lemma ShowsAttempt(w: World, s: SegmentObject, f: File, a: Option<Attempt>, done0: seq<FileObject>)
      requires Known(s) && s.ref.f < |w.files| && FilesShow(w.files[s.ref.f := f]) && s.f == files[s.ref.f]
      requires servers == w.servers && maxRetry == w.maxRetry && state == w.state && required == w.required
      requires |done0| == |w.doneFiles| && forall k :: 0 <= k < |done0| ==> done0[k].index == w.doneFiles[k]
      requires Finishes(s.f, a.Some? && a.value.Failed?, s.f.state, done0, w.signals)
      requires failedSegments == w.failedSegments + (if a.Some? && a.value.Failed? then 1 else 0)
      requires TokensShow(w.queue, if a.Some? && a.value.Asked?
                                   then w.inflight + [Request(s.ref, a.value.server, a.value.group)] else w.inflight)
      ensures Shows(AfterAttempt(w, s.ref, f, a))
    {
      var fs := w.files[s.ref.f := f];
      assert FileShows(s.ref.f, fs[s.ref.f]);
    }

    // Dispatch of a segment that has been taken off the queue.
    method DispatchShown(s: SegmentObject, env: Env, ghost w: World)
      requires Shows(w) && Known(s) && ValidRef(w, s.ref)
      modifies this`state, this`doneFiles, this`signals, this`inflight, this`failedSegments,
               files`state, files`done, Segs()
      ensures Shows(AfterDispatch(w, s.ref, env))
    {
      ghost var r, done0 := s.ref, doneFiles;
      assert FileShows(r.f, w.files[r.f]);
      ghost var f := DispatchedFile(w.files[r.f], r.s, w.state, servers, env);
      ghost var a := DispatchedTo(w.files[r.f], r.s, w.state, servers, env);
      TokensMoved(queue, inflight, w.queue, w.inflight, s, a);
      DispatchAmong(s, env, w.files);
      ShowsAttempt(w.(state := state), s, f, a, done0);
    }

    method DispatchTaken(s: SegmentObject, env: Env, ghost w: World)
      requires Shows(w) && Known(s) && ValidRef(w, s.ref)
      modifies this`state, this`doneFiles, this`signals, this`inflight, this`failedSegments, this`world,
               files`state, files`done, Segs()
      ensures Valid() && world == DispatchSeg(w, s.ref, env)
    {
      DispatchShown(s, env, w);
      DispatchWorld(w, s.ref, env);
      world := DispatchSeg(w, s.ref, env);
    }

    method TakeNext() returns (s: SegmentObject)
      requires Valid() && queue != []
      modifies this`queue
      ensures world.queue != [] && Known(s) && s.ref == world.queue[0] && ValidRef(world, s.ref)
      ensures Shows(world.(queue := world.queue[1..]))
    {
      s := queue[0];
      assert Known(s) && FileShows(s.ref.f, world.files[s.ref.f]);
      queue := queue[1..];
    }

    method Dispatch(env: Env)
      requires Valid() && queue != []
      modifies this`state, this`doneFiles, this`signals, this`inflight, this`failedSegments, this`world, this`queue,
               files`state, files`done, Segs()
      ensures Valid() && Enabled(old(world), Event.Dispatch(env)) && world == Step(old(world), Event.Dispatch(env))
    {
      ghost var w := world.(queue := world.queue[1..]);
      var s := TakeNext();
      DispatchTaken(s, env, w);
    }

    // ---- Responses ----

    method HandleError(s: SegmentObject, server: nat, group: string, outcome: Outcome)
      modifies s
      ensures s.View() == GrabModel.HandleError(old(s.View()), Request(s.ref, server, group), outcome, maxRetry)
      ensures outcome == NoSuchGroup ==>
                s.View() == old(s.View()).(failedGroup := old(s.failedGroup) + {group})
      ensures outcome != NoSuchGroup ==>
                if outcome in {DecodeError, NoSuchArticle} || old(s.retries) >= maxRetry
                then s.View() == old(s.View()).(failedServer := old(s.failedServer) + {server}, failedGroup := {},
                                                retries := 0)
                else s.View() == old(s.View()).(retries := old(s.retries) + 1)
    {
      match outcome {
        case DecodeError => s.FailServer(server);
        case NoSuchArticle => s.FailServer(server);
        case NoSuchGroup => s.FailGroup(group);
        case _ =>
          var again := s.RetryServer(maxRetry);
          if !again { s.FailServer(server); }
      }
    }

    // A failed response, seen from all the files.
    method FailAmong(s: SegmentObject, server: nat, group: string, outcome: Outcome, ghost fs: seq<File>)
      requires FilesShow(fs) && Known(s)
      modifies Segs()
      ensures var f := fs[s.ref.f];
              FilesShow(fs[s.ref.f := f.(segs := f.segs[s.ref.s :=
                GrabModel.HandleError(f.segs[s.ref.s], Request(s.ref, server, group), outcome, maxRetry)])])
    {
      ghost var i, f := s.ref.f, fs[s.ref.f];
      assert FileShows(i, f) && s.f == files[i];
      assert forall j :: 0 <= j < |roster[i]| ==> roster[i][j] in Segs();
      Disjoint(fs, i);
      ghost var t := GrabModel.HandleError(f.segs[s.ref.s], Request(s.ref, server, group), outcome, maxRetry);
      HandleError(s, server, group, outcome);
      AllShow(fs, i, f.(segs := f.segs[s.ref.s := t]));
    }

    // The end of a segment, seen from its file.
    method FinishFrom(s: SegmentObject, ghost f0: File)
      requires s.f.g == this && s.f.Shows(f0) && s.ref.s < |f0.segs| && s.f.segments[s.ref.s] == s
      modifies this`doneFiles, this`signals, s`state, s`err, s.f`state, s.f`done
      ensures s.f.Shows(if old(s.state) == State.Done then f0 else FinishIn(f0, s.ref.s, None))
      ensures Finishes(s.f, old(s.state) != State.Done, s.f.state, old(doneFiles), old(signals))
    {
      s.Done(None);
    }

    // The same, seen from all the files.
    method FinishAmong(s: SegmentObject, ghost fs: seq<File>)
      requires FilesShow(fs) && Known(s)
      modifies this`doneFiles, this`signals, files`state, files`done, Segs()
      ensures var f, j := fs[s.ref.f], s.ref.s;
              && FilesShow(fs[s.ref.f :=
                   if f.segs[j].state == State.Done then f
                   else FinishIn(f, j, None)])
              && Finishes(s.f, f.segs[j].state != State.Done, s.f.state, old(doneFiles), old(signals))
    {
      ghost var i, f, j := s.ref.f, fs[s.ref.f], s.ref.s;
      assert FileShows(i, f) && s.f == files[i];
      assert forall j :: 0 <= j < |roster[i]| ==> roster[i][j] in Segs();
      Disjoint(fs, i);
      ghost var f' := if f.segs[j].state == State.Done then f else FinishIn(f, j, None);
      FinishFrom(s, f);
      AllShow(fs, i, f');
    }

    // The grabber shows the world after a segment's end, when its parts do.
    lemma ShowsFinish(w: World, r: Ref, f: File, finished: bool, done0: seq<FileObject>)
      requires r.f < |files| == |w.files| && FilesShow(w.files[r.f := f])
      requires servers == w.servers && maxRetry == w.maxRetry && state == w.state && required == w.required
      requires |done0| == |w.doneFiles| && forall k :: 0 <= k < |done0| ==> done0[k].index == w.doneFiles[k]
      requires Finishes(files[r.f], finished, files[r.f].state, done0, w.signals)
      requires failedSegments == w.failedSegments && TokensShow(w.queue, w.inflight)
      ensures Shows(if finished then AfterFinish(w, r.f, f) else WithFile(w, r.f, f))
    {
      var fs := w.files[r.f := f];
      assert FileShows(r.f, fs[r.f]);
    }

    // What the response to a request that has been taken off the network does.
    method RespondTaken(s: SegmentObject, server: nat, group: string, outcome: Outcome, ghost w: World)
      requires Shows(w) && Known(s)
      modifies this`queue, this`doneFiles, this`signals, files`state, files`done, Segs()
      ensures Shows(Answered(w, Request(s.ref, server, group), outcome))
    {
      ghost var r, done0 := s.ref, doneFiles;
      assert FileShows(r.f, w.files[r.f]);
      ghost var f := w.files[r.f];
      if outcome == Grabbed {
        ghost var finished := f.segs[r.s].state != State.Done;
        FinishAmong(s, w.files);
        ShowsFinish(w, r, if finished then FinishIn(f, r.s, None) else f, finished, done0);
        if finished { SegDoneShape(w, r, None); } else { assert w.files[r.f := f] == w.files; }
      } else {
        FailAmong(s, server, group, outcome, w.files);
        Enqueue(s);
      }
    }

    method TakeResponse(k: nat) returns (q: GrabRequest)
      requires Valid() && k < |inflight|
      modifies this`inflight
      ensures k < |world.inflight| && Known(q.s) && ValidRef(world, q.s.ref)
      ensures world.inflight[k] == Request(q.s.ref, q.server, q.group)
      ensures Shows(world.(inflight := RemoveAt(world.inflight, k)))
    {
      q := inflight[k];
      assert Known(q.s) && FileShows(q.s.ref.f, world.files[q.s.ref.f]);
      inflight := RemoveAt(inflight, k);
    }

    // A response to any of the requests in flight.
    method HandleResponse(k: nat, outcome: Outcome)
      requires Valid() && k < |inflight|
      modifies this`queue, this`inflight, this`doneFiles, this`signals, this`world,
               files`state, files`done, Segs()
      ensures Valid() && Enabled(old(world), Event.Respond(k, outcome))
      ensures world == Step(old(world), Event.Respond(k, outcome))
    {
      ghost var w := world.(inflight := RemoveAt(world.inflight, k));
      var q := TakeResponse(k);
      RespondTaken(q.s, q.server, q.group, outcome, w);
      world := Answered(w, Request(q.s.ref, q.server, q.group), outcome);
    }
  }
}
