// The grab engine as a state machine over values: a grabber of files of
// segments, the work queue, and the requests in flight. Every FSM method, every
// dispatch and every response is one atomic step.
module GrabModel {
  import opened Basics

  datatype State = Pending | Pausing | Paused | Resuming | Working | Done

  datatype SegmentError = NoMoreServers | OutputNotCreated

  // A server is its position in the strategy's priority order.
  datatype Seg = Seg(
    number: int,
    state: State,
    err: Option<SegmentError>,
    failedServer: set<nat>,
    failedGroup: set<string>,
    retries: nat)

  datatype File = File(
    segs: seq<Seg>,
    groups: seq<string>,
    state: State,
    done: nat,
    required: bool)

  // A segment is named by its file and its place in that file.
  datatype Ref = Ref(f: nat, s: nat)

  datatype Request = Request(ref: Ref, server: nat, group: string)

  // `fired`, `log` and `grabbed` are history: the files in the order their Done
  // fired, every Grab call made, and the files GrabFile has enqueued.
  datatype World = World(
    servers: nat,
    maxRetry: int,
    state: State,
    files: seq<File>,
    doneFiles: seq<nat>,
    required: int,
    failedSegments: nat,
    signals: nat,
    queue: seq<Ref>,
    inflight: seq<Request>,
    fired: seq<nat>,
    log: seq<Request>,
    grabbed: set<nat>)

  // What the outside world answers during one dispatch: whether the output file
  // of the n-th attempt can be created, which servers are alive, and for which
  // of them the article is older than their retention.
  datatype Env = Env(created: nat -> bool, alive: nat -> bool, expired: nat -> bool)

  datatype Outcome = Grabbed | DecodeError | NoSuchArticle | NoSuchGroup | OtherError

  datatype Event =
    | GrabAll
    | GrabFile(file: nat)
    | Pause
    | Resume
    | Dispatch(env: Env)
    | Respond(which: nat, outcome: Outcome)

  predicate ValidRef(w: World, r: Ref) {
    r.f < |w.files| && r.s < |w.files[r.f].segs|
  }

  function SegAt(w: World, r: Ref): Seg
    requires ValidRef(w, r)
  {
    w.files[r.f].segs[r.s]
  }

  function WithFile(w: World, i: nat, f: File): World
    requires i < |w.files|
  {
    w.(files := w.files[i := f])
  }

  function WithSeg(w: World, r: Ref, s: Seg): World
    requires ValidRef(w, r)
  {
    WithFile(w, r.f, w.files[r.f].(segs := w.files[r.f].segs[r.s := s]))
  }

  // ---- Segments ----

  function SegPause(s: Seg): Seg {
    match s.state
    case Pending => s.(state := Paused)
    case Working => s.(state := Pausing)
    case _ => s
  }

  function SegResume(s: Seg): Seg {
    match s.state
    case Paused => s.(state := Pending)
    case Pausing => s.(state := Pending)
    case _ => s
  }

  function FailServer(s: Seg, srv: nat): Seg {
    s.(failedServer := s.failedServer + {srv}, failedGroup := {}, retries := 0)
  }

  function FailGroup(s: Seg, g: string): Seg {
    s.(failedGroup := s.failedGroup + {g})
  }

  predicate MayRetry(s: Seg, max: int) {
    s.retries < max
  }

  function RetryServer(s: Seg, max: int): Seg {
    if MayRetry(s, max) then s.(retries := s.retries + 1) else s
  }

  // The first of the servers from..n that has not failed.
  function SelectServer(failed: set<nat>, from: nat, n: nat): (srv: Option<nat>)
    requires from <= n
    ensures srv.Some? ==> from <= srv.value < n && srv.value !in failed
    ensures srv.Some? ==> forall k: nat :: from <= k < srv.value ==> k in failed
    ensures srv.None? ==> forall k: nat :: from <= k < n ==> k in failed
    decreases n - from
  {
    if from == n then None
    else if from in failed then SelectServer(failed, from + 1, n)
    else Some(from)
  }

  // The first of the groups that has not failed.
  function SelectGroup(failed: set<string>, groups: seq<string>): (g: Option<string>)
    ensures g.Some? ==> g.value in groups && g.value !in failed
    ensures g.Some? ==>
              exists i :: 0 <= i < |groups| && groups[i] == g.value && forall j :: 0 <= j < i ==> groups[j] in failed
    ensures g.None? <==> forall x :: x in groups ==> x in failed
  {
    if groups == [] then None
    else if groups[0] in failed then SelectGroup(failed, groups[1..])
    else Some(groups[0])
  }

  function HandleError(s: Seg, q: Request, outcome: Outcome, maxRetry: int): Seg {
    match outcome
    case DecodeError => FailServer(s, q.server)
    case NoSuchArticle => FailServer(s, q.server)
    case NoSuchGroup => FailGroup(s, q.group)
    case _ => if MayRetry(s, maxRetry) then RetryServer(s, maxRetry) else FailServer(s, q.server)
  }

  // ---- Files ----

  function PauseSegs(segs: seq<Seg>): seq<Seg> {
    seq(|segs|, i requires 0 <= i < |segs| => SegPause(segs[i]))
  }

  function ResumeSegs(segs: seq<Seg>): seq<Seg> {
    seq(|segs|, i requires 0 <= i < |segs| => SegResume(segs[i]))
  }

  function FilePause(f: File): File {
    match f.state
    case Pending => f.(state := Paused, segs := PauseSegs(f.segs))
    case Working => f.(state := Paused, segs := PauseSegs(f.segs))
    case _ => f
  }

  function FileResume(f: File): File {
    if f.state == Paused
    then f.(state := Pending, segs := ResumeSegs(f.segs), required := true)
    else f
  }

  // ---- Starting work on a segment ----

  // What Working does to the states of a grabber, of a file and its grabber, and
  // of a segment, its file and its grabber. The file's state is set before the
  // grabber is asked.
  function GrabberWorks(g: State): (bool, State) {
    match g
    case Working => (true, g)
    case Pending => (true, Working)
    case _ => (false, g)
  }

  function FileWorks(f: State, g: State): (bool, State, State) {
    match f
    case Working => (true, f, g)
    case Pending => var (ok, g1) := GrabberWorks(g); (ok, Working, g1)
    case _ => (false, f, g)
  }

  function SegWorks(s: State, f: State, g: State): (bool, State, State, State) {
    match s
    case Working => (true, s, f, g)
    case Pending =>
      var (ok, f1, g1) := FileWorks(f, g);
      (ok, if ok then Working else s, f1, g1)
    case Pausing =>
      var (ok, f1, g1) := FileWorks(f, g);
      (false, if ok then Paused else s, f1, g1)
    case _ => (false, s, f, g)
  }

  function SegWorking(w: World, r: Ref): (bool, World)
    requires ValidRef(w, r)
  {
    var f, s := w.files[r.f], SegAt(w, r);
    var (ok, s1, f1, g1) := SegWorks(s.state, f.state, w.state);
    (ok, WithFile(w, r.f, f.(state := f1, segs := f.segs[r.s := s.(state := s1)])).(state := g1))
  }

  // ---- Finishing ----

  predicate IsPostProcessable(w: World) {
    |w.doneFiles| >= w.required
  }

  function FileDone(w: World, i: nat): World
    requires i < |w.files|
  {
    var w1 := WithFile(w, i, w.files[i].(state := Done))
      .(doneFiles := w.doneFiles + [i], fired := w.fired + [i]);
    if IsPostProcessable(w1) then w1.(signals := w1.signals + 1) else w1
  }

  function FileSegmentDone(w: World, i: nat): World
    requires i < |w.files|
  {
    var f := w.files[i].(done := w.files[i].done + 1);
    var w1 := WithFile(w, i, f);
    if f.done >= |f.segs| then FileDone(w1, i) else w1
  }

  function SegDone(w: World, r: Ref, err: Option<SegmentError>): World
    requires ValidRef(w, r)
  {
    var s := SegAt(w, r);
    if s.state == Done then w
    else FileSegmentDone(WithSeg(w, r, s.(state := Done, err := err)), r.f)
  }

  function SegFailed(w: World, r: Ref, e: SegmentError): World
    requires ValidRef(w, r)
  {
    var w1 := SegDone(w, r, Some(e));
    w1.(failedSegments := w1.failedSegments + 1)
  }

  // ---- Dispatch ----

  datatype Attempt = Failed(err: SegmentError) | Asked(server: nat, group: string)

  // How many of the servers 0..n have not failed.
  function Unfailed(failed: set<nat>, n: nat): (k: nat)
    ensures k <= n
    ensures k == 0 ==> forall i: nat :: i < n ==> i in failed
  {
    if n == 0 then 0
    else Unfailed(failed, n - 1) + (if n - 1 in failed then 0 else 1)
  }

  lemma {:induction false} UnfailedShrinks(failed: set<nat>, srv: nat, n: nat)
    ensures Unfailed(failed + {srv}, n)
         == Unfailed(failed, n) - (if srv < n && srv !in failed then 1 else 0)
  {
    if n != 0 {
      UnfailedShrinks(failed, srv, n - 1);
    }
  }

  // One pass of dispatch over a segment that is in the Working state: servers
  // that are dead, out of retention or carry none of the groups are failed, and
  // the output is recreated for each of them.
  function TryServers(s: Seg, groups: seq<string>, servers: nat, env: Env, attempt: nat): (Seg, Attempt)
    decreases Unfailed(s.failedServer, servers)
  {
    if !env.created(attempt) then (s, Failed(OutputNotCreated))
    else
      match SelectServer(s.failedServer, 0, servers)
      case None => (s, Failed(NoMoreServers))
      case Some(srv) =>
        UnfailedShrinks(s.failedServer, srv, servers);
        if !env.alive(srv) || env.expired(srv)
        then TryServers(FailServer(s, srv), groups, servers, env, attempt + 1)
        else
          match SelectGroup(s.failedGroup, groups)
          case None => TryServers(FailServer(s, srv), groups, servers, env, attempt + 1)
          case Some(g) => (s, Asked(srv, g))
  }

  function DispatchSeg(w: World, r: Ref, env: Env): World
    requires ValidRef(w, r)
  {
    var (ok, w1) := SegWorking(w, r);
    if !ok then w1
    else
      var (s, a) := TryServers(SegAt(w1, r), w1.files[r.f].groups, w1.servers, env, 0);
      var w2 := WithSeg(w1, r, s);
      match a
      case Failed(e) => SegFailed(w2, r, e)
      case Asked(srv, g) =>
        w2.(inflight := w2.inflight + [Request(r, srv, g)], log := w2.log + [Request(r, srv, g)])
  }

  // ---- Responses ----

  // What a response does once its request is off the network.
  function Answered(w: World, q: Request, outcome: Outcome): World
    requires ValidRef(w, q.ref)
  {
    if outcome == Grabbed then SegDone(w, q.ref, None)
    else WithSeg(w, q.ref, HandleError(SegAt(w, q.ref), q, outcome, w.maxRetry)).(queue := w.queue + [q.ref])
  }

  function RespondTo(w: World, k: nat, outcome: Outcome): World
    requires k < |w.inflight| && ValidRef(w, w.inflight[k].ref)
  {
    Answered(w.(inflight := RemoveAt(w.inflight, k)), w.inflight[k], outcome)
  }

  // ---- The API ----

  function FileRefs(i: nat, n: nat): (rs: seq<Ref>)
    ensures |rs| == n && forall j :: 0 <= j < n ==> rs[j] == Ref(i, j)
  {
    seq(n, j requires 0 <= j < n => Ref(i, j))
  }

  function Enqueue(w: World, i: nat): World
    requires i < |w.files|
  {
    w.(queue := w.queue + FileRefs(i, |w.files[i].segs|), grabbed := w.grabbed + {i})
  }

  function ResumeFile(w: World, i: nat): World
    requires i < |w.files|
  {
    var f := w.files[i];
    if f.state != Paused then w
    else WithFile(w, i, FileResume(f)).(required := if f.required then w.required else w.required + 1)
  }

  function ResetGrabbed(w: World): World {
    if IsPostProcessable(w) then w.(doneFiles := [], required := 0) else w
  }

  function GrabFileAt(w: World, i: nat): World
    requires i < |w.files|
  {
    var w1 := ResetGrabbed(w);
    match w1.files[i].state
    case Pending => Enqueue(w1, i)
    case Paused => Enqueue(ResumeFile(w1, i), i)
    case _ => w1
  }

  function GrabPendingFrom(w: World, k: nat): (w': World)
    requires k <= |w.files|
    ensures |w'.files| == |w.files|
    decreases |w.files| - k
  {
    if k == |w.files| then w
    else if w.files[k].state != Pending then GrabPendingFrom(w, k + 1)
    else GrabPendingFrom(GrabFileAt(w, k), k + 1)
  }

  function PauseFiles(files: seq<File>): seq<File> {
    seq(|files|, i requires 0 <= i < |files| => FilePause(files[i]))
  }

  function PauseGrabber(w: World): World {
    if w.state == Pending || w.state == Working
    then w.(files := PauseFiles(w.files), state := Paused)
    else w
  }

  // Par2 and filtered files stay paused until they are asked for by name.
  function ResumeOne(w: World, k: nat): (w': World)
    requires k < |w.files|
    ensures |w'.files| == |w.files|
  {
    if !w.files[k].required then w
    else
      var w1 := ResumeFile(w, k);
      if w1.files[k].state != Pending then w1 else GrabFileAt(w1, k)
  }

  function ResumeFrom(w: World, k: nat): (w': World)
    requires k <= |w.files|
    ensures |w'.files| == |w.files|
    decreases |w.files| - k
  {
    if k == |w.files| then w else ResumeFrom(ResumeOne(w, k), k + 1)
  }

  function ResumeGrabber(w: World): World {
    if w.state == Paused then ResumeFrom(w, 0).(state := Pending) else w
  }

  // ---- The machine ----

  // Asking for a file of another grabber is refused and changes nothing.
  predicate Enabled(w: World, e: Event) {
    match e
    case Dispatch(_) => w.queue != [] && ValidRef(w, w.queue[0])
    case Respond(k, _) => k < |w.inflight| && ValidRef(w, w.inflight[k].ref)
    case _ => true
  }

  function Step(w: World, e: Event): World
    requires Enabled(w, e)
  {
    match e
    case GrabAll => GrabPendingFrom(w, 0)
    case GrabFile(i) => if i < |w.files| then GrabFileAt(w, i) else w
    case Pause => PauseGrabber(w)
    case Resume => ResumeGrabber(w)
    case Dispatch(env) => DispatchSeg(w.(queue := w.queue[1..]), w.queue[0], env)
    case Respond(k, outcome) => RespondTo(w, k, outcome)
  }

  // ---- Construction from an NZB ----

  datatype FileSpec = FileSpec(numbers: seq<int>, groups: seq<string>, par2: bool, filtered: bool)

  function NewSeg(number: int): Seg {
    Seg(number, Pending, None, {}, {}, 0)
  }

  function NewFile(spec: FileSpec): File {
    var segs := seq(|spec.numbers|, i requires 0 <= i < |spec.numbers| => NewSeg(spec.numbers[i]));
    var f := File(segs, spec.groups, Pending, 0, true);
    if spec.par2 || spec.filtered then FilePause(f.(required := false)) else f
  }

  function RequiredOne(f: File): nat {
    if f.required then 1 else 0
  }

  // The par2 file that a sort by segment count puts first; the sort is not
  // stable, so any smallest one may be it.
  predicate SmallestPar2(specs: seq<FileSpec>, first: Option<nat>) {
    match first
    case None => forall i :: 0 <= i < |specs| ==> !specs[i].par2
    case Some(p) =>
      && p < |specs| && specs[p].par2
      && forall i :: 0 <= i < |specs| && specs[i].par2 ==> |specs[p].numbers| <= |specs[i].numbers|
  }

  function NewGrabber(specs: seq<FileSpec>, servers: nat, maxRetry: int): World {
    var files := seq(|specs|, i requires 0 <= i < |specs| => NewFile(specs[i]));
    World(servers, maxRetry, Pending, files, [], Sum(files, RequiredOne), 0, 0, [], [], [], [], {})
  }

  function FromNZB(specs: seq<FileSpec>, servers: nat, maxRetry: int, first: Option<nat>): World
    requires SmallestPar2(specs, first)
  {
    var w := NewGrabber(specs, servers, maxRetry);
    match first
    case None => w
    case Some(p) => ResumeFile(w, p)
  }
}
