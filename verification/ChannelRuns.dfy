// The grab engine run over its channels. The atomic queue and the requests in
// flight of the state machine are what the channels hold, every run over them
// is a run of the state machine, and it comes to an end with the work done.
module ChannelRuns {
  import opened Basics
  import opened GrabModel
  import opened GrabInvariant
  import opened GrabNetwork
  import opened GrabApi
  import opened GrabTermination
  import opened Channels
  import GrabRequests
  import opened GrabStranding
  import GrabTheorems

  // A hop, or one of the two steps of the engine itself: what dispatch makes of a
  // segment, and what the answer to a request does, one of the equal ones in flight.
  datatype Move = Hopping(e: Hop) | Decide(env: Env) | Answer(k: nat, outcome: Outcome)

  function EventOf(m: Move): Event
    requires !m.Hopping?
  {
    match m
    case Decide(env) => Event.Dispatch(env)
    case Answer(k, outcome) => Event.Respond(k, outcome)
  }

  // Finishing a file takes the lock.
  predicate LockFree(n: Net, w: World, w': World) {
    |w'.fired| > |w.fired| ==> !Signalling(n)
  }

  predicate CanMove(n: Net, w: World, m: Move) {
    match m
    case Hopping(e) => CanHop(n, e)
    case Decide(env) =>
      && n.dispatcher.Holding? && !Locked(n.caller)
      && Enabled(w, EventOf(m)) && LockFree(n, w, Step(w, EventOf(m)))
    case Answer(k, outcome) =>
      && n.responder.Handling? && Enabled(w, EventOf(m)) && w.inflight[k] == n.responder.q
      && LockFree(n, w, Step(w, EventOf(m)))
  }

  function AfterDispatch(w: World, w': World): Dispatcher {
    if w'.signals > w.signals then DispatchSignals
    else if |w'.inflight| > |w.inflight| then Sending(w'.inflight[|w.inflight|])
    else Waiting
  }

  // A failed segment has been dealt with and is to go back to the queue.
  function AfterResponse(q: Request, outcome: Outcome, w: World, w': World): Responder {
    if outcome != Grabbed then Requeueing(q.ref)
    else if w'.signals > w.signals then RespondSignals
    else Listening
  }

  function Moved(n: Net, w: World, m: Move): (Net, World)
    requires CanMove(n, w, m)
  {
    match m
    case Hopping(e) => (Hopped(n, e), w)
    case Decide(env) =>
      var w' := Step(w, EventOf(m));
      (n.(dispatcher := AfterDispatch(w, w')), w')
    case Answer(k, outcome) =>
      var w' := Step(w, EventOf(m));
      (n.(responder := AfterResponse(n.responder.q, outcome, w, w')), w')
  }

  // ---- The channels hold the state machine's queue and requests ----

  // What the responder is about to enqueue.
  function Returning(r: Responder): seq<Ref> {
    if r.Requeueing? then [r.ref] else []
  }

  ghost predicate Carries(n: Net, w: World) {
    && |n.links| == w.servers && Connected(n) && n.caller == Away
    && w.queue == Queued(n) + Returning(n.responder)
    && forall q :: OnTheWay(n, q) == Sum(w.inflight, IsRequest(q))
  }

  lemma {:induction false} CountIn(s: seq<Request>, q: Request)
    ensures Sum(s, IsRequest(q)) > 0 <==> q in s
  {
    if s != [] { CountIn(s[1..], q); }
  }

  lemma HopCarries(n: Net, w: World, e: Hop)
    requires Carries(n, w) && CanHop(n, e)
    ensures Carries(Hopped(n, e), w)
  {
    HopKeepsQueue(n, e);
    assert Queued(n) + [] == Queued(n);
    forall q ensures OnTheWay(Hopped(n, e), q) == Sum(w.inflight, IsRequest(q)) {
      HopKeepsRequests(n, e, q);
    }
  }

  // What dispatch does to the tokens and the signals.
  ghost predicate DispatchTokens(w: World, w': World) {
    && w.queue != [] && w'.queue == w.queue[1..] && w'.servers == w.servers
    && (|| (w'.inflight == w.inflight)
        || (w'.signals == w.signals && |w'.inflight| == |w.inflight| + 1
            && w'.inflight == w.inflight + [w'.inflight[|w.inflight|]]
            && w'.inflight[|w.inflight|].server < w.servers))
  }

  lemma DispatchMovesToken(w: World, env: Env)
    requires Inv(w) && Enabled(w, Event.Dispatch(env))
    ensures DispatchTokens(w, Step(w, Event.Dispatch(env)))
  {
    var r := w.queue[0];
    DispatchCases(w, env);
    if Startable(w, r) {
      var (w2, a) := Tried(w, env);
      TriedOnlyAt(w, env);
      match a {
        case Failed(e) => SegDoneOnlyAt(w2, r, Some(e));
        case Asked(srv, g) =>
          var w1 := Started(Dequeued(w), r);
          TryServersOutcome(SegAt(w1, r), w1.files[r.f].groups, w1.servers, env, 0);
      }
    }
  }

  lemma DecideCarries(n: Net, w: World, w': World)
    requires Carries(n, w) && n.dispatcher.Holding? && DispatchTokens(w, w')
    ensures Carries(n.(dispatcher := AfterDispatch(w, w')), w')
  {
    var n' := n.(dispatcher := AfterDispatch(w, w'));
    assert Queued(n') + Returning(n.responder) == (Queued(n) + Returning(n.responder))[1..];
    forall q ensures OnTheWay(n', q) == Sum(w'.inflight, IsRequest(q)) {
      if w'.inflight != w.inflight { SumLast(w.inflight, w'.inflight[|w.inflight|], IsRequest(q)); }
    }
  }

  // What a response does to them.
  ghost predicate RespondTokens(w: World, w': World, k: nat, back: bool) {
    && k < |w.inflight| && w'.inflight == RemoveAt(w.inflight, k) && w'.servers == w.servers
    && w'.queue == if back then w.queue + [w.inflight[k].ref] else w.queue
  }

  lemma ResponseMovesToken(w: World, k: nat, outcome: Outcome)
    requires Enabled(w, Event.Respond(k, outcome))
    ensures RespondTokens(w, Step(w, Event.Respond(k, outcome)), k, outcome != Grabbed)
  {
    var w1 := Received(w, k);
    if outcome == Grabbed { SegDoneOnlyAt(w1, w.inflight[k].ref, None); }
  }

  lemma AnswerCarries(n: Net, w: World, w': World, k: nat, r: Responder)
    requires Carries(n, w) && RespondTokens(w, w', k, r.Requeueing?)
    requires n.responder == Handling(w.inflight[k])
    requires r == Listening || r == RespondSignals || r == Requeueing(w.inflight[k].ref)
    ensures Carries(n.(responder := r), w')
  {
    var n' := n.(responder := r);
    assert Queued(n') == Queued(n) && Queued(n) + [] == Queued(n);
    forall q ensures OnTheWay(n', q) == Sum(w'.inflight, IsRequest(q)) {
      SumRemoveAt(w.inflight, k, IsRequest(q));
      assert OnTheWay(n, q) == Sum(w.inflight, IsRequest(q));
    }
  }

  // Every move over the channels is a step of the state machine, or leaves it
  // alone, and keeps the channels carrying its tokens.
  lemma MoveRefines(n: Net, w: World, m: Move)
    requires Inv(w) && Carries(n, w) && CanMove(n, w, m)
    ensures var (n', w') := Moved(n, w, m);
            && Carries(n', w')
            && (if m.Hopping? then w' == w
                else var e := EventOf(m); Network(e) && Enabled(w, e) && w' == Step(w, e))
  {
    match m
    case Hopping(e) => HopCarries(n, w, e);
    case Decide(env) =>
      DispatchMovesToken(w, env);
      DecideCarries(n, w, Step(w, EventOf(m)));
    case Answer(k, outcome) =>
      ResponseMovesToken(w, k, outcome);
      AnswerCarries(n, w, Step(w, EventOf(m)), k, Moved(n, w, m).0.responder);
  }

  // ---- It never stops early ----

  // As long as there is work anywhere, some goroutine can move, whatever dispatch
  // finds and whatever the server answered.
  lemma SomeMove(n: Net, w: World, env: Env, outcome: Outcome) returns (m: Move)
    requires Inv(w) && Carries(n, w) && !Idle(n)
    ensures CanMove(n, w, m)
    ensures m.Decide? ==> m.env == env
    ensures m.Answer? ==> m.outcome == outcome
  {
    if Signalling(n) {
      m := Hopping(Signalled);
    } else if n.dispatcher.Holding? {
      assert OwnedRef(w, w.queue[0]);
      m := Decide(env);
    } else if n.responder.Handling? {
      var k := FindRequest(n, w);
      m := Answer(k, outcome);
    } else {
      var e := NeverStuck(n);
      m := Hopping(e);
    }
  }

  lemma FindRequest(n: Net, w: World) returns (k: nat)
    requires Inv(w) && Carries(n, w) && n.responder.Handling?
    ensures k < |w.inflight| && w.inflight[k] == n.responder.q && ValidRef(w, w.inflight[k].ref)
  {
    assert OnTheWay(n, n.responder.q) > 0;
    CountIn(w.inflight, n.responder.q);
    k :| 0 <= k < |w.inflight| && w.inflight[k] == n.responder.q;
    assert w.inflight[k] in w.inflight;
  }

  // The world's measure first, and how far the channels' contents have to go.
  lemma MoveDecreases(n: Net, w: World, m: Move)
    requires Inv(w) && Carries(n, w) && CanMove(n, w, m)
    ensures var (n', w') := Moved(n, w, m);
            Below(MeasureOf(w'), MeasureOf(w)) || (w' == w && Hops(n') < Hops(n))
  {
    MoveRefines(n, w, m);
    match m
    case Hopping(e) => HopsShrink(n, e);
    case _ => NetworkDecreases(w, EventOf(m));
  }

  lemma MoveKeeps(n: Net, w: World, m: Move)
    requires Inv(w) && Carries(n, w) && CanMove(n, w, m)
    ensures var (n', w') := Moved(n, w, m); Inv(w') && Carries(n', w')
  {
    MoveRefines(n, w, m);
    if !m.Hopping? { StepKeeps(w, EventOf(m)); }
  }

  // Picks who moves next, and may choose differently at every moment.
  type Scheduling = (nat, Net, World) -> Move

  ghost predicate Picks(pick: Scheduling) {
    forall i: nat, n, w {:trigger pick(i, n, w)} :: Inv(w) && Carries(n, w) && !Idle(n) ==> CanMove(n, w, pick(i, n, w))
  }

  // The states a scheduler passes through until all is idle.
  ghost predicate RunsDry(pick: Scheduling, i: nat, n: Net, w: World, ms: seq<Move>, n': Net, w': World)
    decreases |ms|
  {
    if ms == [] then Idle(n) && n' == n && w' == w
    else
      && !Idle(n) && CanMove(n, w, ms[0]) && ms[0] == pick(i, n, w)
      && RunsDry(pick, i + 1, Moved(n, w, ms[0]).0, Moved(n, w, ms[0]).1, ms[1..], n', w')
  }

  // Every schedule runs dry, and what it did is a run `es` of the state machine.
  lemma {:induction false} EveryRunDries(pick: Scheduling, i: nat, n: Net, w: World)
    returns (ms: seq<Move>, es: seq<Event>, n': Net, w': World)
    requires Inv(w) && Carries(n, w) && Picks(pick)
    ensures RunsDry(pick, i, n, w, ms, n', w') && Idle(n') && Carries(n', w')
    ensures GrabRequests.NetworkRun(w, es, w')
    decreases MeasureOf(w).tokens, MeasureOf(w).servers, MeasureOf(w).atFailedServer, MeasureOf(w).groups,
      MeasureOf(w).onFailedGroup, MeasureOf(w).retries, MeasureOf(w).queued, Hops(n)
  {
    if Idle(n) {
      ms, es, n', w' := [], [], n, w;
    } else {
      var m := pick(i, n, w);
      var (n1, w1) := Moved(n, w, m);
      MoveDecreases(n, w, m);
      MoveRefines(n, w, m);
      MoveKeeps(n, w, m);
      var rest, more;
      rest, more, n', w' := EveryRunDries(pick, i + 1, n1, w1);
      ms := [m] + rest;
      assert ms[1..] == rest;
      es := if m.Hopping? then more else [EventOf(m)] + more;
      if !m.Hopping? { assert es[1..] == more; }
    }
  }

  // ---- And when it stops the work is done ----

  lemma {:induction false} FreeSessions(sessions: seq<Session>, j: Job)
    requires forall i :: 0 <= i < |sessions| ==> sessions[i] == Free
    ensures Sum(sessions, InSession(j)) == 0
  {
    if sessions != [] { FreeSessions(sessions[1..], j); }
  }

  lemma IdleHoldsNothing(n: Net, q: Request)
    requires Idle(n)
    ensures OnTheWay(n, q) == 0
  {
    if q.server < |n.links| {
      assert EmptyLink(n.links[q.server]);
      FreeSessions(n.links[q.server].sessions, AsJob(q));
    }
  }

  lemma IdleIsQuiet(n: Net, w: World)
    requires Carries(n, w) && Idle(n)
    ensures Quiet(w)
  {
    if w.inflight != [] {
      IdleHoldsNothing(n, w.inflight[0]);
      CountIn(w.inflight, w.inflight[0]);
    }
  }

  // ---- API calls ----

  // An API call adds to the end of the queue and leaves requests alone.
  ghost predicate OnlyQueues(w: World, w': World) {
    w.queue <= w'.queue && w'.inflight == w.inflight && w'.servers == w.servers
  }

  lemma {:induction false} GrabAllQueues(w: World, k: nat)
    requires k <= |w.files|
    ensures OnlyQueues(w, GrabPendingFrom(w, k))
    decreases |w.files| - k
  {
    if k < |w.files| {
      GrabAllQueues(if w.files[k].state == Pending then GrabFileAt(w, k) else w, k + 1);
    }
  }

  lemma {:induction false} ResumeQueues(w: World, k: nat)
    requires k <= |w.files|
    ensures OnlyQueues(w, ResumeFrom(w, k))
    decreases |w.files| - k
  {
    if k < |w.files| { ResumeQueues(ResumeOne(w, k), k + 1); }
  }

  lemma CallQueues(w: World, e: Event)
    requires !Network(e)
    ensures OnlyQueues(w, Step(w, e))
  {
    match e
    case GrabAll => GrabAllQueues(w, 0);
    case GrabFile(i) =>
    case Pause =>
    case Resume => if w.state == Paused { ResumeQueues(w, 0); }
  }

  // The channels after a call whose segments the pump has taken in, behind what was
  // on its way to the queue.
  ghost function Called(n: Net, w: World, w': World): Net
    requires w.queue <= w'.queue
  {
    n.(b := n.b + n.qIn + Returning(n.responder) + w'.queue[|w.queue|..], qIn := [],
       responder := if n.responder.Requeueing? then Listening else n.responder)
  }

  lemma CallCarries(n: Net, w: World, e: Event)
    requires Carries(n, w) && !Network(e)
    ensures OnlyQueues(w, Step(w, e)) && Carries(Called(n, w, Step(w, e)), Step(w, e))
  {
    var w' := Step(w, e);
    CallQueues(w, e);
    var more, n' := w'.queue[|w.queue|..], Called(n, w, w');
    assert w'.queue == w.queue + more;
    assert Queued(n') == Queued(n) + Returning(n.responder) + more;
    assert Queued(n') + [] == Queued(n');
    forall q ensures OnTheWay(n', q) == Sum(w'.inflight, IsRequest(q)) {
      assert OnTheWay(n, q) == Sum(w.inflight, IsRequest(q));
    }
  }

  // Channels and goroutines that have nothing to do.
  ghost function Resting(sessions: seq<nat>): Net {
    Net(Away, [], [], [], Waiting,
        seq(|sessions|, s requires 0 <= s < |sessions| => Link([], seq(sessions[s], i => Free), [], None)),
        [], Listening)
  }

  lemma RestingCarries(w: World, sessions: seq<nat>)
    requires |sessions| == w.servers && Quiet(w) && forall s :: 0 <= s < |sessions| ==> sessions[s] > 0
    ensures Carries(Resting(sessions), w)
  {
    var n := Resting(sessions);
    assert Queued(n) + Returning(n.responder) == [];
    forall q ensures OnTheWay(n, q) == Sum(w.inflight, IsRequest(q)) {
      IdleHoldsNothing(n, q);
    }
  }

  // However the goroutines are scheduled and whatever the servers answer, work
  // under way over the channels runs dry. What they did is a run of the state
  // machine, and unless the grabber is paused the files grabbed by then are Done,
  // if they have segments and none was stranded.
  lemma WorkCompletes(pick: Scheduling, n: Net, w: World)
    returns (ms: seq<Move>, es: seq<Event>, n': Net, w': World)
    requires Inv(w) && Carries(n, w) && Picks(pick)
    ensures RunsDry(pick, 0, n, w, ms, n', w') && GrabRequests.NetworkRun(w, es, w')
    ensures Idle(n') && Quiet(w')
    ensures w.state != Paused ==>
              forall i: nat :: i in w.grabbed ==>
                && i < |w.files| == |w'.files|
                && (w'.files[i].state == Done <==>
                      w.files[i].segs != [] && forall r: Ref :: r.f == i ==> !Stranded(w, r))
  {
    ms, es, n', w' := EveryRunDries(pick, 0, n, w);
    IdleIsQuiet(n', w');
    GrabTheorems.RunSameDemand(w, es, w');
    if w.state != Paused {
      forall r ensures Stranded(w', r) <==> Stranded(w, r) { GrabTheorems.RunStrandsNone(w, es, w', r); }
      forall i: nat | i in w.grabbed
        ensures i < |w.files|
        ensures w'.files[i].state == Done <==> w.files[i].segs != [] && forall r: Ref :: r.f == i ==> !Stranded(w, r)
      {
        GrabTheorems.QuietMeansDone(w', i);
        assert |w'.files[i].segs| == |w.files[i].segs|;
      }
    }
  }

  // GrabAll at any moment, run over the channels: every required file gets Done
  // and the counters say so, if and only if each has segments and none was
  // stranded.
  lemma GrabAllOverChannels(pick: Scheduling, n: Net, w: World) returns (ms: seq<Move>, n': Net, w': World)
    requires Inv(w) && w.state != Paused && Carries(n, w) && Picks(pick)
    ensures OnlyQueues(w, Step(w, GrabAll))
    ensures RunsDry(pick, 0, Called(n, w, Step(w, GrabAll)), Step(w, GrabAll), ms, n', w') && Idle(n')
    ensures GrabTheorems.RequiredDone(w') <==> GrabTheorems.Finishable(w)
    ensures GrabTheorems.Finishable(w) ==> IsPostProcessable(w') && w'.required == |w'.doneFiles|
  {
    StepKeeps(w, GrabAll);
    CallCarries(n, w, GrabAll);
    var es;
    ms, es, n', w' := WorkCompletes(pick, Called(n, w, Step(w, GrabAll)), Step(w, GrabAll));
    GrabTheorems.GrabAllRunCompletes(w, es, w');
  }
}
