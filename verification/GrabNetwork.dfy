// Dispatches and responses keep the invariant.
module GrabNetwork {
  import opened Basics
  import opened GrabModel
  import opened GrabInvariant

  // What one pass over the servers leaves behind. It fails a server only for being
  // dead or out of retention, or because every group has failed there; it gives up
  // on the segment only when no server is left or an output cannot be created; and
  // otherwise it asks the best server left for the first group left.
  lemma {:induction false} TryServersOutcome(s: Seg, groups: seq<string>, servers: nat, env: Env, attempt: nat)
    ensures var (t, a) := TryServers(s, groups, servers, env, attempt);
            && Failover(s, t)
            && (t == s || Unfailed(t.failedServer, servers) < Unfailed(s.failedServer, servers))
            && (forall k :: k in t.failedServer && k !in s.failedServer ==>
                  !env.alive(k) || env.expired(k) || forall x :: x in groups ==> x in s.failedGroup)
            && match a
               case Failed(NoMoreServers) => forall k: nat :: k < servers ==> k in t.failedServer
               case Failed(OutputNotCreated) => exists n: nat :: attempt <= n && !env.created(n)
               case Asked(srv, g) =>
                 && srv < servers && srv !in t.failedServer
                 && env.alive(srv) && !env.expired(srv)
                 && (forall k: nat :: k < srv ==> k in t.failedServer)
                 && SelectGroup(t.failedGroup, groups) == Some(g)
    decreases Unfailed(s.failedServer, servers)
  {
    if env.created(attempt) {
      match SelectServer(s.failedServer, 0, servers)
      case None =>
      case Some(srv) =>
        UnfailedShrinks(s.failedServer, srv, servers);
        if !env.alive(srv) || env.expired(srv) || SelectGroup(s.failedGroup, groups).None? {
          TryServersOutcome(FailServer(s, srv), groups, servers, env, attempt + 1);
        }
    }
  }

  // A file keeps what it has, if the segment that changes is finished or has a
  // token afterwards and no other segment loses one.
  lemma NotLostInKept(w: World, w': World, r: Ref, i: nat)
    requires OnlyAt(w, w', r) && i < |w.files| && NotLostIn(w, i)
    requires forall x :: x != r && HasToken(w, x) ==> HasToken(w', x)
    requires i == r.f && Unfinished(SegAt(w', r)) ==> HasToken(w', r)
    ensures NotLostIn(w', i)
  {
    forall j: nat | j < |w'.files[i].segs| && Unfinished(w'.files[i].segs[j]) ensures HasToken(w', Ref(i, j)) {
      if Ref(i, j) != r { assert HasToken(w, Ref(i, j)); }
    }
  }

  // A step that touches no other segment and takes no other segment's token
  // loses nothing, if the one it touches is finished or has a token, or its file
  // has started.
  lemma PendingHeldKept(w: World, w': World, r: Ref)
    requires PendingHeld(w) && OnlyAt(w, w', r)
    requires forall x :: x != r && HasToken(w, x) ==> HasToken(w', x)
    requires w'.files[r.f].state == Pending ==>
               w.files[r.f].state == Pending && (Unfinished(SegAt(w', r)) ==> HasToken(w', r))
    ensures PendingHeld(w')
  {
    forall i: nat | i < |w'.files| && i in w'.grabbed && w'.files[i].state == Pending ensures NotLostIn(w', i) {
      NotLostInKept(w, w', r, i);
    }
  }

  // One segment and its file changed; the tokens are old ones or name it.
  lemma TokensKept(w: World, w': World, r: Ref)
    requires Tokens(w) && OnlyAt(w, w', r) && r.f in w.grabbed
    requires forall k :: 0 <= k < |w'.queue| ==> w'.queue[k] == r || w'.queue[k] in w.queue
    requires forall q :: q in w'.log ==> q in w.log || q.ref == r
    requires forall q :: q in w'.inflight ==>
               q in w.inflight || (q.ref == r && q.server < w.servers && q.group in w.files[r.f].groups)
    ensures Tokens(w')
  {
    forall k | 0 <= k < |w'.queue| ensures OwnedRef(w', w'.queue[k]) {
      assert OwnedRef(w, w'.queue[k]);
    }
  }

  // Both, when the step loses at most tokens of the segment it touches.
  lemma RestKept(w: World, w': World, r: Ref)
    requires Tokens(w) && PendingHeld(w) && OnlyAt(w, w', r) && r.f in w.grabbed
    requires w'.log == w.log && forall q :: q in w'.inflight ==> q in w.inflight
    requires forall x :: x != r && x in w.queue ==> x in w'.queue
    requires forall x :: x != r && InFlight(w, x) ==> InFlight(w', x)
    requires forall k :: 0 <= k < |w'.queue| ==> w'.queue[k] == r || w'.queue[k] in w.queue
    requires w'.files[r.f].state == Pending ==>
               w.files[r.f].state == Pending && (Unfinished(SegAt(w', r)) ==> r in w'.queue)
    ensures Tokens(w') && PendingHeld(w')
  {
    TokensKept(w, w', r);
    PendingHeldKept(w, w', r);
  }

  ghost function Dequeued(w: World): World
    requires w.queue != []
  {
    w.(queue := w.queue[1..])
  }

  // The segment dispatch works on once its state allows it, and after its
  // servers have been tried.
  ghost function Tried(w: World, env: Env): (World, Attempt)
    requires w.queue != [] && ValidRef(w, w.queue[0])
  {
    var r := w.queue[0];
    var w1 := Started(Dequeued(w), r);
    var (t, a) := TryServers(SegAt(w1, r), w1.files[r.f].groups, w1.servers, env, 0);
    (WithSeg(w1, r, t), a)
  }

  lemma DispatchCases(w: World, env: Env)
    requires Inv(w) && Enabled(w, Dispatch(env))
    ensures var r, w' := w.queue[0], Step(w, Dispatch(env));
            var (w2, a) := Tried(w, env);
            if Startable(w, r)
            then w' == match a
                       case Failed(e) => SegFailed(w2, r, e)
                       case Asked(srv, g) =>
                         w2.(inflight := w2.inflight + [Request(r, srv, g)], log := w2.log + [Request(r, srv, g)])
            else if Unfinished(SegAt(w, r)) then w' == Halted(Dequeued(w), r.f)
            else w' == Dequeued(w)
    ensures var r := w.queue[0]; OwnedRef(w, r) && w.files[r.f].required
    ensures var r := w.queue[0];
            Unfinished(SegAt(w, r)) ==> w.files[r.f].state == Pending || w.files[r.f].state == Working
  {
    var r := w.queue[0];
    assert OwnedRef(w, r);
    StartCases(Dequeued(w), r);
    assert Startable(Dequeued(w), r) == Startable(w, r);
  }

  lemma CoreDequeued(w: World)
    requires Core(w) && w.queue != []
    ensures Core(Dequeued(w))
  {
    CoreIgnoresTokens(w, w.queue[1..], w.inflight);
  }

  lemma CoreIgnoresTokens(w: World, queue: seq<Ref>, inflight: seq<Request>)
    requires Core(w)
    ensures Core(w.(queue := queue, inflight := inflight))
  {
    var w' := w.(queue := queue, inflight := inflight);
    assert forall x :: ValidRef(w', x) <==> ValidRef(w, x);
    assert forall x :: ValidRef(w, x) ==> SegAt(w', x) == SegAt(w, x);
  }

  lemma CoreTried(w: World, env: Env)
    requires Core(w) && w.queue != [] && ValidRef(w, w.queue[0]) && w.files[w.queue[0].f].required
    requires Startable(w, w.queue[0])
    ensures Core(Tried(w, env).0)
  {
    var r := w.queue[0];
    CoreDequeued(w);
    CoreStarted(Dequeued(w), r);
    var w1 := Started(Dequeued(w), r);
    TryServersOutcome(SegAt(w1, r), w1.files[r.f].groups, w1.servers, env, 0);
    CoreFailover(w1, r, SegAt(Tried(w, env).0, r));
  }

  lemma CoreAsked(w: World, q: Request)
    requires Core(w) && ValidRef(w, q.ref)
    requires q.server < w.servers && q.server !in SegAt(w, q.ref).failedServer
    requires forall k: nat :: k < q.server ==> k in SegAt(w, q.ref).failedServer
    ensures Core(w.(inflight := w.inflight + [q], log := w.log + [q]))
  {
    var w' := w.(inflight := w.inflight + [q], log := w.log + [q]);
    assert forall x :: ValidRef(w', x) <==> ValidRef(w, x);
    assert forall x :: ValidRef(w, x) ==> SegAt(w', x) == SegAt(w, x);
    forall a | 0 <= a < |w.log| && w.log[a].ref == q.ref ensures w.log[a].server <= q.server {
      assert ValidRef(w, w.log[a].ref);
    }
  }

  lemma DispatchDropped(w: World)
    requires Inv(w) && w.queue != [] && OwnedRef(w, w.queue[0]) && !Unfinished(SegAt(w, w.queue[0]))
    ensures Inv(Dequeued(w))
  {
    var r, w' := w.queue[0], Dequeued(w);
    CoreDequeued(w);
    assert forall x :: x in w.queue && x != r ==> x in w'.queue;
    RestKept(w, w', r);
  }

  lemma HaltedOnlyAt(w: World, r: Ref)
    requires ValidRef(w, r)
    ensures OnlyAt(w, Halted(w, r.f), r) && SegAt(Halted(w, r.f), r) == SegAt(w, r)
  {
  }

  lemma DispatchHalted(w: World)
    requires Inv(w) && w.queue != [] && OwnedRef(w, w.queue[0])
    requires w.files[w.queue[0].f].required && w.files[w.queue[0].f].state == Pending
    ensures Inv(Halted(Dequeued(w), w.queue[0].f))
  {
    var r, w' := w.queue[0], Halted(Dequeued(w), w.queue[0].f);
    CoreDequeued(w);
    CoreHalted(Dequeued(w), r);
    HaltedOnlyAt(Dequeued(w), r);
    assert forall x :: x in w.queue && x != r ==> x in w'.queue;
    RestKept(w, w', r);
  }

  lemma TriedOnlyAt(w: World, env: Env)
    requires w.queue != [] && ValidRef(w, w.queue[0])
    ensures var (w2, a) := Tried(w, env);
            && OnlyAt(w, w2, w.queue[0])
            && w2.queue == w.queue[1..] && w2.inflight == w.inflight && w2.log == w.log
            && w2.state == (if w.files[w.queue[0].f].state == Pending then Working else w.state)
            && w2.maxRetry == w.maxRetry && w2.files[w.queue[0].f].state == Working
            && SegAt(w2, w.queue[0]).state == Working
  {
    var r := w.queue[0];
    var w1 := Started(Dequeued(w), r);
    TryServersOutcome(SegAt(w1, r), w1.files[r.f].groups, w1.servers, env, 0);
  }

  lemma SegDoneOnlyAt(w: World, r: Ref, err: Option<SegmentError>)
    requires ValidRef(w, r)
    ensures var w' := SegDone(w, r, err);
            && OnlyAt(w, w', r)
            && w'.queue == w.queue && w'.inflight == w.inflight && w'.log == w.log
            && w'.state == w.state && w'.maxRetry == w.maxRetry
            && w'.failedSegments == w.failedSegments
            && SegAt(w', r).state == Done
            && (w'.files[r.f].state == w.files[r.f].state || w'.files[r.f].state == Done)
  {
    if SegAt(w, r).state != Done { SegDoneShape(w, r, err); }
  }

  lemma OnlyAtTwice(w: World, w1: World, w2: World, r: Ref)
    requires OnlyAt(w, w1, r) && OnlyAt(w1, w2, r)
    ensures OnlyAt(w, w2, r)
  {
  }

  lemma CoreFailed(w: World, env: Env, e: SegmentError)
    requires Inv(w) && w.queue != [] && OwnedRef(w, w.queue[0]) && Tried(w, env).1 == Failed(e)
    requires Startable(w, w.queue[0]) && w.files[w.queue[0].f].required
    ensures Core(SegFailed(Tried(w, env).0, w.queue[0], e))
  {
    var r, w2 := w.queue[0], Tried(w, env).0;
    CoreTried(w, env);
    TriedOnlyAt(w, env);
    var w1 := Started(Dequeued(w), r);
    TryServersOutcome(SegAt(w1, r), w1.files[r.f].groups, w1.servers, env, 0);
    SegDoneOnlyAt(w2, r, Some(e));
    CoreSegDone(w2, r, Some(e));
  }

  lemma FailedOnlyAt(w: World, env: Env, e: SegmentError)
    requires w.queue != [] && ValidRef(w, w.queue[0])
    ensures var w' := SegFailed(Tried(w, env).0, w.queue[0], e);
            && OnlyAt(w, w', w.queue[0]) && SegAt(w', w.queue[0]).state == Done
            && w'.files[w.queue[0].f].state != Pending
            && w'.queue == w.queue[1..] && w'.inflight == w.inflight && w'.log == w.log
  {
    var r, w2 := w.queue[0], Tried(w, env).0;
    TriedOnlyAt(w, env);
    SegDoneOnlyAt(w2, r, Some(e));
    OnlyAtTwice(w, w2, SegFailed(w2, r, e), r);
  }

  lemma DispatchFailed(w: World, env: Env, e: SegmentError)
    requires Inv(w) && w.queue != [] && OwnedRef(w, w.queue[0]) && Tried(w, env).1 == Failed(e)
    requires Startable(w, w.queue[0]) && w.files[w.queue[0].f].required
    ensures Inv(SegFailed(Tried(w, env).0, w.queue[0], e))
  {
    var r, w2 := w.queue[0], Tried(w, env).0;
    CoreFailed(w, env, e);
    FailedOnlyAt(w, env, e);
    assert forall x :: x in w.queue && x != r ==> x in w.queue[1..];
    RestKept(w, SegFailed(w2, r, e), r);
  }

  lemma DispatchAsked(w: World, env: Env, q: Request)
    requires Inv(w) && w.queue != [] && OwnedRef(w, w.queue[0]) && Tried(w, env).1 == Asked(q.server, q.group)
    requires q.ref == w.queue[0]
    requires Startable(w, w.queue[0]) && w.files[w.queue[0].f].required
    ensures var w2 := Tried(w, env).0;
            Inv(w2.(inflight := w2.inflight + [q], log := w2.log + [q]))
  {
    var r, w2 := w.queue[0], Tried(w, env).0;
    var w' := w2.(inflight := w2.inflight + [q], log := w2.log + [q]);
    CoreTried(w, env);
    TriedOnlyAt(w, env);
    var w1 := Started(Dequeued(w), r);
    TryServersOutcome(SegAt(w1, r), w1.files[r.f].groups, w1.servers, env, 0);
    CoreAsked(w2, q);
    TokensKept(w, w', r);
    assert forall x :: x in w.queue && x != r ==> x in w'.queue;
    assert forall x :: x in w.inflight ==> x in w'.inflight;
    PendingHeldKept(w, w', r);
  }

  lemma DispatchKeeps(w: World, env: Env)
    requires Inv(w) && Enabled(w, Dispatch(env))
    ensures Inv(Step(w, Dispatch(env)))
  {
    var r := w.queue[0];
    DispatchCases(w, env);
    if Startable(w, r) {
      match Tried(w, env).1
      case Failed(e) => DispatchFailed(w, env, e);
      case Asked(srv, g) => DispatchAsked(w, env, Request(r, srv, g));
    } else if Unfinished(SegAt(w, r)) {
      DispatchHalted(w);
    } else {
      DispatchDropped(w);
    }
  }

  lemma HandleErrorIsFailover(s: Seg, q: Request, outcome: Outcome, maxRetry: int)
    requires outcome != Grabbed
    ensures Failover(s, HandleError(s, q, outcome, maxRetry))
  {
  }

  // The world after taking the k-th response off the wire.
  ghost function Received(w: World, k: nat): World
    requires k < |w.inflight|
  {
    w.(inflight := RemoveAt(w.inflight, k))
  }

  lemma ReceivedKeeps(w: World, k: nat)
    requires Inv(w) && k < |w.inflight|
    ensures Core(Received(w, k))
    ensures OwnedRef(w, w.inflight[k].ref) && w.files[w.inflight[k].ref.f].required
    ensures forall x :: x != w.inflight[k].ref && InFlight(w, x) ==> InFlight(Received(w, k), x)
    ensures forall q :: q in Received(w, k).inflight ==> q in w.inflight
  {
    var q, w1 := w.inflight[k], Received(w, k);
    assert q in w.inflight;
    CoreIgnoresTokens(w, w.queue, w1.inflight);
    assert w.(queue := w.queue, inflight := w1.inflight) == w1;
    forall x | x in w.inflight && x.ref != q.ref ensures x in w1.inflight {
      var i :| 0 <= i < |w.inflight| && w.inflight[i] == x;
      assert w1.inflight[if i < k then i else i - 1] == x;
    }
  }

  lemma CoreReceivedDone(w: World, k: nat)
    requires Inv(w) && Enabled(w, Respond(k, Grabbed))
    ensures Core(Step(w, Respond(k, Grabbed)))
  {
    var r, w1 := w.inflight[k].ref, Received(w, k);
    ReceivedKeeps(w, k);
    if SegAt(w1, r).state != Done {
      SegDoneOnlyAt(w1, r, None);
      CoreSegDone(w1, r, None);
      assert SegDone(w1, r, None) == SegDone(w1, r, None).(failedSegments := w1.failedSegments);
    }
  }

  lemma RespondDone(w: World, k: nat)
    requires Inv(w) && Enabled(w, Respond(k, Grabbed))
    ensures Inv(Step(w, Respond(k, Grabbed)))
  {
    var r, w' := w.inflight[k].ref, Step(w, Respond(k, Grabbed));
    var w1 := Received(w, k);
    CoreReceivedDone(w, k);
    ReceivedKeeps(w, k);
    SegDoneOnlyAt(w1, r, None);
    OnlyAtTwice(w, w1, w', r);
    RestKept(w, w', r);
  }

  lemma RespondError(w: World, k: nat, outcome: Outcome)
    requires Inv(w) && Enabled(w, Respond(k, outcome)) && outcome != Grabbed
    ensures Inv(Step(w, Respond(k, outcome)))
  {
    var q, w' := w.inflight[k], Step(w, Respond(k, outcome));
    var r, w1 := q.ref, Received(w, k);
    ReceivedKeeps(w, k);
    var t := HandleError(SegAt(w1, r), q, outcome, w.maxRetry);
    HandleErrorIsFailover(SegAt(w1, r), q, outcome, w.maxRetry);
    CoreFailover(w1, r, t);
    CoreIgnoresTokens(WithSeg(w1, r, t), w.queue + [r], w1.inflight);
    assert w' == WithSeg(w1, r, t).(queue := w.queue + [r], inflight := w1.inflight);
    assert w'.queue[|w.queue|] == r;
    RestKept(w, w', r);
  }

  lemma RespondKeeps(w: World, k: nat, outcome: Outcome)
    requires Inv(w) && Enabled(w, Respond(k, outcome))
    ensures Inv(Step(w, Respond(k, outcome)))
  {
    if outcome == Grabbed { RespondDone(w, k); } else { RespondError(w, k, outcome); }
  }
}
