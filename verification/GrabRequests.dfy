// How often the servers are asked. A segment with a single token causes at most
// servers * (retries + groups) Grab calls before its run is over.
module GrabRequests {
  import opened Basics
  import opened GrabModel
  import opened GrabInvariant
  import opened GrabNetwork
  import opened GrabApi
  import opened GrabTermination

  ghost function Names(r: Ref): Ref -> nat {
    (x: Ref) => if x == r then 1 else 0
  }

  ghost function For(r: Ref): Request -> nat {
    (q: Request) => if q.ref == r then 1 else 0
  }

  ghost function TokensOf(w: World, r: Ref): nat {
    Sum(w.queue, Names(r)) + Sum(w.inflight, For(r))
  }

  // Grab calls made for a segment so far.
  ghost function GrabsFor(w: World, r: Ref): nat {
    Sum(w.log, For(r))
  }

  function Max0(n: int): nat {
    if n < 0 then 0 else n
  }

  ghost function Distinct(groups: seq<string>): nat {
    |set g | g in groups|
  }

  // n * k by repeated addition.
  function Times(n: nat, k: nat): nat {
    if n == 0 then 0 else Times(n - 1, k) + k
  }

  // Grabs one server may still cost: each ends in a retry or a failed group, and
  // the last one in the failure of the server.
  ghost function PerServer(maxRetry: int, groups: seq<string>): nat {
    Max0(maxRetry) + Distinct(groups)
  }

  ghost function Budget(s: Seg, groups: seq<string>, servers: nat, maxRetry: int): nat {
    var left := Unfailed(s.failedServer, servers);
    if left == 0 then 0
    else
      Times(left - 1, PerServer(maxRetry, groups))
      + Max0(maxRetry - s.retries) + |UntriedGroups(groups, s.failedGroup)|
  }

  ghost function BudgetAt(w: World, r: Ref): nat
    requires ValidRef(w, r)
  {
    Budget(SegAt(w, r), w.files[r.f].groups, w.servers, w.maxRetry)
  }

  // The Grabs a segment's only token may still cause; one in flight is already paid for.
  ghost function ToCome(w: World, r: Ref): int
    requires ValidRef(w, r)
  {
    if Sum(w.queue, Names(r)) > 0 then BudgetAt(w, r)
    else if Sum(w.inflight, For(r)) > 0 then BudgetAt(w, r) - 1
    else 0
  }

  // At most one token, and if it is in flight, at a server and for a group that
  // have not failed.
  ghost predicate SoleToken(w: World, r: Ref) {
    && ValidRef(w, r)
    && TokensOf(w, r) <= 1
    && forall q :: q in w.inflight && q.ref == r ==>
         q.server !in SegAt(w, r).failedServer && q.group !in SegAt(w, r).failedGroup
  }

  lemma SubsetNotLarger<T>(a: set<T>, b: set<T>)
    requires a <= b
    ensures |a| <= |b|
  {
    assert b == a + (b - a);
  }

  lemma GroupsBound(groups: seq<string>, failed: set<string>)
    ensures |UntriedGroups(groups, failed)| <= Distinct(groups)
    ensures |UntriedGroups(groups, {})| == Distinct(groups)
    ensures forall g :: g in groups && g !in failed ==> |UntriedGroups(groups, failed)| >= 1
  {
    var all := set g | g in groups;
    var u := UntriedGroups(groups, failed);
    assert UntriedGroups(groups, {}) == all;
    SubsetNotLarger(u, all);
    forall g | g in groups && g !in failed ensures |u| >= 1 {
      SubsetNotLarger({g}, u);
    }
  }

  lemma {:induction false} TimesIsProduct(n: nat, k: nat)
    ensures Times(n, k) == n * k
  {
    if n != 0 { TimesIsProduct(n - 1, k); }
  }

  lemma {:induction false} TimesMonotone(m: nat, n: nat, k: nat)
    requires m <= n
    ensures Times(m, k) <= Times(n, k)
  {
    if m < n { TimesMonotone(m, n - 1, k); }
  }

  // A fresh segment's budget is the bound itself.
  lemma BudgetBound(s: Seg, groups: seq<string>, servers: nat, maxRetry: int)
    ensures Budget(s, groups, servers, maxRetry) <= servers * PerServer(maxRetry, groups)
  {
    var left := Unfailed(s.failedServer, servers);
    GroupsBound(groups, s.failedGroup);
    TimesMonotone(left, servers, PerServer(maxRetry, groups));
    TimesIsProduct(servers, PerServer(maxRetry, groups));
  }

  // Failing a server that has not failed pays for all that was left of it.
  lemma FailServerBudget(s: Seg, srv: nat, groups: seq<string>, servers: nat, maxRetry: int)
    requires srv < servers && srv !in s.failedServer
    ensures Budget(FailServer(s, srv), groups, servers, maxRetry)
         <= Budget(s, groups, servers, maxRetry) - |UntriedGroups(groups, s.failedGroup)|
  {
    UnfailedShrinks(s.failedServer, srv, servers);
    var left := Unfailed(s.failedServer, servers);
    GroupsBound(groups, {});
  }

  lemma {:induction false} TryServersBudget(s: Seg, groups: seq<string>, servers: nat, maxRetry: int,
                                            env: Env, attempt: nat)
    ensures Budget(TryServers(s, groups, servers, env, attempt).0, groups, servers, maxRetry)
         <= Budget(s, groups, servers, maxRetry)
    decreases Unfailed(s.failedServer, servers)
  {
    if env.created(attempt) {
      match SelectServer(s.failedServer, 0, servers)
      case None =>
      case Some(srv) =>
        UnfailedShrinks(s.failedServer, srv, servers);
        if !env.alive(srv) || env.expired(srv) || SelectGroup(s.failedGroup, groups).None? {
          FailServerBudget(s, srv, groups, servers, maxRetry);
          TryServersBudget(FailServer(s, srv), groups, servers, maxRetry, env, attempt + 1);
        }
    }
  }

  lemma BudgetPositive(s: Seg, srv: nat, g: string, groups: seq<string>, servers: nat, maxRetry: int)
    requires srv < servers && srv !in s.failedServer && g in groups && g !in s.failedGroup
    ensures Budget(s, groups, servers, maxRetry) >= 1
  {
    GroupsBound(groups, s.failedGroup);
    assert Unfailed(s.failedServer, servers) > 0;
  }

  // An answer other than success at the current server and group costs one Grab.
  lemma ErrorBudget(s: Seg, q: Request, outcome: Outcome, groups: seq<string>, servers: nat, maxRetry: int)
    requires outcome != Grabbed && q.server < servers && q.server !in s.failedServer
    requires q.group in groups && q.group !in s.failedGroup
    ensures Budget(HandleError(s, q, outcome, maxRetry), groups, servers, maxRetry)
          < Budget(s, groups, servers, maxRetry)
  {
    FailServerBudget(s, q.server, groups, servers, maxRetry);
    GroupsBound(groups, s.failedGroup);
    if outcome == NoSuchGroup { GroupsShrink(groups, s.failedGroup, q.group); }
    UnfailedShrinks(s.failedServer, q.server, servers);
  }

  // ---- One step ----

  ghost function Spent(w: World, r: Ref): int
    requires ValidRef(w, r)
  {
    GrabsFor(w, r) + ToCome(w, r)
  }

  // An event about another segment.
  lemma OtherStep(w: World, w': World, x: Ref, r: Ref)
    requires SoleToken(w, r) && OnlyAt(w, w', x) && x != r && w'.maxRetry == w.maxRetry
    requires Sum(w'.queue, Names(r)) == Sum(w.queue, Names(r))
    requires Sum(w'.inflight, For(r)) == Sum(w.inflight, For(r))
    requires Sum(w'.log, For(r)) == Sum(w.log, For(r))
    requires forall q :: q in w'.inflight && q.ref == r ==> q in w.inflight
    ensures SoleToken(w', r) && Spent(w', r) == Spent(w, r)
  {
    assert ValidRef(w', r) && SegAt(w', r) == SegAt(w, r);
  }

  lemma {:induction false} NoneFor(s: seq<Request>, r: Ref)
    requires Sum(s, For(r)) == 0
    ensures forall q :: q in s ==> q.ref != r
  {
    if s != [] {
      NoneFor(s[1..], r);
    }
  }

  lemma QueueHead(queue: seq<Ref>, r: Ref)
    requires queue != []
    ensures Sum(queue, Names(r)) == Sum(queue[1..], Names(r)) + Names(r)(queue[0])
  {
  }

  // The head of the queue is taken off and no request is sent out.
  lemma DroppedSpends(w: World, w': World, r: Ref)
    requires SoleToken(w, r) && w.queue != [] && OnlyAt(w, w', w.queue[0]) && w'.maxRetry == w.maxRetry
    requires w'.queue == w.queue[1..] && w'.inflight == w.inflight && w'.log == w.log
    ensures SoleToken(w', r) && Spent(w', r) <= Spent(w, r)
  {
    QueueHead(w.queue, r);
    if w.queue[0] != r { OtherStep(w, w', w.queue[0], r); } else { NoneFor(w.inflight, r); }
  }

  lemma FailedSpends(w: World, env: Env, e: SegmentError, r: Ref)
    requires Inv(w) && w.queue != [] && OwnedRef(w, w.queue[0]) && SoleToken(w, r)
    requires Unfinished(SegAt(w, w.queue[0])) && Tried(w, env).1 == Failed(e)
    ensures ValidRef(Tried(w, env).0, w.queue[0])
    ensures var w' := SegFailed(Tried(w, env).0, w.queue[0], e);
            SoleToken(w', r) && Spent(w', r) <= Spent(w, r)
  {
    var x, w2 := w.queue[0], Tried(w, env).0;
    TriedOnlyAt(w, env);
    SegDoneShape(w2, x, Some(e));
    DroppedSpends(w, SegFailed(w2, x, e), r);
  }

  lemma DispatchSpends(w: World, env: Env, r: Ref)
    requires Inv(w) && Enabled(w, Dispatch(env)) && SoleToken(w, r)
    ensures SoleToken(Step(w, Dispatch(env)), r) && Spent(Step(w, Dispatch(env)), r) <= Spent(w, r)
  {
    var x := w.queue[0];
    DispatchCases(w, env);
    if Startable(w, x) {
      var (w2, a) := Tried(w, env);
      match a {
        case Failed(e) =>
          FailedSpends(w, env, e, r);
        case Asked(srv, g) =>
          AskedSpends(w, env, Request(x, srv, g), r);
      }
    } else if Unfinished(SegAt(w, x)) {
      DroppedSpends(w, Halted(Dequeued(w), x.f), r);
    } else {
      DroppedSpends(w, Dequeued(w), r);
    }
  }

  // The same for a step about the segment itself that ends with its only token
  // queued or gone, or sent out with the Grab that pays for it.
  lemma OwnStep(w: World, w': World, r: Ref)
    requires SoleToken(w, r) && OnlyAt(w, w', r)
    requires TokensOf(w, r) == 1 && TokensOf(w', r) <= 1
    requires Sum(w.queue, Names(r)) == 0 ==> BudgetAt(w, r) >= 1
    requires Sum(w'.inflight, For(r)) == 0 ==>
               GrabsFor(w', r) == GrabsFor(w, r) && (Sum(w'.queue, Names(r)) > 0 ==> BudgetAt(w', r) <= ToCome(w, r))
    requires Sum(w'.inflight, For(r)) > 0 ==>
               Sum(w.queue, Names(r)) > 0 && GrabsFor(w', r) == GrabsFor(w, r) + 1 && BudgetAt(w', r) <= BudgetAt(w, r)
    requires forall q :: q in w'.inflight && q.ref == r ==>
               q.server !in SegAt(w', r).failedServer && q.group !in SegAt(w', r).failedGroup
    ensures SoleToken(w', r) && Spent(w', r) <= Spent(w, r)
  {
  }

  lemma AskedSpends(w: World, env: Env, q: Request, r: Ref)
    requires Inv(w) && w.queue != [] && OwnedRef(w, w.queue[0]) && SoleToken(w, r)
    requires q.ref == w.queue[0] && Tried(w, env).1 == Asked(q.server, q.group)
    ensures var w2 := Tried(w, env).0;
            var w' := w2.(inflight := w2.inflight + [q], log := w2.log + [q]);
            SoleToken(w', r) && Spent(w', r) <= Spent(w, r)
  {
    var x, w2 := q.ref, Tried(w, env).0;
    var w' := w2.(inflight := w2.inflight + [q], log := w2.log + [q]);
    TriedOnlyAt(w, env);
    QueueHead(w.queue, r);
    SumConcat(w.inflight, [q], For(r));
    SumConcat(w.log, [q], For(r));
    assert OnlyAt(w, w', x);
    if x != r {
      OtherStep(w, w', x, r);
    } else {
      NoneFor(w.inflight, r);
      TriedBudget(w, env, q);
      OwnStep(w, w', r);
    }
  }

  lemma TriedBudget(w: World, env: Env, q: Request)
    requires w.queue != [] && ValidRef(w, w.queue[0])
    requires q.ref == w.queue[0] && Tried(w, env).1 == Asked(q.server, q.group)
    ensures var w2 := Tried(w, env).0;
            && ValidRef(w2, q.ref) && BudgetAt(w2, q.ref) <= BudgetAt(w, q.ref)
            && q.server !in SegAt(w2, q.ref).failedServer && q.group !in SegAt(w2, q.ref).failedGroup
  {
    var r := q.ref;
    var w1, f := Started(Dequeued(w), r), w.files[r.f];
    TryServersOutcome(SegAt(w1, r), f.groups, w.servers, env, 0);
    TryServersBudget(SegAt(w1, r), f.groups, w.servers, w.maxRetry, env, 0);
    assert Budget(SegAt(w1, r), f.groups, w.servers, w.maxRetry) == BudgetAt(w, r);
  }

  // What answering the k-th request does to everything the Grabs depend on.
  ghost predicate Responded(w: World, k: nat, outcome: Outcome, w': World) {
    && k < |w.inflight| && OnlyAt(w, w', w.inflight[k].ref)
    && w'.maxRetry == w.maxRetry && w'.log == w.log
    && w'.inflight == RemoveAt(w.inflight, k)
    && w'.queue == (if outcome == Grabbed then w.queue else w.queue + [w.inflight[k].ref])
    && (outcome != Grabbed ==>
          SegAt(w', w.inflight[k].ref)
            == HandleError(SegAt(w, w.inflight[k].ref), w.inflight[k], outcome, w.maxRetry))
  }

  lemma RespondShape(w: World, k: nat, outcome: Outcome)
    requires Inv(w) && Enabled(w, Respond(k, outcome))
    ensures Responded(w, k, outcome, Step(w, Respond(k, outcome)))
  {
    var x, w1 := w.inflight[k].ref, Received(w, k);
    ReceivedKeeps(w, k);
    if outcome == Grabbed && SegAt(w1, x).state != Done { SegDoneShape(w1, x, None); }
  }

  // The answer to the segment's own request.
  lemma AnsweredSpends(w: World, k: nat, outcome: Outcome, w': World)
    requires Responded(w, k, outcome, w') && SoleToken(w, w.inflight[k].ref)
    requires w.inflight[k].server < w.servers && w.inflight[k].group in w.files[w.inflight[k].ref.f].groups
    ensures SoleToken(w', w.inflight[k].ref) && Spent(w', w.inflight[k].ref) <= Spent(w, w.inflight[k].ref)
  {
    var q, r := w.inflight[k], w.inflight[k].ref;
    assert q in w.inflight;
    SumRemoveAt(w.inflight, k, For(r));
    SumConcat(w.queue, [r], Names(r));
    NoneFor(w'.inflight, r);
    BudgetPositive(SegAt(w, r), q.server, q.group, w.files[r.f].groups, w.servers, w.maxRetry);
    if outcome != Grabbed {
      ErrorBudget(SegAt(w, r), q, outcome, w.files[r.f].groups, w.servers, w.maxRetry);
    }
    OwnStep(w, w', r);
  }

  lemma OtherAnswered(w: World, k: nat, outcome: Outcome, w': World, r: Ref)
    requires Responded(w, k, outcome, w') && SoleToken(w, r) && w.inflight[k].ref != r
    ensures SoleToken(w', r) && Spent(w', r) == Spent(w, r)
  {
    SumRemoveAt(w.inflight, k, For(r));
    SumConcat(w.queue, [w.inflight[k].ref], Names(r));
    OtherStep(w, w', w.inflight[k].ref, r);
  }

  lemma RespondSpends(w: World, k: nat, outcome: Outcome, r: Ref)
    requires Inv(w) && Enabled(w, Respond(k, outcome)) && SoleToken(w, r)
    ensures SoleToken(Step(w, Respond(k, outcome)), r) && Spent(Step(w, Respond(k, outcome)), r) <= Spent(w, r)
  {
    var w' := Step(w, Respond(k, outcome));
    RespondShape(w, k, outcome);
    assert w.inflight[k] in w.inflight;
    if w.inflight[k].ref != r {
      OtherAnswered(w, k, outcome, w', r);
    } else {
      AnsweredSpends(w, k, outcome, w');
    }
  }

  // ---- Whole runs ----

  ghost predicate NetworkRun(w: World, es: seq<Event>, w': World)
    decreases |es|
  {
    if es == [] then w' == w
    else Network(es[0]) && Enabled(w, es[0]) && NetworkRun(Step(w, es[0]), es[1..], w')
  }

  ghost predicate SameLimits(w: World, w': World) {
    w'.servers == w.servers && w'.maxRetry == w.maxRetry
  }

  lemma WorkingLimits(w: World, r: Ref)
    requires ValidRef(w, r)
    ensures SameLimits(w, SegWorking(w, r).1)
  {
  }

  lemma DoneLimits(w: World, r: Ref, e: Option<SegmentError>)
    requires ValidRef(w, r)
    ensures SameLimits(w, SegDone(w, r, e))
  {
  }

  lemma DispatchLimits(w: World, r: Ref, env: Env)
    requires ValidRef(w, r)
    ensures SameLimits(w, DispatchSeg(w, r, env))
  {
    WorkingLimits(w, r);
    var (ok, w1) := SegWorking(w, r);
    if ok {
      var (s, a) := TryServers(SegAt(w1, r), w1.files[r.f].groups, w1.servers, env, 0);
      if a.Failed? { DoneLimits(WithSeg(w1, r, s), r, Some(a.err)); }
    }
  }

  lemma NetworkConstants(w: World, e: Event)
    requires Network(e) && Enabled(w, e)
    ensures SameLimits(w, Step(w, e))
  {
    match e
    case Dispatch(env) => DispatchLimits(w.(queue := w.queue[1..]), w.queue[0], env);
    case Respond(k, outcome) =>
      if outcome == Grabbed { DoneLimits(w.(inflight := RemoveAt(w.inflight, k)), w.inflight[k].ref, None); }
  }

  lemma {:induction false} RunSpends(w: World, es: seq<Event>, w': World, r: Ref)
    requires Inv(w) && NetworkRun(w, es, w') && SoleToken(w, r)
    ensures SoleToken(w', r) && Spent(w', r) <= Spent(w, r)
    ensures w'.servers == w.servers && w'.maxRetry == w.maxRetry
    decreases |es|
  {
    if es != [] {
      StepKeeps(w, es[0]);
      NetworkConstants(w, es[0]);
      match es[0] {
        case Dispatch(env) => DispatchSpends(w, env, r);
        case Respond(k, outcome) => RespondSpends(w, k, outcome, r);
      }
      RunSpends(Step(w, es[0]), es[1..], w', r);
    }
  }

  // With one token at the start, a run of network events makes at most
  // servers * (retries + groups) Grab calls for a segment.
  lemma RequestBound(w: World, es: seq<Event>, w': World, r: Ref)
    requires Inv(w) && NetworkRun(w, es, w') && SoleToken(w, r)
    ensures GrabsFor(w', r) <= GrabsFor(w, r) + w.servers * PerServer(w.maxRetry, w.files[r.f].groups)
  {
    RunSpends(w, es, w', r);
    BudgetBound(SegAt(w, r), w.files[r.f].groups, w.servers, w.maxRetry);
    if Sum(w'.queue, Names(r)) == 0 && Sum(w'.inflight, For(r)) > 0 {
      var i := FindFor(w'.inflight, r);
      assert w'.inflight[i] in w'.inflight;
      InFlightPays(w, es, w', i);
    }
  }

  lemma {:induction false} FindFor(s: seq<Request>, r: Ref) returns (i: nat)
    requires Sum(s, For(r)) > 0
    ensures i < |s| && s[i].ref == r
  {
    if s[0].ref == r { i := 0; } else { i := FindFor(s[1..], r); i := i + 1; }
  }

  // A request in flight at a live server and group leaves the budget positive.
  lemma InFlightPays(w: World, es: seq<Event>, w': World, i: nat)
    requires Inv(w) && NetworkRun(w, es, w') && i < |w'.inflight| && SoleToken(w', w'.inflight[i].ref)
    ensures BudgetAt(w', w'.inflight[i].ref) >= 1
  {
    NetworkKeeps(w, es, w');
    var q := w'.inflight[i];
    assert q in w'.inflight;
    BudgetPositive(SegAt(w', q.ref), q.server, q.group, w'.files[q.ref.f].groups, w'.servers, w'.maxRetry);
  }

  lemma {:induction false} NetworkKeeps(w: World, es: seq<Event>, w': World)
    requires Inv(w) && NetworkRun(w, es, w')
    ensures Inv(w')
    decreases |es|
  {
    if es != [] {
      StepKeeps(w, es[0]);
      NetworkKeeps(Step(w, es[0]), es[1..], w');
    }
  }

  // ---- The first GrabAll gives every segment at most one token ----

  ghost predicate FreshFrom(w: World, k: nat) {
    && w.inflight == []
    && forall r: Ref :: Sum(w.queue, Names(r)) <= if r.f < k then 1 else 0
  }

  lemma {:induction false} FileRefsOnce(i: nat, lo: nat, n: nat, r: Ref)
    requires lo <= n
    ensures Sum(FileRefs(i, n)[lo..], Names(r)) <= if r.f == i && lo <= r.s then 1 else 0
    decreases n - lo
  {
    if lo < n {
      assert FileRefs(i, n)[lo..][1..] == FileRefs(i, n)[lo + 1..];
      FileRefsOnce(i, lo + 1, n, r);
    }
  }

  lemma {:induction false} GrabAllFresh(w: World, k: nat)
    requires k <= |w.files| && FreshFrom(w, k)
    ensures FreshFrom(GrabPendingFrom(w, k), |w.files|)
    decreases |w.files| - k
  {
    if k < |w.files| {
      var w' := if w.files[k].state == Pending then GrabFileAt(w, k) else w;
      if w.files[k].state == Pending {
        var n := |w.files[k].segs|;
        forall r: Ref ensures Sum(w'.queue, Names(r)) <= if r.f < k + 1 then 1 else 0 {
          SumConcat(w.queue, FileRefs(k, n), Names(r));
          assert FileRefs(k, n)[0..] == FileRefs(k, n);
          FileRefsOnce(k, 0, n, r);
        }
      }
      GrabAllFresh(w', k + 1);
    }
  }

  lemma {:induction false} GrabAllConstants(w: World, k: nat)
    requires k <= |w.files|
    ensures var w' := GrabPendingFrom(w, k);
            w'.servers == w.servers && w'.maxRetry == w.maxRetry && w'.log == w.log && w'.inflight == w.inflight
    decreases |w.files| - k
  {
    if k < |w.files| {
      GrabAllConstants(if w.files[k].state == Pending then GrabFileAt(w, k) else w, k + 1);
    }
  }

  lemma GrabAllBound(w0: World, es: seq<Event>, w: World, r: Ref)
    requires Inv(w0) && w0.queue == [] && w0.inflight == [] && w0.log == []
    requires NetworkRun(GrabPendingFrom(w0, 0), es, w) && ValidRef(GrabPendingFrom(w0, 0), r)
    ensures GrabsFor(w, r) <= w0.servers * PerServer(w0.maxRetry, GrabPendingFrom(w0, 0).files[r.f].groups)
  {
    var w1 := GrabPendingFrom(w0, 0);
    StepKeeps(w0, GrabAll);
    GrabAllFresh(w0, 0);
    GrabAllConstants(w0, 0);
    assert Sum(w1.queue, Names(r)) <= 1;
    RequestBound(w1, es, w, r);
  }

  // A newly built grabber, told once to grab everything.
  lemma FirstGrabBound(specs: seq<FileSpec>, servers: nat, maxRetry: int, first: Option<nat>,
                       es: seq<Event>, w: World, r: Ref)
    requires SmallestPar2(specs, first)
    requires NetworkRun(Step(FromNZB(specs, servers, maxRetry, first), GrabAll), es, w)
    requires ValidRef(Step(FromNZB(specs, servers, maxRetry, first), GrabAll), r)
    ensures GrabsFor(w, r) <=
              servers * PerServer(maxRetry, Step(FromNZB(specs, servers, maxRetry, first), GrabAll).files[r.f].groups)
  {
    var w0 := FromNZB(specs, servers, maxRetry, first);
    StartsOK(specs, servers, maxRetry, first);
    GrabAllBound(w0, es, w, r);
  }
}
