// Exactly which Grabs are made for a segment with one token, when the servers stay
// up or down and every answer is the same error.
module GrabAsked {
  import opened Basics
  import opened GrabModel
  import opened GrabInvariant
  import opened GrabNetwork
  import opened GrabApi
  import opened GrabRequests
  import opened GrabTheorems
  import opened GrabFailover
  import opened GrabBuild
  import opened GrabOutcome

  // ---- What there is to ask ----

  // The groups that have not failed, each once, in the file's order.
  function Untried(groups: seq<string>, failed: set<string>): seq<string> {
    if groups == [] then []
    else if groups[0] in failed then Untried(groups[1..], failed)
    else [groups[0]] + Untried(groups[1..], failed + {groups[0]})
  }

  function Repeated(g: string, n: nat): (s: seq<string>)
    ensures |s| == n && forall i :: 0 <= i < n ==> s[i] == g
  {
    seq(n, _ => g)
  }

  // The groups one server is asked for, if it gives the same answer each time.
  function GroupsAsked(groups: seq<string>, failed: set<string>, retries: nat, outcome: Outcome, maxRetry: int):
      seq<string>
  {
    var left := Untried(groups, failed);
    if left == [] then []
    else if outcome == NoSuchGroup then left
    else if outcome == OtherError then Repeated(left[0], Max0(maxRetry - retries) + 1)
    else [left[0]]
  }

  function AllAt(r: Ref, srv: nat, groups: seq<string>): (qs: seq<Request>)
    ensures |qs| == |groups| && forall i :: 0 <= i < |groups| ==> qs[i] == Request(r, srv, groups[i])
  {
    seq(|groups|, i requires 0 <= i < |groups| => Request(r, srv, groups[i]))
  }

  // What does not change: the segment, its file's groups, the retries, the answer
  // given, and the servers that are up.
  datatype Terms = Terms(r: Ref, groups: seq<string>, servers: nat, maxRetry: int, outcome: Outcome, up: nat -> bool)

  // The Grabs at the servers from k on.
  function From(t: Terms, failed: set<nat>, k: nat): seq<Request>
    requires k <= t.servers
    decreases t.servers - k
  {
    if k == t.servers then []
    else
      (if k in failed || !t.up(k) then []
       else AllAt(t.r, k, GroupsAsked(t.groups, {}, 0, t.outcome, t.maxRetry)))
      + From(t, failed, k + 1)
  }

  // The Grabs still to come for a queued segment: at its best server left, on from
  // where it is, and at the servers behind that.
  function ToAsk(t: Terms, s: Seg): seq<Request> {
    match SelectServer(s.failedServer, 0, t.servers)
    case None => []
    case Some(srv) =>
      (if t.up(srv)
       then AllAt(t.r, srv, GroupsAsked(t.groups, s.failedGroup, s.retries, t.outcome, t.maxRetry))
       else [])
      + From(t, s.failedServer, srv + 1)
  }

  // ---- Each Grab takes the first of them ----

  lemma {:induction false} FirstUntried(groups: seq<string>, failed: set<string>)
    ensures SelectGroup(failed, groups).None? <==> Untried(groups, failed) == []
    ensures SelectGroup(failed, groups).Some? ==>
              var g := SelectGroup(failed, groups).value;
              Untried(groups, failed) == [g] + Untried(groups, failed + {g})
  {
    if groups != [] {
      FirstUntried(groups[1..], failed);
    }
  }

  lemma {:induction false} FromSkips(t: Terms, failed: set<nat>, j: nat, k: nat)
    requires j <= k <= t.servers && forall i: nat :: j <= i < k ==> i in failed
    ensures From(t, failed, j) == From(t, failed, k)
    decreases k - j
  {
    if j < k { FromSkips(t, failed, j + 1, k); }
  }

  lemma {:induction false} FromIgnores(t: Terms, failed: set<nat>, srv: nat, k: nat)
    requires srv < k <= t.servers
    ensures From(t, failed + {srv}, k) == From(t, failed, k)
    decreases t.servers - k
  {
    if k < t.servers { FromIgnores(t, failed, srv, k + 1); }
  }

  // Once the best server left has failed, the servers behind it are left.
  lemma ToAskFails(t: Terms, s: Seg, srv: nat)
    requires SelectServer(s.failedServer, 0, t.servers) == Some(srv)
    ensures ToAsk(t, FailServer(s, srv)) == From(t, s.failedServer, srv + 1)
  {
    var failed := s.failedServer + {srv};
    FromIgnores(t, s.failedServer, srv, srv + 1);
    match SelectServer(failed, 0, t.servers)
    case None => FromSkips(t, failed, srv + 1, t.servers);
    case Some(next) => FromSkips(t, failed, srv + 1, next);
  }

  // After its answer the server is asked for the rest of its list, and given up on
  // if there is none.
  lemma NextAsked(s: Seg, q: Request, groups: seq<string>, outcome: Outcome, maxRetry: int)
    requires outcome != Grabbed && SelectGroup(s.failedGroup, groups) == Some(q.group)
    ensures var s' := HandleError(s, q, outcome, maxRetry);
            GroupsAsked(groups, s.failedGroup, s.retries, outcome, maxRetry)
              == [q.group] + if s' == FailServer(s, q.server) then []
                             else GroupsAsked(groups, s'.failedGroup, s'.retries, outcome, maxRetry)
    ensures var s' := HandleError(s, q, outcome, maxRetry);
            s' == FailServer(s, q.server) || s'.failedServer == s.failedServer
  {
    var left := Untried(groups, s.failedGroup);
    FirstUntried(groups, s.failedGroup);
    if outcome == NoSuchGroup {
      assert HandleError(s, q, outcome, maxRetry) == FailGroup(s, q.group);
    } else if outcome == OtherError {
      var n := Max0(maxRetry - s.retries);
      assert Repeated(left[0], n + 1) == [left[0]] + Repeated(left[0], n);
    }
  }

  lemma AtFirst(r: Ref, srv: nat, g: string, groups: seq<string>)
    ensures AllAt(r, srv, [g] + groups) == [Request(r, srv, g)] + AllAt(r, srv, groups)
  {
  }

  lemma ToAskHere(t: Terms, s: Seg, srv: nat)
    requires SelectServer(s.failedServer, 0, t.servers) == Some(srv) && t.up(srv)
    ensures ToAsk(t, s) == AllAt(t.r, srv, GroupsAsked(t.groups, s.failedGroup, s.retries, t.outcome, t.maxRetry))
                           + From(t, s.failedServer, srv + 1)
  {
  }

  // Asking the best server left for the first group left, and being answered.
  lemma ToAskAsked(t: Terms, s: Seg, srv: nat, g: string)
    requires t.outcome != Grabbed && t.up(srv)
    requires SelectServer(s.failedServer, 0, t.servers) == Some(srv) && SelectGroup(s.failedGroup, t.groups) == Some(g)
    ensures var q := Request(t.r, srv, g);
            ToAsk(t, s) == [q] + ToAsk(t, HandleError(s, q, t.outcome, t.maxRetry))
  {
    var q, later := Request(t.r, srv, g), From(t, s.failedServer, srv + 1);
    var s' := HandleError(s, q, t.outcome, t.maxRetry);
    var more := if s' == FailServer(s, srv) then []
                else GroupsAsked(t.groups, s'.failedGroup, s'.retries, t.outcome, t.maxRetry);
    NextAsked(s, q, t.groups, t.outcome, t.maxRetry);
    ToAskHere(t, s, srv);
    AtFirst(t.r, srv, g, more);
    Associates([q], AllAt(t.r, srv, more), later);
    if s' == FailServer(s, srv) {
      ToAskFails(t, s, srv);
      assert AllAt(t.r, srv, []) + later == later;
    } else {
      ToAskHere(t, s', srv);
    }
  }

  // A server that is down, or refuses every group of the file, is not asked.
  lemma ToAskSkipped(t: Terms, s: Seg, srv: nat)
    requires SelectServer(s.failedServer, 0, t.servers) == Some(srv)
    requires !t.up(srv) || SelectGroup(s.failedGroup, t.groups).None?
    ensures ToAsk(t, FailServer(s, srv)) == ToAsk(t, s)
  {
    FirstUntried(t.groups, s.failedGroup);
    ToAskFails(t, s, srv);
    var later := From(t, s.failedServer, srv + 1);
    assert AllAt(t.r, srv, []) + later == later && [] + later == later;
  }

  // ---- One dispatch ----

  ghost predicate Steady(t: Terms, env: Env) {
    forall n: nat :: env.created(n) && (t.up(n) <==> env.alive(n) && !env.expired(n))
  }

  // Dispatch asks for the first that is still to come, and fails the segment only if
  // nothing is.
  lemma {:induction false} TryServersAsks(t: Terms, s: Seg, env: Env, attempt: nat)
    requires Steady(t, env) && t.outcome != Grabbed
    ensures var (s', a) := TryServers(s, t.groups, t.servers, env, attempt);
            match a
            case Asked(srv, g) =>
              var q := Request(t.r, srv, g); ToAsk(t, s) == [q] + ToAsk(t, HandleError(s', q, t.outcome, t.maxRetry))
            case Failed(_) => ToAsk(t, s) == []
    decreases Unfailed(s.failedServer, t.servers)
  {
    match SelectServer(s.failedServer, 0, t.servers)
    case None =>
    case Some(srv) =>
      UnfailedShrinks(s.failedServer, srv, t.servers);
      if !t.up(srv) || SelectGroup(s.failedGroup, t.groups).None? {
        ToAskSkipped(t, s, srv);
        TryServersAsks(t, FailServer(s, srv), env, attempt + 1);
      } else {
        ToAskAsked(t, s, srv, SelectGroup(s.failedGroup, t.groups).value);
      }
  }

  // ---- Runs ----

  // The Grabs of a log that are for this segment, in order.
  function AskedFor(log: seq<Request>, r: Ref): seq<Request> {
    if log == [] then []
    else
      var last := log[|log| - 1];
      AskedFor(log[..|log| - 1], r) + if last.ref == r then [last] else []
  }

  lemma AskedForOneMore(log: seq<Request>, q: Request, r: Ref)
    ensures AskedFor(log + [q], r) == AskedFor(log, r) + if q.ref == r then [q] else []
  {
    assert (log + [q])[..|log|] == log;
  }

  ghost predicate InForce(w: World, t: Terms) {
    && ValidRef(w, t.r) && w.state != Paused
    && w.files[t.r.f].groups == t.groups && w.servers == t.servers && w.maxRetry == t.maxRetry
    && TokensOf(w, t.r) <= 1
  }

  // These Grabs are still to come: those of the segment while it is queued, or once
  // its request has been answered, and none if it has no token.
  ghost predicate Owes(w: World, t: Terms, plan: seq<Request>)
    requires ValidRef(w, t.r)
  {
    && (TokensOf(w, t.r) > 0 ==> Unfinished(SegAt(w, t.r)))
    && (Sum(w.queue, Names(t.r)) > 0 ==> plan == ToAsk(t, SegAt(w, t.r)))
    && (forall q :: q in w.inflight && q.ref == t.r ==>
          plan == ToAsk(t, HandleError(SegAt(w, t.r), q, t.outcome, t.maxRetry)))
    && (TokensOf(w, t.r) == 0 ==> plan == [])
  }

  ghost predicate SteadyStep(w: World, e: Event, t: Terms)
    requires Enabled(w, e)
  {
    match e
    case Dispatch(env) => w.queue[0] == t.r ==> Steady(t, env)
    case Respond(k, outcome) => w.inflight[k].ref == t.r ==> outcome == t.outcome
    case _ => false
  }

  // Where the tokens of other segments go is of no consequence.
  lemma OtherOwes(w: World, w': World, x: Ref, t: Terms, plan: seq<Request>)
    requires InForce(w, t) && Owes(w, t, plan) && x != t.r
    requires OnlyAt(w, w', x) && w'.maxRetry == w.maxRetry && w'.state != Paused
    requires Sum(w'.queue, Names(t.r)) == Sum(w.queue, Names(t.r))
    requires Sum(w'.inflight, For(t.r)) == Sum(w.inflight, For(t.r))
    requires forall q :: q in w'.inflight && q.ref == t.r ==> q in w.inflight
    ensures InForce(w', t) && Owes(w', t, plan)
  {
    assert SegAt(w', t.r) == SegAt(w, t.r);
  }

  // The head of the queue is taken and at most one request sent out, for it.
  ghost predicate Dispatched(w: World, w': World) {
    && w.queue != [] && w'.queue == w.queue[1..]
    && OnlyAt(w, w', w.queue[0]) && w'.maxRetry == w.maxRetry
    && ((w'.inflight == w.inflight && w'.log == w.log)
        || exists q: Request :: q.ref == w.queue[0] && w'.inflight == w.inflight + [q] && w'.log == w.log + [q])
  }

  lemma DispatchTokens(w: World, env: Env)
    requires Inv(w) && Enabled(w, Dispatch(env))
    ensures Dispatched(w, Step(w, Dispatch(env)))
  {
    var x, w' := w.queue[0], Step(w, Dispatch(env));
    DispatchOnlyAt(w, env);
    NetworkConstants(w, Dispatch(env));
    DispatchCases(w, env);
    if Startable(w, x) {
      var (w2, a) := Tried(w, env);
      TriedOnlyAt(w, env);
      match a {
        case Failed(e) => FailedOnlyAt(w, env, e);
        case Asked(srv, g) => assert w'.inflight == w.inflight + [Request(x, srv, g)];
      }
    }
  }

  lemma OtherDispatched(w: World, w': World, t: Terms, plan: seq<Request>)
    requires InForce(w, t) && Owes(w, t, plan) && Dispatched(w, w') && w.queue[0] != t.r && w'.state != Paused
    ensures InForce(w', t) && Owes(w', t, plan) && AskedFor(w'.log, t.r) == AskedFor(w.log, t.r)
  {
    QueueHead(w.queue, t.r);
    if w'.log != w.log {
      var q: Request :| q.ref == w.queue[0] && w'.inflight == w.inflight + [q] && w'.log == w.log + [q];
      SumConcat(w.inflight, [q], For(t.r));
      AskedForOneMore(w.log, q, t.r);
    }
    OtherOwes(w, w', w.queue[0], t, plan);
  }

  lemma OwnTried(w: World, env: Env, t: Terms)
    requires ValidRef(w, t.r) && w.queue != [] && w.queue[0] == t.r
    requires w.files[t.r.f].groups == t.groups && w.servers == t.servers
    requires Steady(t, env) && t.outcome != Grabbed
    ensures var (w2, a) := Tried(w, env);
            && ValidRef(w2, t.r)
            && match a
               case Asked(srv, g) =>
                 var q := Request(t.r, srv, g);
                 ToAsk(t, SegAt(w, t.r)) == [q] + ToAsk(t, HandleError(SegAt(w2, t.r), q, t.outcome, t.maxRetry))
               case Failed(_) => ToAsk(t, SegAt(w, t.r)) == []
  {
    var s := SegAt(w, t.r).(state := Working);
    assert ToAsk(t, s) == ToAsk(t, SegAt(w, t.r));
    TriedSeg(w, env);
    TryServersAsks(t, s, env, 0);
  }

  // The segment's only token has been taken off the queue and sent out.
  lemma OwnAsked(w: World, w': World, q: Request, t: Terms)
    requires InForce(w, t) && w.queue != [] && w.queue[0] == t.r && q.ref == t.r
    requires OnlyAt(w, w', t.r) && w'.maxRetry == w.maxRetry && w'.state != Paused && Unfinished(SegAt(w', t.r))
    requires w'.queue == w.queue[1..] && w'.inflight == w.inflight + [q] && w'.log == w.log + [q]
    ensures InForce(w', t) && Owes(w', t, ToAsk(t, HandleError(SegAt(w', t.r), q, t.outcome, t.maxRetry)))
    ensures AskedFor(w'.log, t.r) == AskedFor(w.log, t.r) + [q]
  {
    QueueHead(w.queue, t.r);
    NoneFor(w.inflight, t.r);
    SumConcat(w.inflight, [q], For(t.r));
    AskedForOneMore(w.log, q, t.r);
  }

  // It has been taken off for good.
  lemma OwnSpent(w: World, w': World, t: Terms)
    requires InForce(w, t) && w.queue != [] && w.queue[0] == t.r
    requires OnlyAt(w, w', t.r) && w'.maxRetry == w.maxRetry && w'.state != Paused
    requires w'.queue == w.queue[1..] && w'.inflight == w.inflight
    ensures InForce(w', t) && Owes(w', t, [])
  {
    QueueHead(w.queue, t.r);
    NoneFor(w.inflight, t.r);
  }

  lemma OwnDispatched(w: World, env: Env, t: Terms, plan: seq<Request>) returns (plan': seq<Request>)
    requires Inv(w) && Enabled(w, Dispatch(env)) && InForce(w, t) && Owes(w, t, plan) && w.queue[0] == t.r
    requires Steady(t, env) && t.outcome != Grabbed
    ensures var w' := Step(w, Dispatch(env));
            && InForce(w', t) && Owes(w', t, plan')
            && AskedFor(w'.log, t.r) + plan' == AskedFor(w.log, t.r) + plan
  {
    var r, w' := t.r, Step(w, Dispatch(env));
    QueueHead(w.queue, r);
    NetworkConstants(w, Dispatch(env));
    DispatchStaysAwake(w, env);
    DispatchCases(w, env);
    OwnTried(w, env, t);
    TriedOnlyAt(w, env);
    var (w2, a) := Tried(w, env);
    match a {
      case Asked(srv, g) =>
        var q := Request(r, srv, g);
        OwnAsked(w, w', q, t);
        plan' := ToAsk(t, HandleError(SegAt(w', r), q, t.outcome, t.maxRetry));
        Associates(AskedFor(w.log, r), [q], plan');
      case Failed(e) =>
        FailedOnlyAt(w, env, e);
        OwnSpent(w, w', t);
        plan' := [];
    }
  }

  lemma OwnAnswered(w: World, k: nat, t: Terms, plan: seq<Request>, w': World)
    requires InForce(w, t) && Owes(w, t, plan) && Responded(w, k, t.outcome, w') && w'.state != Paused
    requires w.inflight[k].ref == t.r && t.outcome != Grabbed
    ensures InForce(w', t) && Owes(w', t, plan)
  {
    var q, r := w.inflight[k], t.r;
    assert q in w.inflight;
    SumRemoveAt(w.inflight, k, For(r));
    SumConcat(w.queue, [r], Names(r));
    NoneFor(w'.inflight, r);
    HandleErrorIsFailover(SegAt(w, r), q, t.outcome, t.maxRetry);
  }

  lemma OtherResponded(w: World, k: nat, outcome: Outcome, t: Terms, plan: seq<Request>, w': World)
    requires InForce(w, t) && Owes(w, t, plan) && Responded(w, k, outcome, w') && w'.state != Paused
    requires w.inflight[k].ref != t.r
    ensures InForce(w', t) && Owes(w', t, plan)
  {
    SumRemoveAt(w.inflight, k, For(t.r));
    SumConcat(w.queue, [w.inflight[k].ref], Names(t.r));
    OtherOwes(w, w', w.inflight[k].ref, t, plan);
  }

  lemma StepOwes(w: World, e: Event, t: Terms, plan: seq<Request>) returns (plan': seq<Request>)
    requires Inv(w) && Enabled(w, e) && InForce(w, t) && Owes(w, t, plan)
    requires SteadyStep(w, e, t) && t.outcome != Grabbed
    ensures InForce(Step(w, e), t) && Owes(Step(w, e), t, plan')
    ensures AskedFor(Step(w, e).log, t.r) + plan' == AskedFor(w.log, t.r) + plan
  {
    plan' := plan;
    match e {
      case Dispatch(env) =>
        if w.queue[0] == t.r {
          plan' := OwnDispatched(w, env, t, plan);
        } else {
          DispatchTokens(w, env);
          DispatchStaysAwake(w, env);
          OtherDispatched(w, Step(w, e), t, plan);
        }
      case Respond(k, outcome) =>
        RespondShape(w, k, outcome);
        RespondSameDemand(w, k, outcome);
        if w.inflight[k].ref == t.r {
          OwnAnswered(w, k, t, plan, Step(w, e));
        } else {
          OtherResponded(w, k, outcome, t, plan, Step(w, e));
        }
    }
  }

  // Dispatches and answers only. Whenever the segment is dispatched, an output can
  // be created, and the same servers are up; whenever it is answered, the answer is
  // the same.
  ghost predicate SteadyRun(w: World, es: seq<Event>, w': World, t: Terms)
    decreases |es|
  {
    if es == [] then w' == w
    else Enabled(w, es[0]) && SteadyStep(w, es[0], t) && SteadyRun(Step(w, es[0]), es[1..], w', t)
  }

  lemma {:induction false} RunOwes(w: World, es: seq<Event>, w': World, t: Terms, plan: seq<Request>)
      returns (plan': seq<Request>)
    requires Inv(w) && InForce(w, t) && Owes(w, t, plan) && SteadyRun(w, es, w', t) && t.outcome != Grabbed
    ensures InForce(w', t) && Owes(w', t, plan')
    ensures AskedFor(w'.log, t.r) + plan' == AskedFor(w.log, t.r) + plan
    decreases |es|
  {
    plan' := plan;
    if es != [] {
      StepKeeps(w, es[0]);
      plan' := StepOwes(w, es[0], t, plan);
      plan' := RunOwes(Step(w, es[0]), es[1..], w', t, plan');
    }
  }

  // ---- From the first GrabAll to the last answer ----

  // The first GrabAll queues every segment of a file that is Pending once.
  lemma GrabAllQueues(w0: World, r: Ref)
    requires Inv(w0) && w0.queue == [] && w0.inflight == [] && ValidRef(w0, r)
    requires w0.files[r.f].state == Pending && Unfinished(SegAt(w0, r))
    ensures var w := Step(w0, GrabAll);
            && Inv(w) && w.state == w0.state && w.servers == w0.servers && w.maxRetry == w0.maxRetry
            && w.log == w0.log && w.inflight == [] && ValidRef(w, r) && w.files[r.f] == w0.files[r.f]
            && Sum(w.queue, Names(r)) == 1
  {
    var w := Step(w0, GrabAll);
    StepKeeps(w0, GrabAll);
    GrabAllFresh(w0, 0);
    GrabAllConstants(w0, 0);
    GrabAllGrabs(w0, 0);
    assert NotLostIn(w, r.f);
    assert HasToken(w, Ref(r.f, r.s));
    var k :| 0 <= k < |w.queue| && w.queue[k] == r;
    SumAtLeast(w.queue, k, Names(r));
  }

  lemma QueuedOwes(w: World, t: Terms)
    requires ValidRef(w, t.r) && w.state != Paused && Unfinished(SegAt(w, t.r)) && w.inflight == []
    requires w.files[t.r.f].groups == t.groups && w.servers == t.servers && w.maxRetry == t.maxRetry
    requires Sum(w.queue, Names(t.r)) == 1
    ensures InForce(w, t) && Owes(w, t, ToAsk(t, SegAt(w, t.r)))
  {
  }

  lemma GrabAllOwes(specs: seq<FileSpec>, first: Option<nat>, t: Terms)
    requires SmallestPar2(specs, first) && t.r.f < |specs| && t.r.s < |specs[t.r.f].numbers|
    requires Wanted(specs, first, t.r.f) && t.groups == specs[t.r.f].groups
    ensures var w := Step(FromNZB(specs, t.servers, t.maxRetry, first), GrabAll);
            Inv(w) && w.log == [] && InForce(w, t) && Owes(w, t, From(t, {}, 0))
  {
    var w0 := FromNZB(specs, t.servers, t.maxRetry, first);
    StartsOK(specs, t.servers, t.maxRetry, first);
    Built(specs, t.servers, t.maxRetry, first);
    assert BuiltFrom(w0.files[t.r.f], specs[t.r.f], true);
    GrabAllQueues(w0, t.r);
    QueuedOwes(Step(w0, GrabAll), t);
    FreshToAsk(t, SegAt(w0, t.r));
  }

  lemma FreshToAsk(t: Terms, s: Seg)
    requires s.failedServer == {} && s.failedGroup == {} && s.retries == 0
    ensures ToAsk(t, s) == From(t, {}, 0)
  {
    if t.servers > 0 { assert SelectServer({}, 0, t.servers) == Some(0); }
  }

  // The Grabs made for a wanted segment by the time it has no token left: at each
  // server that is up, in the order of priority, the groups that server is asked for.
  lemma GrabsMade(specs: seq<FileSpec>, first: Option<nat>, t: Terms, es: seq<Event>, w: World)
    requires SmallestPar2(specs, first) && t.r.f < |specs| && t.r.s < |specs[t.r.f].numbers|
    requires Wanted(specs, first, t.r.f) && t.groups == specs[t.r.f].groups && t.outcome != Grabbed
    requires SteadyRun(Step(FromNZB(specs, t.servers, t.maxRetry, first), GrabAll), es, w, t)
    requires TokensOf(w, t.r) == 0
    ensures AskedFor(w.log, t.r) == From(t, {}, 0)
  {
    GrabAllOwes(specs, first, t);
    var plan := RunOwes(Step(FromNZB(specs, t.servers, t.maxRetry, first), GrabAll), es, w, t, From(t, {}, 0));
    assert AskedFor(w.log, t.r) + [] == AskedFor(w.log, t.r);
    assert [] + From(t, {}, 0) == From(t, {}, 0);
  }

  // ---- One server ----

  lemma {:induction false} NothingElsewhere(t: Terms, k: nat)
    requires k <= t.servers && forall i: nat :: k <= i < t.servers ==> !t.up(i)
    ensures From(t, {}, k) == []
    decreases t.servers - k
  {
    if k < t.servers { NothingElsewhere(t, k + 1); }
  }

  lemma {:induction false} OnlyHere(t: Terms, srv: nat, k: nat)
    requires k <= srv < t.servers && forall i: nat :: i < t.servers ==> (t.up(i) <==> i == srv)
    ensures From(t, {}, k) == AllAt(t.r, srv, GroupsAsked(t.groups, {}, 0, t.outcome, t.maxRetry))
    decreases srv - k
  {
    if k < srv {
      OnlyHere(t, srv, k + 1);
    } else {
      NothingElsewhere(t, srv + 1);
      var here := AllAt(t.r, srv, GroupsAsked(t.groups, {}, 0, t.outcome, t.maxRetry));
      assert here + [] == here;
    }
  }

  // `a` is in the list, in front of every `b`.
  ghost predicate Before(a: string, b: string, groups: seq<string>) {
    exists p :: 0 <= p < |groups| && groups[p] == a && b !in groups[..p]
  }

  // The groups without their repetitions, in order.
  ghost predicate Once(u: seq<string>, groups: seq<string>) {
    && (forall g :: g in u <==> g in groups)
    && forall i, j :: 0 <= i < j < |u| ==> u[i] != u[j] && Before(u[i], u[j], groups)
  }

  lemma {:induction false} UntriedOnce(groups: seq<string>, failed: set<string>)
    ensures var u := Untried(groups, failed);
            && (forall g :: g in u <==> g in groups && g !in failed)
            && forall i, j :: 0 <= i < j < |u| ==> u[i] != u[j] && Before(u[i], u[j], groups)
  {
    if groups != [] {
      var g, rest := groups[0], groups[1..];
      var failed' := failed + {g};
      UntriedOnce(rest, failed');
      UntriedOnce(rest, failed);
      assert failed' == failed || g !in failed;
      assert forall x :: x in groups <==> x == g || x in rest;
      var u, v := Untried(groups, failed), Untried(rest, failed');
      forall i, j | 0 <= i < j < |u| ensures u[i] != u[j] && Before(u[i], u[j], groups) {
        if g in failed {
          BeforeLater(u[i], u[j], g, rest);
        } else if i > 0 {
          BeforeLater(v[i - 1], v[j - 1], g, rest);
        } else {
          assert v[j - 1] in v;
          assert groups[0] == u[i] && u[j] !in groups[..0];
        }
      }
    }
  }

  lemma BeforeLater(a: string, b: string, g: string, rest: seq<string>)
    requires Before(a, b, rest) && b != g
    ensures forall groups :: groups != [] && groups[0] == g && groups[1..] == rest ==> Before(a, b, groups)
  {
    var p :| 0 <= p < |rest| && rest[p] == a && b !in rest[..p];
    forall groups: seq<string> | groups != [] && groups[0] == g && groups[1..] == rest ensures Before(a, b, groups) {
      assert groups == [g] + rest;
      assert groups[p + 1] == a && groups[..p + 1] == [g] + rest[..p];
    }
  }

  lemma {:induction false} CountAsked(log: seq<Request>, r: Ref)
    ensures |AskedFor(log, r)| == Sum(log, For(r))
    decreases |log|
  {
    if log != [] {
      var front, last := log[..|log| - 1], log[|log| - 1];
      CountAsked(front, r);
      assert log == front + [last];
      SumConcat(front, [last], For(r));
      assert [last][1..] == [];
    }
  }

  lemma GroupsAskedAre(groups: seq<string>, outcome: Outcome, maxRetry: int)
    requires outcome != Grabbed
    ensures var asked := GroupsAsked(groups, {}, 0, outcome, maxRetry);
            && (outcome == NoSuchGroup ==> Once(asked, groups))
            && (groups == [] ==> asked == [])
            && (groups != [] && outcome != NoSuchGroup ==>
                  && (forall g :: g in asked ==> g == groups[0])
                  && |asked| == if outcome == OtherError && maxRetry >= 0 then maxRetry + 1 else 1)
  {
    UntriedOnce(groups, {});
    if groups != [] { assert Untried(groups, {})[0] == groups[0]; }
  }

  // With one server up, and the same answer every time, the Grabs made for a wanted
  // segment are all at that server. If the answer is that there is no such group,
  // each group of the file is asked for once, in the file's order; if it is any other
  // error that may pass, the first group once and again for each retry allowed; and
  // if it is a decode error or no such article, the first group once.
  lemma LoneServer(specs: seq<FileSpec>, first: Option<nat>, t: Terms, es: seq<Event>, w: World, srv: nat)
      returns (asked: seq<string>)
    requires SmallestPar2(specs, first) && t.r.f < |specs| && t.r.s < |specs[t.r.f].numbers|
    requires Wanted(specs, first, t.r.f) && t.groups == specs[t.r.f].groups && t.outcome != Grabbed
    requires SteadyRun(Step(FromNZB(specs, t.servers, t.maxRetry, first), GrabAll), es, w, t)
    requires TokensOf(w, t.r) == 0
    requires srv < t.servers && forall i: nat :: i < t.servers ==> (t.up(i) <==> i == srv)
    ensures |AskedFor(w.log, t.r)| == |asked| == GrabsFor(w, t.r)
    ensures forall i :: 0 <= i < |asked| ==> AskedFor(w.log, t.r)[i] == Request(t.r, srv, asked[i])
    ensures t.outcome == NoSuchGroup ==> Once(asked, t.groups)
    ensures t.groups == [] ==> asked == []
    ensures t.groups != [] && t.outcome != NoSuchGroup ==>
              && (forall g :: g in asked ==> g == t.groups[0])
              && |asked| == if t.outcome == OtherError && t.maxRetry >= 0 then t.maxRetry + 1 else 1
  {
    asked := GroupsAsked(t.groups, {}, 0, t.outcome, t.maxRetry);
    GrabsMade(specs, first, t, es, w);
    OnlyHere(t, srv, 0);
    CountAsked(w.log, t.r);
    GroupsAskedAre(t.groups, t.outcome, t.maxRetry);
  }
}
