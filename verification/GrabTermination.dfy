// With no further API calls every run of the grab engine comes to an end, even
// when pausing and resuming left several tokens for one segment.
module GrabTermination {
  import opened Basics
  import opened GrabModel
  import opened GrabInvariant
  import opened GrabNetwork
  import opened GrabApi

  // ---- Totals over all segments ----

  type SegMeasure = (seq<string>, Seg) -> nat

  ghost function PerSeg(m: SegMeasure, groups: seq<string>): Seg -> nat {
    (s: Seg) => m(groups, s)
  }

  ghost function PerFile(m: SegMeasure): File -> nat {
    (f: File) => Sum(f.segs, PerSeg(m, f.groups))
  }

  ghost function Total(files: seq<File>, m: SegMeasure): nat {
    Sum(files, PerFile(m))
  }

  lemma TotalAt(w: World, w': World, r: Ref, m: SegMeasure)
    requires OnlyAt(w, w', r)
    ensures var g := w.files[r.f].groups;
            Total(w'.files, m) + m(g, SegAt(w, r)) == Total(w.files, m) + m(g, SegAt(w', r))
  {
    var f, f' := w.files[r.f], w'.files[r.f];
    assert f'.segs == f.segs[r.s := f'.segs[r.s]];
    assert w'.files == w.files[r.f := f'];
    SumUpdate(f.segs, r.s, f'.segs[r.s], PerSeg(m, f.groups));
    SumUpdate(w.files, r.f, f', PerFile(m));
  }

  // ---- The measure ----

  ghost function ServersLeft(servers: nat): SegMeasure {
    (g, s: Seg) => Unfailed(s.failedServer, servers)
  }

  ghost function UntriedGroups(groups: seq<string>, failed: set<string>): set<string> {
    set g | g in groups && g !in failed
  }

  ghost function GroupsLeft(): SegMeasure {
    (g, s: Seg) => |UntriedGroups(g, s.failedGroup)|
  }

  ghost function RetriesLeft(maxRetry: int): SegMeasure {
    (g, s: Seg) => if maxRetry > s.retries then maxRetry - s.retries else 0
  }

  // Requests in flight at a server, or for a group, that the segment has
  // already given up on; only duplicate tokens can be in that position.
  ghost function AtFailedServer(w: World): Request -> nat {
    (q: Request) => if ValidRef(w, q.ref) && q.server in SegAt(w, q.ref).failedServer then 1 else 0
  }

  ghost function OnFailedGroup(w: World): Request -> nat {
    (q: Request) => if ValidRef(w, q.ref) && q.group in SegAt(w, q.ref).failedGroup then 1 else 0
  }

  datatype Measure = Measure(
    tokens: nat, servers: nat, atFailedServer: nat, groups: nat, onFailedGroup: nat, retries: nat, queued: nat)

  ghost function MeasureOf(w: World): Measure {
    Measure(
      |w.queue| + |w.inflight|,
      Total(w.files, ServersLeft(w.servers)),
      Sum(w.inflight, AtFailedServer(w)),
      Total(w.files, GroupsLeft()),
      Sum(w.inflight, OnFailedGroup(w)),
      Total(w.files, RetriesLeft(w.maxRetry)),
      |w.queue|)
  }

  ghost predicate Below(a: Measure, b: Measure) {
    || a.tokens < b.tokens
    || (a.tokens == b.tokens &&
        (|| a.servers < b.servers
         || (a.servers == b.servers &&
             (|| a.atFailedServer < b.atFailedServer
              || (a.atFailedServer == b.atFailedServer &&
                  (|| a.groups < b.groups
                   || (a.groups == b.groups &&
                       (|| a.onFailedGroup < b.onFailedGroup
                        || (a.onFailedGroup == b.onFailedGroup &&
                            (|| a.retries < b.retries
                             || (a.retries == b.retries && a.queued < b.queued)))))))))))
  }

  // ---- Each network event decreases it ----

  ghost predicate Network(e: Event) {
    e.Dispatch? || e.Respond?
  }

  // In-flight requests are judged alike if this segment's failed sets are kept.
  lemma SameJudgement(w: World, w': World, r: Ref, inflight: seq<Request>)
    requires OnlyAt(w, w', r)
    ensures SegAt(w', r).failedServer == SegAt(w, r).failedServer ==>
              Sum(inflight, AtFailedServer(w')) == Sum(inflight, AtFailedServer(w))
    ensures SegAt(w', r).failedGroup == SegAt(w, r).failedGroup ==>
              Sum(inflight, OnFailedGroup(w')) == Sum(inflight, OnFailedGroup(w))
  {
    forall x ensures ValidRef(w', x) <==> ValidRef(w, x) {}
    forall x | ValidRef(w, x) && x != r ensures SegAt(w', x) == SegAt(w, x) {}
    if SegAt(w', r).failedServer == SegAt(w, r).failedServer {
      SumBelow(inflight, inflight, AtFailedServer(w), AtFailedServer(w'));
      SumBelow(inflight, inflight, AtFailedServer(w'), AtFailedServer(w));
    }
    if SegAt(w', r).failedGroup == SegAt(w, r).failedGroup {
      SumBelow(inflight, inflight, OnFailedGroup(w), OnFailedGroup(w'));
      SumBelow(inflight, inflight, OnFailedGroup(w'), OnFailedGroup(w));
    }
  }

  lemma DispatchDecreases(w: World, env: Env)
    requires Inv(w) && Enabled(w, Dispatch(env))
    ensures Below(MeasureOf(Step(w, Dispatch(env))), MeasureOf(w))
  {
    var r, w' := w.queue[0], Step(w, Dispatch(env));
    DispatchCases(w, env);
    if Startable(w, r) {
      var (w2, a) := Tried(w, env);
      TriedOnlyAt(w, env);
      match a {
        case Failed(e) => SegDoneShape(w2, r, Some(e));
        case Asked(srv, g) => AskedDecreases(w, env, Request(r, srv, g));
      }
    }
  }

  lemma AskedDecreases(w: World, env: Env, q: Request)
    requires Inv(w) && w.queue != [] && OwnedRef(w, w.queue[0]) && Tried(w, env).1 == Asked(q.server, q.group)
    requires q.ref == w.queue[0]
    ensures var w2 := Tried(w, env).0;
            Below(MeasureOf(w2.(inflight := w2.inflight + [q], log := w2.log + [q])), MeasureOf(w))
  {
    var r, w2 := q.ref, Tried(w, env).0;
    var w' := w2.(inflight := w2.inflight + [q], log := w2.log + [q]);
    TriedOnlyAt(w, env);
    var w1 := Started(Dequeued(w), r);
    TryServersOutcome(SegAt(w1, r), w1.files[r.f].groups, w1.servers, env, 0);
    assert OnlyAt(w, w', r);
    TotalAt(w, w', r, ServersLeft(w.servers));
    if Unfailed(SegAt(w', r).failedServer, w.servers) >= Unfailed(SegAt(w, r).failedServer, w.servers) {
      TotalAt(w, w', r, GroupsLeft());
      TotalAt(w, w', r, RetriesLeft(w.maxRetry));
      SameJudgement(w, w', r, w.inflight);
      SumConcat(w.inflight, [q], AtFailedServer(w'));
      SumConcat(w.inflight, [q], OnFailedGroup(w'));
    }
  }

  lemma GroupsShrink(groups: seq<string>, failed: set<string>, g: string)
    requires g in groups
    ensures |UntriedGroups(groups, failed + {g})| == |UntriedGroups(groups, failed)| - (if g in failed then 0 else 1)
  {
    assert UntriedGroups(groups, failed + {g}) == UntriedGroups(groups, failed) - {g};
  }

  // The k-th request is answered with an error: its segment becomes t.
  ghost predicate Answers(w: World, k: nat, t: Seg, w': World) {
    && k < |w.inflight| && OnlyAt(w, w', w.inflight[k].ref) && t == SegAt(w', w.inflight[k].ref)
    && w'.inflight == RemoveAt(w.inflight, k) && |w'.queue| == |w.queue| + 1
    && w'.servers == w.servers && w'.maxRetry == w.maxRetry
  }

  lemma ErrorAnswers(w: World, k: nat, outcome: Outcome)
    requires Inv(w) && Enabled(w, Respond(k, outcome)) && outcome != Grabbed
    ensures Answers(w, k, HandleError(SegAt(w, w.inflight[k].ref), w.inflight[k], outcome, w.maxRetry),
                    Step(w, Respond(k, outcome)))
  {
    var q, w' := w.inflight[k], Step(w, Respond(k, outcome));
    assert q in w.inflight;
    assert SegAt(w', q.ref) == HandleError(SegAt(w, q.ref), q, outcome, w.maxRetry);
    assert OnlyAt(w, w', q.ref);
  }

  lemma ServerAnswerDecreases(w: World, k: nat, t: Seg, w': World)
    requires Answers(w, k, t, w') && t == FailServer(SegAt(w, w.inflight[k].ref), w.inflight[k].server)
    requires w.inflight[k].server < w.servers
    ensures Below(MeasureOf(w'), MeasureOf(w))
  {
    var q := w.inflight[k];
    var s := SegAt(w, q.ref);
    UnfailedShrinks(s.failedServer, q.server, w.servers);
    TotalAt(w, w', q.ref, ServersLeft(w.servers));
    if q.server in s.failedServer {
      assert t.failedServer == s.failedServer;
      SumRemoveAt(w.inflight, k, AtFailedServer(w));
      SameJudgement(w, w', q.ref, w'.inflight);
    }
  }

  lemma KeptServers(w: World, k: nat, t: Seg, w': World)
    requires Answers(w, k, t, w') && t.failedServer == SegAt(w, w.inflight[k].ref).failedServer
    ensures MeasureOf(w').tokens == MeasureOf(w).tokens && MeasureOf(w').servers == MeasureOf(w).servers
    ensures MeasureOf(w').atFailedServer <= MeasureOf(w).atFailedServer
  {
    var r := w.inflight[k].ref;
    TotalAt(w, w', r, ServersLeft(w.servers));
    SumRemoveAt(w.inflight, k, AtFailedServer(w));
    SameJudgement(w, w', r, w'.inflight);
  }

  lemma GroupAnswerDecreases(w: World, k: nat, t: Seg, w': World)
    requires Answers(w, k, t, w') && t == FailGroup(SegAt(w, w.inflight[k].ref), w.inflight[k].group)
    requires w.inflight[k].group in w.files[w.inflight[k].ref.f].groups
    ensures Below(MeasureOf(w'), MeasureOf(w))
  {
    var q := w.inflight[k];
    var s := SegAt(w, q.ref);
    KeptServers(w, k, t, w');
    GroupsShrink(w.files[q.ref.f].groups, s.failedGroup, q.group);
    TotalAt(w, w', q.ref, GroupsLeft());
    if q.group in s.failedGroup {
      assert t.failedGroup == s.failedGroup;
      SumRemoveAt(w.inflight, k, OnFailedGroup(w));
      SameJudgement(w, w', q.ref, w'.inflight);
    }
  }

  lemma RetryAnswerDecreases(w: World, k: nat, t: Seg, w': World)
    requires Answers(w, k, t, w')
    requires var s := SegAt(w, w.inflight[k].ref); MayRetry(s, w.maxRetry) && t == RetryServer(s, w.maxRetry)
    ensures Below(MeasureOf(w'), MeasureOf(w))
  {
    var r := w.inflight[k].ref;
    KeptServers(w, k, t, w');
    TotalAt(w, w', r, GroupsLeft());
    TotalAt(w, w', r, RetriesLeft(w.maxRetry));
    SumRemoveAt(w.inflight, k, OnFailedGroup(w));
    SameJudgement(w, w', r, w'.inflight);
  }

  lemma ErrorDecreases(w: World, k: nat, outcome: Outcome)
    requires Inv(w) && Enabled(w, Respond(k, outcome)) && outcome != Grabbed
    ensures Below(MeasureOf(Step(w, Respond(k, outcome))), MeasureOf(w))
  {
    var q, w' := w.inflight[k], Step(w, Respond(k, outcome));
    assert q in w.inflight;
    var s, t := SegAt(w, q.ref), HandleError(SegAt(w, q.ref), q, outcome, w.maxRetry);
    ErrorAnswers(w, k, outcome);
    if outcome == NoSuchGroup {
      GroupAnswerDecreases(w, k, t, w');
    } else if outcome == OtherError && MayRetry(s, w.maxRetry) {
      RetryAnswerDecreases(w, k, t, w');
    } else {
      ServerAnswerDecreases(w, k, t, w');
    }
  }

  lemma NetworkDecreases(w: World, e: Event)
    requires Inv(w) && Enabled(w, e) && Network(e)
    ensures Below(MeasureOf(Step(w, e)), MeasureOf(w))
  {
    match e
    case Dispatch(env) => DispatchDecreases(w, env);
    case Respond(k, outcome) =>
      if outcome == Grabbed {
        var w1 := Received(w, k);
        ReceivedKeeps(w, k);
        if SegAt(w1, w.inflight[k].ref).state != Done {
          SegDoneShape(w1, w.inflight[k].ref, None);
        }
      } else {
        ErrorDecreases(w, k, outcome);
      }
  }

  // ---- Hence every schedule reaches quiescence ----

  // No work is queued and no request is in flight.
  ghost predicate Quiet(w: World) {
    w.queue == [] && w.inflight == []
  }

  // A scheduler, which may choose differently at every moment, but only ever
  // picks a network event that can happen.
  type Scheduler = (nat, World) -> Event

  ghost predicate Fair(pick: Scheduler) {
    forall n: nat, w: World {:trigger pick(n, w)} ::
      Inv(w) && !Quiet(w) ==> Network(pick(n, w)) && Enabled(w, pick(n, w))
  }

  // The worlds a scheduler passes through, until there is nothing left to pick.
  ghost predicate Drains(pick: Scheduler, n: nat, w: World, es: seq<Event>, w': World)
    decreases |es|
  {
    if es == [] then Quiet(w) && w' == w
    else !Quiet(w) && Enabled(w, es[0]) && es[0] == pick(n, w) && Drains(pick, n + 1, Step(w, es[0]), es[1..], w')
  }

  lemma {:induction false} EveryScheduleDrains(pick: Scheduler, n: nat, w: World) returns (es: seq<Event>, w': World)
    requires Inv(w) && Fair(pick)
    ensures Drains(pick, n, w, es, w') && Quiet(w') && Inv(w')
    decreases MeasureOf(w).tokens, MeasureOf(w).servers, MeasureOf(w).atFailedServer, MeasureOf(w).groups,
      MeasureOf(w).onFailedGroup, MeasureOf(w).retries, MeasureOf(w).queued
  {
    if Quiet(w) {
      es, w' := [], w;
    } else {
      var e := pick(n, w);
      NetworkDecreases(w, e);
      StepKeeps(w, e);
      var rest;
      rest, w' := EveryScheduleDrains(pick, n + 1, Step(w, e));
      es := [e] + rest;
      assert es[1..] == rest;
    }
  }

  // A relation whose every step makes a measure fall is not followed for ever.
  lemma {:induction false} Descends<W(!new), E(!new)>(
    next: (W, E, W) -> bool, inv: W -> bool, m: W -> Measure, run: nat -> W, events: nat -> E, n: nat)
    returns (stop: nat)
    requires forall w, e, w' :: inv(w) && next(w, e, w') ==> inv(w') && Below(m(w'), m(w))
    requires inv(run(n))
    ensures !next(run(stop), events(stop), run(stop + 1))
    decreases m(run(n)).tokens, m(run(n)).servers, m(run(n)).atFailedServer, m(run(n)).groups,
      m(run(n)).onFailedGroup, m(run(n)).retries, m(run(n)).queued
  {
    if next(run(n), events(n), run(n + 1)) {
      stop := Descends(next, inv, m, run, events, n + 1);
    } else {
      stop := n;
    }
  }

  ghost predicate NetworkStep(w: World, e: Event, w': World) {
    Enabled(w, e) && Network(e) && w' == Step(w, e)
  }

  // No infinite run consists of network events only.
  lemma NoEndlessRun(run: nat -> World, events: nat -> Event, n: nat) returns (stop: nat)
    requires Inv(run(n))
    ensures !NetworkStep(run(stop), events(stop), run(stop + 1))
  {
    var next, inv, m := (w, e, w') => NetworkStep(w, e, w'), w => Inv(w), w => MeasureOf(w);
    forall w, e, w' | inv(w) && next(w, e, w') ensures inv(w') && Below(m(w'), m(w)) {
      NetworkDecreases(w, e);
      StepKeeps(w, e);
    }
    stop := Descends(next, inv, m, run, events, n);
  }
}
