// What an answer does that comes from a server the segment has already given up
// on: it is booked against the server that has taken its place.
module GrabLate {
  import opened Basics
  import opened GrabModel
  import opened GrabInvariant
  import opened GrabFailover

  const LATE: Ref := Ref(0, 0)
  const LATE_REQUEST: Request := Request(LATE, 0, "g")

  ghost function TwoServers(g: State, f: State, s: Seg, queue: seq<Ref>, inflight: seq<Request>,
                            log: seq<Request>): World
  {
    World(2, 3, g, [File([s], ["g"], f, 0, true)], [], 1, 0, 0, queue, inflight, [], log, {0})
  }

  ghost function LateSeg(state: State, servers: set<nat>, groups: set<string>): Seg {
    Seg(1, state, None, servers, groups, 0)
  }

  ghost predicate AllUp(env: Env) {
    forall n: nat :: env.created(n) && env.alive(n) && !env.expired(n)
  }

  lemma LateGrabbed()
    ensures var w := Step(FromNZB([FileSpec([1], ["g"], false, false)], 2, 3, None), GrabAll);
            Step(w, GrabAll) == TwoServers(Pending, Pending, LateSeg(Pending, {}, {}), [LATE, LATE], [], [])
  {
    var specs := [FileSpec([1], ["g"], false, false)];
    var w := NewGrabber(specs, 2, 3);
    var s := LateSeg(Pending, {}, {});
    assert NewFile(specs[0]) == File([s], ["g"], Pending, 0, true);
    assert w.files == [NewFile(specs[0])];
    assert Sum(w.files, RequiredOne) == 1 + Sum([], RequiredOne) by { assert w.files[1..] == []; }
    assert FileRefs(0, 1) == [LATE];
    assert GrabFileAt(w, 0) == TwoServers(Pending, Pending, s, [LATE], [], []);
    assert GrabFileAt(GrabFileAt(w, 0), 0) == TwoServers(Pending, Pending, s, [LATE, LATE], [], []);
  }

  lemma LateAsked(env: Env, g: State, s: State, queue: seq<Ref>, asked: seq<Request>)
    requires AllUp(env) && (s == Pending || s == Working) && (g == Pending || g == Working)
    ensures Step(TwoServers(g, s, LateSeg(s, {}, {}), [LATE] + queue, asked, asked), Dispatch(env))
         == TwoServers(if s == Pending then Working else g, Working, LateSeg(Working, {}, {}), queue,
                       asked + [LATE_REQUEST], asked + [LATE_REQUEST])
  {
    var w := TwoServers(g, s, LateSeg(s, {}, {}), [LATE] + queue, asked, asked);
    var t := LateSeg(Working, {}, {});
    assert w.queue[1..] == queue;
    assert SelectServer({}, 0, 2) == Some(0) && SelectGroup({}, ["g"]) == Some("g");
    assert TryServers(t, ["g"], 2, env, 0) == (t, Asked(0, "g"));
    assert w.files[0].segs[0 := t] == [t] && [t][0 := t] == [t];
  }

  ghost function LateAnswered(servers: set<nat>, groups: set<string>, queue: seq<Ref>, inflight: seq<Request>): World {
    TwoServers(Working, Working, LateSeg(Working, servers, groups), queue, inflight, [LATE_REQUEST, LATE_REQUEST])
  }

  lemma LateHeard()
    ensures Step(LateAnswered({}, {}, [], [LATE_REQUEST, LATE_REQUEST]), Respond(0, DecodeError))
         == LateAnswered({0}, {}, [LATE], [LATE_REQUEST])
    ensures Step(LateAnswered({0}, {}, [LATE], [LATE_REQUEST]), Respond(0, NoSuchGroup))
         == LateAnswered({0}, {"g"}, [LATE, LATE], [])
  {
    var w1 := LateAnswered({}, {}, [], [LATE_REQUEST, LATE_REQUEST]);
    var w2 := LateAnswered({0}, {}, [LATE], [LATE_REQUEST]);
    assert {} + {0} == {0} && {} + {"g"} == {"g"};
    assert [LATE] + [LATE] == [LATE, LATE] && [] + [LATE] == [LATE];
    assert RemoveAt(w1.inflight, 0) == [LATE_REQUEST] && RemoveAt(w2.inflight, 0) == [];
    assert w1.files[0].segs[0 := LateSeg(Working, {0}, {})] == [LateSeg(Working, {0}, {})];
    assert w2.files[0].segs[0 := LateSeg(Working, {0}, {"g"})] == [LateSeg(Working, {0}, {"g"})];
  }

  lemma LateTried(env: Env)
    requires AllUp(env)
    ensures TryServers(LateSeg(Working, {0}, {"g"}), ["g"], 2, env, 0)
         == (LateSeg(Working, {0, 1}, {}), Failed(NoMoreServers))
  {
    assert SelectServer({0}, 0, 2) == Some(1) && SelectGroup({"g"}, ["g"]) == None;
    assert FailServer(LateSeg(Working, {0}, {"g"}), 1) == LateSeg(Working, {0, 1}, {}) by {
      assert {0} + {1} == {0, 1};
    }
    assert SelectServer({0, 1}, 0, 2) == None;
  }

  lemma LateGivenUp(env: Env)
    requires AllUp(env)
    ensures var w := Step(LateAnswered({0}, {"g"}, [LATE, LATE], []), Dispatch(env));
            && ValidRef(w, LATE) && SegAt(w, LATE).err == Some(NoMoreServers)
            && w.log == [LATE_REQUEST, LATE_REQUEST]
  {
    var w := LateAnswered({0}, {"g"}, [LATE, LATE], []);
    var s, t := LateSeg(Working, {0}, {"g"}), LateSeg(Working, {0, 1}, {});
    LateTried(env);
    assert w.queue[1..] == [LATE];
    assert w.files[0].segs[0 := s] == [s] && [s][0 := t] == [t];
    var w2 := WithSeg(w.(queue := [LATE]), LATE, t);
    SegDoneShape(w2, LATE, Some(NoMoreServers));
  }

  // A file of one segment, asked for twice before anything is dispatched, so that
  // two requests for it go to the first of two servers.
  lemma AskedTwice(env: Env)
    requires AllUp(env)
    ensures var w1 := Step(Step(FromNZB([FileSpec([1], ["g"], false, false)], 2, 3, None), GrabAll), GrabAll);
            && Enabled(w1, Dispatch(env))
            && var w2 := Step(w1, Dispatch(env));
            && Enabled(w2, Dispatch(env))
            && Step(w2, Dispatch(env)) == LateAnswered({}, {}, [], [LATE_REQUEST, LATE_REQUEST])
  {
    LateGrabbed();
    LateAsked(env, Pending, Pending, [LATE], []);
    LateAsked(env, Working, Working, [], [LATE_REQUEST]);
    assert [LATE] + [] == [LATE];
  }

  // The first answer is a decode error, and the segment moves on. The second is that
  // the first server does not carry the group; it is booked against the second
  // server, which is then given up on and the segment failed. The second server was
  // up throughout and never asked.
  lemma LateAnswerFailsAnother(env: Env)
    requires AllUp(env)
    ensures var w3 := LateAnswered({}, {}, [], [LATE_REQUEST, LATE_REQUEST]);
            && Enabled(w3, Respond(0, DecodeError))
            && var w4 := Step(w3, Respond(0, DecodeError));
            && Enabled(w4, Respond(0, NoSuchGroup)) && ValidRef(w4, LATE)
            && !InTime(w4, Respond(0, NoSuchGroup), LATE)
            && var w5 := Step(w4, Respond(0, NoSuchGroup));
            && Enabled(w5, Dispatch(env))
            && var w6 := Step(w5, Dispatch(env));
            && ValidRef(w6, LATE) && SegAt(w6, LATE).err == Some(NoMoreServers)
            && forall q :: q in w6.log ==> q.server == 0
  {
    LateHeard();
    LateGivenUp(env);
  }

  // Exactly when an answer that is late leaves the books of the best server left as
  // they should be: when it happens to leave them as they were.
  lemma LateAnswerMisbooked(s: Seg, h: seq<Answer>, q: Request, outcome: Outcome, srv: nat, groups: seq<string>,
                            maxRetry: int, up: bool)
    requires outcome != Grabbed && Current(s, srv) && q.server in s.failedServer
    requires Reasoned(s, h, q.ref, srv, groups, maxRetry, up)
    ensures Reasoned(HandleError(s, q, outcome, maxRetry), h + [Answer(q, outcome)], q.ref, srv, groups, maxRetry, up)
        <==> if outcome == NoSuchGroup then q.group in s.failedGroup
             else s.failedGroup == {} && s.retries == 0 && (outcome == OtherError ==> maxRetry <= 0)
  {
    OneMore(h, Answer(q, outcome), q.ref, srv);
    assert q.server in s.failedServer && s.failedServer + {q.server} == s.failedServer;
  }
}
