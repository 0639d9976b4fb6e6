// Why a segment gives up on a server, in terms of the answers it has had and
// nothing else.
module GrabFailover {
  import opened Basics
  import opened GrabModel
  import opened GrabInvariant
  import opened GrabNetwork
  import opened GrabApi
  import opened GrabTermination
  import opened GrabRequests
  import opened GrabTheorems
  import opened GrabBuild
  import opened GrabOutcome

  // ---- What a run has heard ----

  datatype Answer = Answer(q: Request, outcome: Outcome)

  ghost function HeardAt(w: World, e: Event): seq<Answer>
    requires Enabled(w, e)
  {
    if e.Respond? then [Answer(w.inflight[e.which], e.outcome)] else []
  }

  // The answers of a run, in order.
  ghost function Heard(w: World, es: seq<Event>): seq<Answer>
    decreases |es|
  {
    if es == [] || !Enabled(w, es[0]) then [] else HeardAt(w, es[0]) + Heard(Step(w, es[0]), es[1..])
  }

  ghost predicate At(a: Answer, r: Ref, srv: nat) {
    a.q.ref == r && a.q.server == srv
  }

  // The server could not decode the article, or does not have it.
  ghost predicate Fatal(h: seq<Answer>, r: Ref, srv: nat) {
    exists a :: a in h && At(a, r, srv) && (a.outcome == DecodeError || a.outcome == NoSuchArticle)
  }

  // The groups the server does not carry.
  ghost function Refused(h: seq<Answer>, r: Ref, srv: nat): set<string> {
    set a | a in h && At(a, r, srv) && a.outcome == NoSuchGroup :: a.q.group
  }

  // How many other errors it has answered with.
  ghost function OtherErrors(h: seq<Answer>, r: Ref, srv: nat): nat {
    if h == [] then 0
    else
      var last := h[|h| - 1];
      OtherErrors(h[..|h| - 1], r, srv) + if At(last, r, srv) && last.outcome == OtherError then 1 else 0
  }

  lemma OneMore(h: seq<Answer>, a: Answer, r: Ref, srv: nat)
    ensures OtherErrors(h + [a], r, srv)
         == OtherErrors(h, r, srv) + if At(a, r, srv) && a.outcome == OtherError then 1 else 0
    ensures Fatal(h + [a], r, srv) <==>
              Fatal(h, r, srv) || (At(a, r, srv) && (a.outcome == DecodeError || a.outcome == NoSuchArticle))
    ensures Refused(h + [a], r, srv)
         == Refused(h, r, srv) + if At(a, r, srv) && a.outcome == NoSuchGroup then {a.q.group} else {}
  {
    var h' := h + [a];
    assert h'[..|h|] == h;
    assert forall x :: x in h' <==> x in h || x == a;
    forall g ensures g in Refused(h', r, srv) <==>
        g in Refused(h, r, srv) + if At(a, r, srv) && a.outcome == NoSuchGroup then {a.q.group} else {}
    {
      if x :| x in h && At(x, r, srv) && x.outcome == NoSuchGroup && x.q.group == g {
        assert x in h';
      }
    }
  }

  lemma {:induction false} NothingHeard(h: seq<Answer>, r: Ref, srv: nat)
    requires forall a :: a in h ==> !At(a, r, srv)
    ensures OtherErrors(h, r, srv) == 0 && !Fatal(h, r, srv) && Refused(h, r, srv) == {}
  {
    if h != [] {
      assert h[|h| - 1] in h;
      NothingHeard(h[..|h| - 1], r, srv);
    }
  }

  // ---- The bookkeeping against what was heard ----

  // The best server left.
  ghost predicate Current(s: Seg, srv: nat) {
    srv !in s.failedServer && forall k: nat :: k < srv ==> k in s.failedServer
  }

  ghost predicate GivenUp(h: seq<Answer>, r: Ref, srv: nat, groups: seq<string>, maxRetry: int) {
    || Fatal(h, r, srv)
    || OtherErrors(h, r, srv) > Max0(maxRetry)
    || forall g :: g in groups ==> g in Refused(h, r, srv)
  }

  // A segment's books are about its best server left, and the server looked at has
  // failed only for a reason, if it is always up. Nothing was heard of a server that
  // it has not come to.
  ghost predicate Reasoned(s: Seg, h: seq<Answer>, r: Ref, srv: nat, groups: seq<string>, maxRetry: int, up: bool) {
    && (up && srv in s.failedServer ==> GivenUp(h, r, srv, groups, maxRetry))
    && (Current(s, srv) ==>
          && !Fatal(h, r, srv) && Refused(h, r, srv) == s.failedGroup
          && OtherErrors(h, r, srv) == s.retries <= Max0(maxRetry))
    && (srv !in s.failedServer && !Current(s, srv) ==> forall a :: a in h ==> !At(a, r, srv))
  }

  // The same state of affairs, if the history grows by an answer about something
  // else or by the article itself.
  lemma ReasonedIgnores(s: Seg, h: seq<Answer>, a: Answer, r: Ref, srv: nat, groups: seq<string>, maxRetry: int,
                       up: bool)
    requires Reasoned(s, h, r, srv, groups, maxRetry, up)
    requires !At(a, r, srv) || (a.outcome == Grabbed && Current(s, srv))
    ensures Reasoned(s, h + [a], r, srv, groups, maxRetry, up)
  {
    OneMore(h, a, r, srv);
  }

  // A server that has failed changes the books of a later one.
  lemma ReasonedFails(s: Seg, h: seq<Answer>, r: Ref, srv: nat, groups: seq<string>, maxRetry: int, cur: nat,
                      up: bool)
    requires Reasoned(s, h, r, srv, groups, maxRetry, up) && Current(s, cur)
    requires up && srv == cur ==> GivenUp(h, r, srv, groups, maxRetry)
    ensures Reasoned(FailServer(s, cur), h, r, srv, groups, maxRetry, up)
  {
    var t := FailServer(s, cur);
    if srv != cur && srv !in s.failedServer {
      assert !Current(s, srv);
      NothingHeard(h, r, srv);
    }
  }

  // Nothing was heard of a server behind the best one left.
  lemma BehindUnheard(s: Seg, h: seq<Answer>, a: Answer, r: Ref, srv: nat, groups: seq<string>, maxRetry: int, up: bool)
    requires Reasoned(s, h, r, srv, groups, maxRetry, up)
    requires Current(s, a.q.server) && a.q.server != srv && srv !in s.failedServer
    ensures forall x :: x in h + [a] ==> !At(x, r, srv)
    ensures OtherErrors(h + [a], r, srv) == 0 && !Fatal(h + [a], r, srv) && Refused(h + [a], r, srv) == {}
  {
    assert !Current(s, srv);
    NothingHeard(h + [a], r, srv);
  }

  // An answer from the best server left.
  lemma AnswerReasoned(s: Seg, h: seq<Answer>, q: Request, outcome: Outcome, srv: nat, groups: seq<string>,
                       maxRetry: int, up: bool)
    requires Reasoned(s, h, q.ref, srv, groups, maxRetry, up) && outcome != Grabbed
    requires Current(s, q.server)
    ensures Reasoned(HandleError(s, q, outcome, maxRetry), h + [Answer(q, outcome)], q.ref, srv, groups, maxRetry, up)
  {
    var a := Answer(q, outcome);
    if q.server == srv || srv in s.failedServer {
      OneMore(h, a, q.ref, srv);
    } else {
      BehindUnheard(s, h, a, q.ref, srv, groups, maxRetry, up);
    }
  }

  // Dispatch fails the server looked at only for the groups refused there, if it is
  // alive and holds the article.
  lemma {:induction false} TryServersReasoned(s: Seg, h: seq<Answer>, r: Ref, srv: nat, groups: seq<string>,
                                              maxRetry: int, servers: nat, env: Env, attempt: nat, up: bool)
    requires Reasoned(s, h, r, srv, groups, maxRetry, up) && (up ==> env.alive(srv) && !env.expired(srv))
    ensures Reasoned(TryServers(s, groups, servers, env, attempt).0, h, r, srv, groups, maxRetry, up)
    decreases Unfailed(s.failedServer, servers)
  {
    if env.created(attempt) {
      match SelectServer(s.failedServer, 0, servers)
      case None =>
      case Some(cur) =>
        UnfailedShrinks(s.failedServer, cur, servers);
        if !env.alive(cur) || env.expired(cur) || SelectGroup(s.failedGroup, groups).None? {
          ReasonedFails(s, h, r, srv, groups, maxRetry, cur, up);
          TryServersReasoned(FailServer(s, cur), h, r, srv, groups, maxRetry, servers, env, attempt + 1,
                             up);
        }
    }
  }

  // ---- API calls leave the books alone ----

  ghost predicate SameBooks(w: World, w': World) {
    && w'.servers == w.servers && w'.maxRetry == w.maxRetry && w'.log == w.log && w'.inflight == w.inflight
    && |w'.files| == |w.files|
    && forall r :: ValidRef(w, r) ==>
         && ValidRef(w', r) && w'.files[r.f].groups == w.files[r.f].groups
         && SegAt(w', r) == SegAt(w, r).(state := SegAt(w', r).state)
  }

  lemma SameBooksTwice(w: World, w1: World, w2: World)
    requires SameBooks(w, w1) && SameBooks(w1, w2)
    ensures SameBooks(w, w2)
  {
    forall r | ValidRef(w, r)
      ensures ValidRef(w2, r) && w2.files[r.f].groups == w.files[r.f].groups
      ensures SegAt(w2, r) == SegAt(w, r).(state := SegAt(w2, r).state)
    {
      assert ValidRef(w1, r);
    }
  }

  lemma ResumeFileBooksSame(w: World, i: nat)
    requires i < |w.files|
    ensures SameBooks(w, ResumeFile(w, i))
  {
  }

  lemma GrabFileBooksSame(w: World, i: nat)
    requires i < |w.files|
    ensures SameBooks(w, GrabFileAt(w, i))
  {
    var w1 := ResetGrabbed(w);
    ResumeFileBooksSame(w1, i);
    assert SameBooks(w, w1);
    SameBooksTwice(w, w1, ResumeFile(w1, i));
  }

  lemma {:induction false} GrabAllBooksSame(w: World, k: nat)
    requires k <= |w.files|
    ensures SameBooks(w, GrabPendingFrom(w, k))
    decreases |w.files| - k
  {
    if k < |w.files| {
      if w.files[k].state == Pending {
        var w1 := GrabFileAt(w, k);
        GrabFileBooksSame(w, k);
        GrabAllBooksSame(w1, k + 1);
        SameBooksTwice(w, w1, GrabPendingFrom(w1, k + 1));
      } else {
        GrabAllBooksSame(w, k + 1);
      }
    }
  }

  lemma ResumeOneBooksSame(w: World, k: nat)
    requires k < |w.files|
    ensures SameBooks(w, ResumeOne(w, k))
  {
    var w1 := ResumeFile(w, k);
    ResumeFileBooksSame(w, k);
    GrabFileBooksSame(w1, k);
    SameBooksTwice(w, w1, GrabFileAt(w1, k));
  }

  lemma {:induction false} ResumeBooksSame(w: World, k: nat)
    requires k <= |w.files|
    ensures SameBooks(w, ResumeFrom(w, k))
    decreases |w.files| - k
  {
    if k < |w.files| {
      var w1 := ResumeOne(w, k);
      ResumeOneBooksSame(w, k);
      ResumeBooksSame(w1, k + 1);
      SameBooksTwice(w, w1, ResumeFrom(w1, k + 1));
    }
  }

  lemma ApiBooksSame(w: World, e: Event)
    requires Enabled(w, e) && !Network(e)
    ensures SameBooks(w, Step(w, e))
  {
    match e
    case GrabAll => GrabAllBooksSame(w, 0);
    case GrabFile(i) => if i < |w.files| { GrabFileBooksSame(w, i); }
    case Pause =>
    case Resume =>
      if w.state == Paused {
        var w1 := ResumeFrom(w, 0);
        ResumeBooksSame(w, 0);
        SameBooksTwice(w, w1, w1.(state := Pending));
      }
  }

  // ---- Single events ----

  ghost predicate SameFailover(s: Seg, t: Seg) {
    t.failedServer == s.failedServer && t.failedGroup == s.failedGroup && t.retries == s.retries
  }

  ghost predicate LogHolds(w: World) {
    forall q :: q in w.inflight ==> q in w.log
  }

  lemma TriedSeg(w: World, env: Env)
    requires w.queue != [] && ValidRef(w, w.queue[0])
    ensures var (w2, a) := Tried(w, env);
            var s := SegAt(w, w.queue[0]).(state := Working);
            ValidRef(w2, w.queue[0])
            && (SegAt(w2, w.queue[0]), a) == TryServers(s, w.files[w.queue[0].f].groups, w.servers, env, 0)
  {
  }

  lemma FailedSeg(w: World, r: Ref, e: SegmentError)
    requires ValidRef(w, r)
    ensures ValidRef(SegFailed(w, r, e), r) && SameFailover(SegAt(w, r), SegAt(SegFailed(w, r, e), r))
  {
    if SegAt(w, r).state != Done { SegDoneShape(w, r, Some(e)); }
  }

  // Dispatch tries the servers of its own segment, or leaves its books alone; what
  // it sends out it logs.
  lemma DispatchBooks(w: World, env: Env)
    requires Inv(w) && Enabled(w, Dispatch(env))
    ensures var r, w' := w.queue[0], Step(w, Dispatch(env));
            var s := SegAt(w, r).(state := Working);
            && OnlyAt(w, w', r) && w'.maxRetry == w.maxRetry
            && (SameFailover(SegAt(w, r), SegAt(w', r))
                || SameFailover(TryServers(s, w.files[r.f].groups, w.servers, env, 0).0, SegAt(w', r)))
            && ((w'.inflight == w.inflight && w'.log == w.log)
                || exists q :: w'.inflight == w.inflight + [q] && w'.log == w.log + [q])
  {
    var r, w' := w.queue[0], Step(w, Dispatch(env));
    DispatchOnlyAt(w, env);
    NetworkConstants(w, Dispatch(env));
    DispatchCases(w, env);
    if Startable(w, r) {
      var (w2, a) := Tried(w, env);
      TriedOnlyAt(w, env);
      TriedSeg(w, env);
      match a {
        case Failed(e) =>
          FailedSeg(w2, r, e);
          FailedOnlyAt(w, env, e);
        case Asked(srv, g) =>
          assert w'.inflight == w.inflight + [Request(r, srv, g)];
      }
    }
  }

  ghost predicate Accounted(w: World, h: seq<Answer>, r: Ref, srv: nat, up: bool) {
    && ValidRef(w, r) && LogHolds(w)
    && Reasoned(SegAt(w, r), h, r, srv, w.files[r.f].groups, w.maxRetry, up)
  }

  ghost predicate SameTerms(w: World, w': World, r: Ref)
    requires ValidRef(w, r)
  {
    ValidRef(w', r) && w'.files[r.f].groups == w.files[r.f].groups
    && w'.maxRetry == w.maxRetry && w'.servers == w.servers
  }

  // The answer comes from a server that the segment has not given up on.
  ghost predicate InTime(w: World, e: Event, r: Ref)
    requires Enabled(w, e) && ValidRef(w, r)
  {
    e.Respond? && w.inflight[e.which].ref == r ==> w.inflight[e.which].server !in SegAt(w, r).failedServer
  }

  // Whenever the segment is dispatched the server is alive and holds the article.
  ghost predicate UpWhenAsked(w: World, e: Event, r: Ref, srv: nat)
    requires Enabled(w, e)
  {
    e.Dispatch? && w.queue[0] == r ==> e.env.alive(srv) && !e.env.expired(srv)
  }

  lemma DispatchAccounted(w: World, h: seq<Answer>, env: Env, r: Ref, srv: nat, up: bool)
    requires Inv(w) && Enabled(w, Dispatch(env)) && Accounted(w, h, r, srv, up)
    requires up ==> UpWhenAsked(w, Dispatch(env), r, srv)
    ensures Accounted(Step(w, Dispatch(env)), h, r, srv, up) && SameTerms(w, Step(w, Dispatch(env)), r)
  {
    DispatchBooks(w, env);
    if w.queue[0] == r {
      var s := SegAt(w, r).(state := Working);
      TryServersReasoned(s, h, r, srv, w.files[r.f].groups, w.maxRetry, w.servers, env, 0, up);
    }
  }

  lemma InTimeIsCurrent(w: World, k: nat)
    requires Inv(w) && LogHolds(w) && k < |w.inflight| && ValidRef(w, w.inflight[k].ref)
    requires w.inflight[k].server !in SegAt(w, w.inflight[k].ref).failedServer
    ensures Current(SegAt(w, w.inflight[k].ref), w.inflight[k].server)
  {
    assert w.inflight[k] in w.log;
  }

  lemma GrabbedBooks(w: World, k: nat)
    requires Inv(w) && Enabled(w, Respond(k, Grabbed))
    ensures var w' := Step(w, Respond(k, Grabbed));
            forall r :: ValidRef(w, r) ==> ValidRef(w', r) && SameFailover(SegAt(w, r), SegAt(w', r))
  {
    var x, w1 := w.inflight[k].ref, Received(w, k);
    RespondShape(w, k, Grabbed);
    if SegAt(w1, x).state != Done { SegDoneShape(w1, x, None); }
  }

  lemma OwnAnswerAccounted(w: World, h: seq<Answer>, k: nat, outcome: Outcome, srv: nat, up: bool)
    requires Inv(w) && Enabled(w, Respond(k, outcome)) && Accounted(w, h, w.inflight[k].ref, srv, up)
    requires InTime(w, Respond(k, outcome), w.inflight[k].ref)
    ensures var w', q := Step(w, Respond(k, outcome)), w.inflight[k];
            && ValidRef(w', q.ref)
            && Reasoned(SegAt(w', q.ref), h + [Answer(q, outcome)], q.ref, srv, w.files[q.ref.f].groups, w.maxRetry, up)
  {
    var q := w.inflight[k];
    var s, groups := SegAt(w, q.ref), w.files[q.ref.f].groups;
    RespondShape(w, k, outcome);
    InTimeIsCurrent(w, k);
    if outcome == Grabbed {
      GrabbedBooks(w, k);
      ReasonedIgnores(s, h, Answer(q, outcome), q.ref, srv, groups, w.maxRetry, up);
    } else {
      AnswerReasoned(s, h, q, outcome, srv, groups, w.maxRetry, up);
    }
  }

  lemma RespondAccounted(w: World, h: seq<Answer>, k: nat, outcome: Outcome, r: Ref, srv: nat, up: bool)
    requires Inv(w) && Enabled(w, Respond(k, outcome)) && Accounted(w, h, r, srv, up)
    requires InTime(w, Respond(k, outcome), r)
    ensures Accounted(Step(w, Respond(k, outcome)), h + [Answer(w.inflight[k], outcome)], r, srv, up)
    ensures SameTerms(w, Step(w, Respond(k, outcome)), r)
  {
    var q, w' := w.inflight[k], Step(w, Respond(k, outcome));
    RespondShape(w, k, outcome);
    assert forall x :: x in w'.inflight ==> x in w.inflight;
    if q.ref != r {
      ReasonedIgnores(SegAt(w, r), h, Answer(q, outcome), r, srv, w.files[r.f].groups, w.maxRetry, up);
      assert SegAt(w', r) == SegAt(w, r);
    } else {
      OwnAnswerAccounted(w, h, k, outcome, srv, up);
    }
  }

  lemma ApiAccounted(w: World, h: seq<Answer>, e: Event, r: Ref, srv: nat, up: bool)
    requires Enabled(w, e) && !Network(e) && Accounted(w, h, r, srv, up)
    ensures Accounted(Step(w, e), h, r, srv, up) && SameTerms(w, Step(w, e), r)
  {
    ApiBooksSame(w, e);
  }

  lemma StepAccounted(w: World, h: seq<Answer>, e: Event, r: Ref, srv: nat, up: bool)
    requires Inv(w) && Enabled(w, e) && Accounted(w, h, r, srv, up)
    requires InTime(w, e, r) && (up ==> UpWhenAsked(w, e, r, srv))
    ensures Accounted(Step(w, e), h + HeardAt(w, e), r, srv, up) && SameTerms(w, Step(w, e), r)
  {
    assert h + [] == h;
    if e.Dispatch? {
      DispatchAccounted(w, h, e.env, r, srv, up);
    } else if e.Respond? {
      RespondAccounted(w, h, e.which, e.outcome, r, srv, up);
    } else {
      ApiAccounted(w, h, e, r, srv, up);
    }
  }

  // ---- Whole runs ----

  ghost predicate Timely(w: World, es: seq<Event>, r: Ref)
    decreases |es|
  {
    es == [] || (Enabled(w, es[0]) && ValidRef(w, r) && InTime(w, es[0], r) && Timely(Step(w, es[0]), es[1..], r))
  }

  ghost predicate AlwaysUp(w: World, es: seq<Event>, r: Ref, srv: nat)
    decreases |es|
  {
    es == [] || (Enabled(w, es[0]) && UpWhenAsked(w, es[0], r, srv) && AlwaysUp(Step(w, es[0]), es[1..], r, srv))
  }

  lemma {:induction false} RunAccounted(w: World, h: seq<Answer>, es: seq<Event>, w': World, r: Ref, srv: nat, up: bool)
    requires Inv(w) && Runs(w, es, w') && Accounted(w, h, r, srv, up)
    requires Timely(w, es, r) && (up ==> AlwaysUp(w, es, r, srv))
    ensures Inv(w') && Accounted(w', h + Heard(w, es), r, srv, up) && SameTerms(w, w', r)
    decreases |es|
  {
    if es == [] {
      assert h + [] == h;
    } else {
      StepKeeps(w, es[0]);
      StepAccounted(w, h, es[0], r, srv, up);
      RunAccounted(Step(w, es[0]), h + HeardAt(w, es[0]), es[1..], w', r, srv, up);
      Associates(h, HeardAt(w, es[0]), Heard(Step(w, es[0]), es[1..]));
    }
  }

  lemma RunAccounts(w: World, es: seq<Event>, w': World, r: Ref, srv: nat, up: bool)
    requires Inv(w) && Runs(w, es, w') && Accounted(w, [], r, srv, up)
    requires Timely(w, es, r) && (up ==> AlwaysUp(w, es, r, srv))
    ensures Inv(w') && Accounted(w', Heard(w, es), r, srv, up) && SameTerms(w, w', r)
  {
    RunAccounted(w, [], es, w', r, srv, up);
    assert [] + Heard(w, es) == Heard(w, es);
  }

  lemma NothingHeardYet(specs: seq<FileSpec>, servers: nat, maxRetry: int, first: Option<nat>, r: Ref, srv: nat,
                        up: bool)
    requires SmallestPar2(specs, first) && r.f < |specs| && r.s < |specs[r.f].numbers|
    ensures var w := FromNZB(specs, servers, maxRetry, first);
            && Inv(w) && Accounted(w, [], r, srv, up)
            && w.files[r.f].groups == specs[r.f].groups && w.maxRetry == maxRetry && w.servers == servers
  {
    StartsOK(specs, servers, maxRetry, first);
    Built(specs, servers, maxRetry, first);
    var w := FromNZB(specs, servers, maxRetry, first);
    assert BuiltFrom(w.files[r.f], specs[r.f], Wanted(specs, first, r.f));
    NothingHeard([], r, srv);
  }

  lemma RunFromNew(specs: seq<FileSpec>, servers: nat, maxRetry: int, first: Option<nat>,
                   es: seq<Event>, w: World, r: Ref, srv: nat, up: bool)
    requires SmallestPar2(specs, first) && r.f < |specs| && r.s < |specs[r.f].numbers|
    requires Runs(FromNZB(specs, servers, maxRetry, first), es, w)
    requires Timely(FromNZB(specs, servers, maxRetry, first), es, r)
    requires up ==> AlwaysUp(FromNZB(specs, servers, maxRetry, first), es, r, srv)
    ensures Inv(w) && Accounted(w, Heard(FromNZB(specs, servers, maxRetry, first), es), r, srv, up)
    ensures w.files[r.f].groups == specs[r.f].groups && w.maxRetry == maxRetry && w.servers == servers
  {
    NothingHeardYet(specs, servers, maxRetry, first, r, srv, up);
    RunAccounts(FromNZB(specs, servers, maxRetry, first), es, w, r, srv, up);
  }

  // In a run whose answers about a segment are in time, and in which a server is
  // always up for it: the segment has given up on the server only if it could not
  // decode the article there or did not find it, or had more other errors there
  // than it may retry, or was refused every group of its file there; and it has
  // given up on every server, up or not, that the first two are true of.
  lemma ServerGivenUp(specs: seq<FileSpec>, servers: nat, maxRetry: int, first: Option<nat>,
                      es: seq<Event>, w: World, r: Ref, srv: nat)
    requires SmallestPar2(specs, first) && r.f < |specs| && r.s < |specs[r.f].numbers|
    requires Runs(FromNZB(specs, servers, maxRetry, first), es, w)
    requires Timely(FromNZB(specs, servers, maxRetry, first), es, r)
    ensures ValidRef(w, r)
    ensures var h := Heard(FromNZB(specs, servers, maxRetry, first), es);
            && (AlwaysUp(FromNZB(specs, servers, maxRetry, first), es, r, srv) && srv in SegAt(w, r).failedServer ==>
                  || Fatal(h, r, srv)
                  || OtherErrors(h, r, srv) > Max0(maxRetry)
                  || forall g :: g in specs[r.f].groups ==> g in Refused(h, r, srv))
            && (Fatal(h, r, srv) || OtherErrors(h, r, srv) > Max0(maxRetry) ==> srv in SegAt(w, r).failedServer)
  {
    var w0 := FromNZB(specs, servers, maxRetry, first);
    var h, up := Heard(w0, es), AlwaysUp(w0, es, r, srv);
    RunFromNew(specs, servers, maxRetry, first, es, w, r, srv, up);
    if srv !in SegAt(w, r).failedServer && !Current(SegAt(w, r), srv) { NothingHeard(h, r, srv); }
  }

  lemma AskedCurrent(w: World, env: Env) returns (q: Request)
    requires Inv(w) && Enabled(w, Dispatch(env)) && Step(w, Dispatch(env)).log != w.log
    ensures var w' := Step(w, Dispatch(env));
            && w'.log == w.log + [q] && q.ref == w.queue[0] && Best(w', q, env)
            && Current(SegAt(w', q.ref), q.server)
  {
    GrabsBest(w, env);
    q :| Step(w, Dispatch(env)).log == w.log + [q] && q.ref == w.queue[0] && Best(Step(w, Dispatch(env)), q, env);
  }

  // The first of the groups that is not among these.
  ghost predicate FirstLeft(g: string, groups: seq<string>, gone: set<string>) {
    g !in gone && exists i :: 0 <= i < |groups| && groups[i] == g && forall j :: 0 <= j < i ==> groups[j] in gone
  }

  // What a run with answers in time asks for next: never a server that could not
  // decode the article, did not have it, or used up its retries, and there the first
  // group of the file that this server has not refused.
  lemma AsksWhatIsLeft(specs: seq<FileSpec>, servers: nat, maxRetry: int, first: Option<nat>,
                       es: seq<Event>, w: World, env: Env) returns (q: Request)
    requires SmallestPar2(specs, first)
    requires Runs(FromNZB(specs, servers, maxRetry, first), es, w) && Enabled(w, Dispatch(env))
    requires w.queue[0].f < |specs| && w.queue[0].s < |specs[w.queue[0].f].numbers|
    requires Timely(FromNZB(specs, servers, maxRetry, first), es, w.queue[0])
    requires Step(w, Dispatch(env)).log != w.log
    ensures Step(w, Dispatch(env)).log == w.log + [q] && q.ref == w.queue[0]
    ensures q.server < servers && env.alive(q.server) && !env.expired(q.server)
    ensures var h := Heard(FromNZB(specs, servers, maxRetry, first), es);
            && !Fatal(h, q.ref, q.server) && OtherErrors(h, q.ref, q.server) <= Max0(maxRetry)
            && FirstLeft(q.group, specs[q.ref.f].groups, Refused(h, q.ref, q.server))
  {
    var w0, r := FromNZB(specs, servers, maxRetry, first), w.queue[0];
    RunFromNew(specs, servers, maxRetry, first, es, w, r, 0, false);
    q := AskedCurrent(w, env);
    RunFromNew(specs, servers, maxRetry, first, es, w, r, q.server, false);
    DispatchAccounted(w, Heard(w0, es), env, r, q.server, false);
  }

  // ---- When answers are in time ----

  // With one token for the segment every answer about it is.
  lemma {:induction false} SoleTokenIsTimely(w: World, es: seq<Event>, w': World, r: Ref)
    requires Inv(w) && NetworkRun(w, es, w') && SoleToken(w, r)
    ensures Timely(w, es, r) && Runs(w, es, w')
    decreases |es|
  {
    if es != [] {
      StepKeeps(w, es[0]);
      match es[0] {
        case Dispatch(env) => DispatchSpends(w, env, r);
        case Respond(k, outcome) =>
          assert w.inflight[k] in w.inflight;
          RespondSpends(w, k, outcome, r);
      }
      SoleTokenIsTimely(Step(w, es[0]), es[1..], w', r);
    }
  }

  lemma GrabAllSole(w: World, r: Ref)
    requires Inv(w) && w.queue == [] && w.inflight == [] && ValidRef(w, r)
    ensures Inv(Step(w, GrabAll)) && SoleToken(Step(w, GrabAll), r)
  {
    StepKeeps(w, GrabAll);
    GrabAllFresh(w, 0);
    GrabAllConstants(w, 0);
    GrabAllGrabs(w, 0);
    assert Sum(Step(w, GrabAll).queue, Names(r)) <= 1;
  }

  lemma GrabAllTimely(w0: World, es: seq<Event>, w: World, r: Ref)
    requires Inv(w0) && w0.queue == [] && w0.inflight == [] && ValidRef(w0, r)
    requires NetworkRun(Step(w0, GrabAll), es, w)
    ensures Timely(w0, [GrabAll] + es, r) && Runs(w0, [GrabAll] + es, w)
  {
    GrabAllSole(w0, r);
    SoleTokenIsTimely(Step(w0, GrabAll), es, w, r);
    assert ([GrabAll] + es)[1..] == es;
  }

  // So they all are after a grabber has been built and told once to grab everything.
  lemma FirstGrabIsTimely(specs: seq<FileSpec>, servers: nat, maxRetry: int, first: Option<nat>,
                          es: seq<Event>, w: World, r: Ref)
    requires SmallestPar2(specs, first) && r.f < |specs| && r.s < |specs[r.f].numbers|
    requires NetworkRun(Step(FromNZB(specs, servers, maxRetry, first), GrabAll), es, w)
    ensures Timely(FromNZB(specs, servers, maxRetry, first), [GrabAll] + es, r)
    ensures Runs(FromNZB(specs, servers, maxRetry, first), [GrabAll] + es, w)
  {
    var w0 := FromNZB(specs, servers, maxRetry, first);
    StartsOK(specs, servers, maxRetry, first);
    Built(specs, servers, maxRetry, first);
    BuiltFile(specs, servers, maxRetry, first, r.f);
    GrabAllTimely(w0, es, w, r);
  }
}
