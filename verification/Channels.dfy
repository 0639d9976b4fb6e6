// The channels between the goroutines: an API caller, the pump behind the work
// queue, the dispatcher, each server's sessions and the aggregator of its
// responses, and the response handler. A send blocks while its channel is full and a receive
// while it is empty; every send and every receive is one atomic hop.
module Channels {
  import opened Basics
  import opened GrabModel

  const QUEUE_SIZE: nat := 100

  // What a server is sent; its responses say no more about who asked.
  datatype Job = Job(ref: Ref, group: string)

  datatype Session = Free | Fetching(job: Job) | Answering(job: Job)

  // A server: the request channel, the sessions, the response channel, and the
  // goroutine that forwards its responses. Both channels hold one job a session.
  datatype Link = Link(gReq: seq<Job>, sessions: seq<Session>, gRsp: seq<Job>, aggregator: Option<Job>)

  datatype Dispatcher = Waiting | Holding(ref: Ref) | Sending(q: Request) | DispatchSignals

  datatype Responder = Listening | Handling(q: Request) | Requeueing(ref: Ref) | RespondSignals

  // A call has whole files to enqueue, one segment after another. Entering is
  // where it takes the lock that finishing a file takes. A Resume holds the
  // grabber's own lock, without which dispatch cannot decide, until it is over.
  datatype Caller =
    | Away
    | Entering(files: seq<seq<Ref>>, resume: bool)
    | Enqueueing(refs: seq<Ref>, files: seq<seq<Ref>>, resume: bool)

  datatype Net = Net(
    caller: Caller,
    qIn: seq<Ref>,
    b: seq<Ref>,
    qOut: seq<Ref>,
    dispatcher: Dispatcher,
    links: seq<Link>,
    grabRsp: seq<Request>,
    responder: Responder)

  // A goroutine blocked on the signal holds the lock that finishing a file takes.
  predicate Signalling(n: Net) {
    n.dispatcher == DispatchSignals || n.responder == RespondSignals
  }

  predicate Locked(c: Caller) {
    c != Away && c.resume
  }

  // ---- Hops that only move things along ----

  datatype Hop =
    | Enter | Call
    | PumpIn | PumpOut | Take | Send
    | Fetch(s: nat, i: nat) | ReadBody(s: nat, i: nat) | Reply(s: nat, i: nat)
    | Collect(s: nat) | Forward(s: nat)
    | Receive | Requeue | Signalled

  function Capacity(l: Link): nat { |l.sessions| }

  function AsJob(q: Request): Job { Job(q.ref, q.group) }

  function AsRequest(s: nat, j: Job): Request { Request(j.ref, s, j.group) }

  predicate CanHop(n: Net, e: Hop) {
    match e
    case Enter => n.caller.Entering? && !Signalling(n)
    case Call => n.caller.Enqueueing? && (n.caller.refs != [] ==> |n.qIn| < QUEUE_SIZE)
    case PumpIn => n.qIn != []
    case PumpOut => n.b != [] && |n.qOut| < QUEUE_SIZE
    case Take => n.dispatcher == Waiting && n.qOut != []
    case Send =>
      && n.dispatcher.Sending? && n.dispatcher.q.server < |n.links|
      && |n.links[n.dispatcher.q.server].gReq| < Capacity(n.links[n.dispatcher.q.server])
    case Fetch(s, i) =>
      s < |n.links| && i < |n.links[s].sessions| && n.links[s].sessions[i] == Free && n.links[s].gReq != []
    case ReadBody(s, i) =>
      s < |n.links| && i < |n.links[s].sessions| && n.links[s].sessions[i].Fetching?
    case Reply(s, i) =>
      && s < |n.links| && i < |n.links[s].sessions| && n.links[s].sessions[i].Answering?
      && |n.links[s].gRsp| < Capacity(n.links[s])
    case Collect(s) => s < |n.links| && n.links[s].aggregator == None && n.links[s].gRsp != []
    case Forward(s) =>
      s < |n.links| && n.links[s].aggregator.Some? && |n.grabRsp| < Sum(n.links, Capacity)
    case Receive => n.responder == Listening && n.grabRsp != []
    case Requeue => n.responder.Requeueing? && |n.qIn| < QUEUE_SIZE
    case Signalled => Signalling(n)
  }

  function WithLink(n: Net, s: nat, l: Link): Net
    requires s < |n.links|
  {
    n.(links := n.links[s := l])
  }

  function Hopped(n: Net, e: Hop): Net
    requires CanHop(n, e)
  {
    match e
    case Enter =>
      var c := n.caller;
      n.(caller := if c.files == [] then Away else Enqueueing(c.files[0], c.files[1..], c.resume))
    case Call =>
      var c := n.caller;
      if c.refs == [] then n.(caller := Entering(c.files, c.resume))
      else n.(caller := c.(refs := c.refs[1..]), qIn := n.qIn + [c.refs[0]])
    case PumpIn => n.(b := n.b + [n.qIn[0]], qIn := n.qIn[1..])
    case PumpOut => n.(qOut := n.qOut + [n.b[0]], b := n.b[1..])
    case Take => n.(dispatcher := Holding(n.qOut[0]), qOut := n.qOut[1..])
    case Send =>
      var q, l := n.dispatcher.q, n.links[n.dispatcher.q.server];
      WithLink(n, q.server, l.(gReq := l.gReq + [AsJob(q)])).(dispatcher := Waiting)
    case Fetch(s, i) =>
      var l := n.links[s];
      WithLink(n, s, l.(sessions := l.sessions[i := Fetching(l.gReq[0])], gReq := l.gReq[1..]))
    case ReadBody(s, i) =>
      var l := n.links[s];
      WithLink(n, s, l.(sessions := l.sessions[i := Answering(l.sessions[i].job)]))
    case Reply(s, i) =>
      var l := n.links[s];
      WithLink(n, s, l.(sessions := l.sessions[i := Free], gRsp := l.gRsp + [l.sessions[i].job]))
    case Collect(s) =>
      var l := n.links[s];
      WithLink(n, s, l.(aggregator := Some(l.gRsp[0]), gRsp := l.gRsp[1..]))
    case Forward(s) =>
      var l := n.links[s];
      WithLink(n, s, l.(aggregator := None)).(grabRsp := n.grabRsp + [AsRequest(s, l.aggregator.value)])
    case Receive => n.(responder := Handling(n.grabRsp[0]), grabRsp := n.grabRsp[1..])
    case Requeue => n.(responder := Listening, qIn := n.qIn + [n.responder.ref])
    case Signalled =>
      if n.dispatcher == DispatchSignals then n.(dispatcher := Waiting) else n.(responder := Listening)
  }

  // ---- No channel overflows ----

  ghost predicate LinkBounded(l: Link) {
    |l.gReq| <= |l.sessions| && |l.gRsp| <= |l.sessions|
  }

  ghost predicate Bounded(n: Net) {
    && |n.qIn| <= 100 && |n.qOut| <= 100
    && (forall s :: 0 <= s < |n.links| ==> LinkBounded(n.links[s]))
    && |n.grabRsp| <= Sum(n.links, Capacity)
  }

  lemma LinkKeepsCapacity(n: Net, s: nat, l: Link)
    requires s < |n.links| && |l.sessions| == |n.links[s].sessions|
    ensures Sum(WithLink(n, s, l).links, Capacity) == Sum(n.links, Capacity)
  {
    SumUpdate(n.links, s, l, Capacity);
  }

  // The queue's channels hold at most 100 segments, the channels of a server one job
  // a session, and the channel of all responses one for every session there is.
  lemma HopKeepsBounds(n: Net, e: Hop)
    requires Bounded(n) && CanHop(n, e)
    ensures Bounded(Hopped(n, e)) && Sum(Hopped(n, e).links, Capacity) == Sum(n.links, Capacity)
  {
    var links := Hopped(n, e).links;
    var s := match e case Send => n.dispatcher.q.server case Fetch(s, _) => s case ReadBody(s, _) => s
             case Reply(s, _) => s case Collect(s) => s case Forward(s) => s case _ => 0;
    if links != n.links {
      assert s < |n.links| && LinkBounded(n.links[s]);
      LinkKeepsCapacity(n, s, links[s]);
      assert links == n.links[s := links[s]];
    }
  }

  // ---- One unbounded queue ----

  // The work still to be dispatched, in the order it will be.
  function Queued(n: Net): seq<Ref> {
    (if n.dispatcher.Holding? then [n.dispatcher.ref] else []) + (n.qOut + (n.b + n.qIn))
  }

  function AllOf(files: seq<seq<Ref>>): seq<Ref> {
    if files == [] then [] else files[0] + AllOf(files[1..])
  }

  // What the call has yet to enqueue.
  function Planned(c: Caller): seq<Ref> {
    match c
    case Away => []
    case Entering(files, _) => AllOf(files)
    case Enqueueing(refs, files, _) => refs + AllOf(files)
  }

  // What a hop puts into the queue.
  function Enqueued(n: Net, e: Hop): seq<Ref> {
    if e == Call && n.caller.Enqueueing? && n.caller.refs != [] then [n.caller.refs[0]]
    else if e == Requeue && n.responder.Requeueing? then [n.responder.ref]
    else []
  }

  lemma EnqueuedLast(n: Net, r: Ref)
    ensures Queued(n.(qIn := n.qIn + [r])) == Queued(n) + [r]
  {
    var holding := if n.dispatcher.Holding? then [n.dispatcher.ref] else [];
    Associates(n.b, n.qIn, [r]);
    Associates(n.qOut, n.b + n.qIn, [r]);
    Associates(holding, n.qOut + (n.b + n.qIn), [r]);
  }

  // From the end of the channel to the slice, and from there to the other channel.
  lemma PassedOn<T>(front: seq<T>, back: seq<T>)
    requires back != []
    ensures (front + [back[0]]) + back[1..] == front + back
  {
    Associates(front, [back[0]], back[1..]);
    assert [back[0]] + back[1..] == back;
  }

  lemma PumpOutQueue(n: Net)
    requires CanHop(n, PumpOut)
    ensures Queued(Hopped(n, PumpOut)) == Queued(n)
  {
    PassedOn(n.qOut, n.b + n.qIn);
    assert (n.b + n.qIn)[1..] == n.b[1..] + n.qIn;
  }

  lemma TakeQueue(n: Net)
    requires CanHop(n, Take)
    ensures Queued(Hopped(n, Take)) == Queued(n)
  {
    var rest := n.b + n.qIn;
    assert [] + (n.qOut + rest) == n.qOut + rest;
    assert [n.qOut[0]] + n.qOut[1..] == n.qOut;
    Associates([n.qOut[0]], n.qOut[1..], rest);
  }

  // The pump and the two channels around it are one queue: nothing leaves it or
  // changes places by hopping along, and what is enqueued goes to its end.
  lemma HopKeepsQueue(n: Net, e: Hop)
    requires CanHop(n, e)
    ensures Queued(Hopped(n, e)) == Queued(n) + Enqueued(n, e)
  {
    assert Queued(n) + [] == Queued(n);
    match e {
      case Call => if n.caller.refs != [] { EnqueuedLast(n, n.caller.refs[0]); }
      case Requeue => EnqueuedLast(n, n.responder.ref);
      case PumpIn => PassedOn(n.b, n.qIn);
      case PumpOut => PumpOutQueue(n);
      case Take => TakeQueue(n);
      case _ =>
    }
  }

  // A call enqueues what it has planned, in that order.
  lemma CallFollowsPlan(n: Net, e: Hop)
    requires CanHop(n, e)
    ensures Planned(n.caller) == (if e == Call then Enqueued(n, e) else []) + Planned(Hopped(n, e).caller)
  {
    if e == Call && n.caller.refs != [] {
      var rest := n.caller.refs[1..];
      assert n.caller.refs == [n.caller.refs[0]] + rest;
      Associates([n.caller.refs[0]], rest, AllOf(n.caller.files));
    }
  }

  // ---- Every request is in one place ----

  function One(b: bool): nat { if b then 1 else 0 }

  function IsJob(j: Job): Job -> nat { (x: Job) => One(x == j) }

  function IsRequest(q: Request): Request -> nat { (x: Request) => One(x == q) }

  function InSession(j: Job): Session -> nat { (x: Session) => One(x != Free && x.job == j) }

  // How often a job is with a server.
  function AtLink(l: Link, j: Job): nat {
    Sum(l.gReq, IsJob(j)) + Sum(l.sessions, InSession(j)) + Sum(l.gRsp, IsJob(j)) + One(l.aggregator == Some(j))
  }

  function AtDispatcher(d: Dispatcher, q: Request): nat { One(d == Sending(q)) }

  function AtResponder(r: Responder, q: Request): nat {
    One(r == Handling(q))
  }

  // How often a request is on its way: being sent, with its server, or answered
  // and not yet dealt with.
  function OnTheWay(n: Net, q: Request): nat {
    AtDispatcher(n.dispatcher, q)
    + (if q.server < |n.links| then AtLink(n.links[q.server], AsJob(q)) else 0)
    + Sum(n.grabRsp, IsRequest(q))
    + AtResponder(n.responder, q)
  }

  lemma SumLast<T>(s: seq<T>, x: T, m: T -> nat)
    ensures Sum(s + [x], m) == Sum(s, m) + m(x)
  {
    SumConcat(s, [x], m);
  }

  lemma FetchAtLink(l: Link, i: nat, j: Job)
    requires i < |l.sessions| && l.sessions[i] == Free && l.gReq != []
    ensures AtLink(l.(sessions := l.sessions[i := Fetching(l.gReq[0])], gReq := l.gReq[1..]), j) == AtLink(l, j)
  {
    SumUpdate(l.sessions, i, Fetching(l.gReq[0]), InSession(j));
  }

  lemma ReadBodyAtLink(l: Link, i: nat, j: Job)
    requires i < |l.sessions| && l.sessions[i].Fetching?
    ensures AtLink(l.(sessions := l.sessions[i := Answering(l.sessions[i].job)]), j) == AtLink(l, j)
  {
    SumUpdate(l.sessions, i, Answering(l.sessions[i].job), InSession(j));
  }

  lemma ReplyAtLink(l: Link, i: nat, j: Job)
    requires i < |l.sessions| && l.sessions[i].Answering?
    ensures AtLink(l.(sessions := l.sessions[i := Free], gRsp := l.gRsp + [l.sessions[i].job]), j) == AtLink(l, j)
  {
    SumUpdate(l.sessions, i, Free, InSession(j));
    SumLast(l.gRsp, l.sessions[i].job, IsJob(j));
  }

  // No hop loses, duplicates or alters a request: in particular a response is
  // delivered as the answer of the very server and group that were asked.
  lemma HopKeepsRequests(n: Net, e: Hop, q: Request)
    requires CanHop(n, e)
    ensures OnTheWay(Hopped(n, e), q) == OnTheWay(n, q)
  {
    match e {
      case Send =>
        var l := n.links[n.dispatcher.q.server];
        SumLast(l.gReq, AsJob(n.dispatcher.q), IsJob(AsJob(q)));
      case Fetch(s, i) => FetchAtLink(n.links[s], i, AsJob(q));
      case ReadBody(s, i) => ReadBodyAtLink(n.links[s], i, AsJob(q));
      case Reply(s, i) => ReplyAtLink(n.links[s], i, AsJob(q));
      case Forward(s) => SumLast(n.grabRsp, AsRequest(s, n.links[s].aggregator.value), IsRequest(q));
      case _ =>
    }
  }

  // ---- How far everything still has to go ----

  function SessionHops(x: Session): nat {
    match x
    case Free => 0
    case Fetching(_) => 6
    case Answering(_) => 5
  }

  function LinkHops(l: Link): nat {
    7 * |l.gReq| + Sum(l.sessions, SessionHops) + 4 * |l.gRsp| + if l.aggregator.Some? then 3 else 0
  }

  function DispatcherHops(d: Dispatcher): nat {
    match d
    case Sending(_) => 8
    case DispatchSignals => 1
    case _ => 0
  }

  function ResponderHops(r: Responder): nat {
    match r
    case Handling(_) => 1
    case Requeueing(_) => 4
    case RespondSignals => 1
    case Listening => 0
  }

  // A segment to enqueue has a hop more to go than one in the queue's channel, and
  // a file takes two of its own.
  function FilesHops(files: seq<seq<Ref>>): nat {
    if files == [] then 0 else 2 + 4 * |files[0]| + FilesHops(files[1..])
  }

  function CallerHops(c: Caller): nat {
    match c
    case Away => 0
    case Entering(files, _) => 1 + FilesHops(files)
    case Enqueueing(refs, files, _) => 2 + 4 * |refs| + FilesHops(files)
  }

  function Hops(n: Net): nat {
    CallerHops(n.caller) + 3 * |n.qIn| + 2 * |n.b| + |n.qOut| + DispatcherHops(n.dispatcher)
    + Sum(n.links, LinkHops) + 2 * |n.grabRsp| + ResponderHops(n.responder)
  }

  lemma SessionShrinks(l: Link, i: nat, x: Session)
    requires i < |l.sessions|
    ensures Sum(l.sessions[i := x], SessionHops)
         == Sum(l.sessions, SessionHops) - SessionHops(l.sessions[i]) + SessionHops(x)
  {
    SumUpdate(l.sessions, i, x, SessionHops);
  }

  // Hops of and to a server's sessions.
  lemma ServerHopsShrink(n: Net, e: Hop)
    requires CanHop(n, e) && (e.Fetch? || e.ReadBody? || e.Reply?)
    ensures Hops(Hopped(n, e)) < Hops(n)
  {
    var l, l' := n.links[e.s], Hopped(n, e).links[e.s];
    SessionShrinks(l, e.i, l'.sessions[e.i]);
    LinkShrinks(n, e.s, l');
  }

  lemma HopsShrink(n: Net, e: Hop)
    requires CanHop(n, e)
    ensures Hops(Hopped(n, e)) < Hops(n)
  {
    match e {
      case Send => LinkShrinks(n, n.dispatcher.q.server, Hopped(n, e).links[n.dispatcher.q.server]);
      case Fetch(_, _) => ServerHopsShrink(n, e);
      case ReadBody(_, _) => ServerHopsShrink(n, e);
      case Reply(_, _) => ServerHopsShrink(n, e);
      case Collect(s) => LinkShrinks(n, s, Hopped(n, e).links[s]);
      case Forward(s) => LinkShrinks(n, s, Hopped(n, e).links[s]);
      case _ =>
    }
  }

  lemma LinkShrinks(n: Net, s: nat, l: Link)
    requires s < |n.links|
    ensures Sum(n.links[s := l], LinkHops) == Sum(n.links, LinkHops) - LinkHops(n.links[s]) + LinkHops(l)
  {
    SumUpdate(n.links, s, l, LinkHops);
  }

  // ---- Where it can stop ----

  ghost predicate EmptyLink(l: Link) {
    l.gReq == [] && l.gRsp == [] && l.aggregator == None && forall i :: 0 <= i < |l.sessions| ==> l.sessions[i] == Free
  }

  // No goroutine holds anything and no channel has anything in it.
  ghost predicate Idle(n: Net) {
    && n.caller == Away && n.qIn == [] && n.b == [] && n.qOut == [] && n.dispatcher == Waiting
    && (forall s :: 0 <= s < |n.links| ==> EmptyLink(n.links[s]))
    && n.grabRsp == [] && n.responder == Listening
  }

  // A goroutine waits only for the outcome of a dispatch that no lock holds up, or
  // of a response.
  ghost predicate Outside(n: Net) {
    (n.dispatcher.Holding? && !Locked(n.caller)) || n.responder.Handling?
  }

  // Every server has a session, and a request being sent goes to one of them.
  ghost predicate Connected(n: Net) {
    && (forall s :: 0 <= s < |n.links| ==> n.links[s].sessions != [])
    && (n.dispatcher.Sending? ==> n.dispatcher.q.server < |n.links|)
  }

  lemma SomeCapacity(n: Net, s: nat)
    requires Connected(n) && s < |n.links|
    ensures Sum(n.links, Capacity) > 0
  {
    SumAtLeast(n.links, s, Capacity);
  }

  lemma LinkProgress(n: Net, s: nat) returns (e: Hop)
    requires Connected(n) && s < |n.links| && !EmptyLink(n.links[s]) && n.grabRsp == []
    ensures CanHop(n, e)
  {
    var l := n.links[s];
    SomeCapacity(n, s);
    if l.aggregator.Some? {
      e := Forward(s);
    } else if l.gRsp != [] {
      e := Collect(s);
    } else if i :| 0 <= i < |l.sessions| && l.sessions[i] != Free {
      e := if l.sessions[i].Answering? then Reply(s, i) else ReadBody(s, i);
    } else {
      e := Fetch(s, 0);
    }
  }

  // Whatever is full, something can move: the cycle from the dispatcher through
  // the servers back to the queue cannot block, since the pump always drains
  // the channel into it. Nor can a call, even one that keeps the dispatcher waiting
  // for the grabber's lock while it waits itself for room in the queue.
  lemma NeverStuck(n: Net) returns (e: Hop)
    requires Connected(n) && !Idle(n) && !Outside(n)
    ensures CanHop(n, e)
  {
    if Signalling(n) {
      e := Signalled;
    } else if n.caller.Entering? {
      e := Enter;
    } else if n.caller.Enqueueing? {
      e := if n.caller.refs == [] || |n.qIn| < QUEUE_SIZE then Call else PumpIn;
    } else if n.responder.Requeueing? {
      e := if |n.qIn| < QUEUE_SIZE then Requeue else PumpIn;
    } else if n.grabRsp != [] {
      e := Receive;
    } else if s: nat :| s < |n.links| && !EmptyLink(n.links[s]) {
      e := LinkProgress(n, s);
    } else if n.dispatcher.Sending? {
      assert EmptyLink(n.links[n.dispatcher.q.server]);
      e := Send;
    } else if n.qOut != [] {
      e := Take;
    } else if n.b != [] {
      e := PumpOut;
    } else {
      e := PumpIn;
    }
  }

  // ---- The pump as its loop ----

  class Pump {
    var qIn: seq<Ref>
    var b: seq<Ref>
    var qOut: seq<Ref>

    ghost predicate Valid()
      reads this
    {
      |qIn| <= QUEUE_SIZE && |qOut| <= QUEUE_SIZE
    }

    // Everything queued, in order.
    function Contents(): seq<Ref>
      reads this
    {
      qOut + (b + qIn)
    }

    constructor ()
      ensures Valid() && Contents() == []
    {
      qIn, b, qOut := [], [], [];
    }

    method Enqueue(r: Ref)
      requires Valid() && |qIn| < QUEUE_SIZE
      modifies this
      ensures Valid() && Contents() == old(Contents()) + [r]
    {
      qIn := qIn + [r];
    }

    // One turn of the loop: take what has come in, if anything has, then pass on
    // the oldest, if there is room. Afterwards there is room to enqueue.
    method Turn()
      requires Valid()
      modifies this
      ensures Valid() && Contents() == old(Contents())
      ensures |qIn| < QUEUE_SIZE
      ensures old(Contents()) != [] ==> qOut != []
    {
      if qIn != [] {
        assert b + qIn == (b + [qIn[0]]) + qIn[1..];
        b, qIn := b + [qIn[0]], qIn[1..];
      }
      if |b| == 0 { return; }
      if |qOut| < QUEUE_SIZE {
        assert qOut + (b + qIn) == (qOut + [b[0]]) + (b[1..] + qIn);
        qOut, b := qOut + [b[0]], b[1..];
      }
    }

    method Next() returns (r: Ref)
      requires Valid() && qOut != []
      modifies this
      ensures Valid() && old(Contents()) == [r] + Contents()
    {
      assert qOut + (b + qIn) == [qOut[0]] + (qOut[1..] + (b + qIn));
      r := qOut[0];
      qOut := qOut[1..];
    }
  }
}
