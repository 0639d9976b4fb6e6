// A session's memory of the group it has selected, beside the server's own.
module NntpSession {
  // A group named by the session while the server has this one selected.
  datatype Sent = Sent(group: string, selected: string)

  // `currentGroup` is what the session remembers, `selected` what the server has
  // selected on its connection, the empty string for none. `groups` is every GROUP
  // sent, and `bodies` every BODY with the group it was requested for.
  datatype State = State(
    connected: bool, currentGroup: string, selected: string, groups: seq<Sent>, bodies: seq<Sent>)

  const START: State := State(false, "", "", [], [])

  // What can happen to a session, with the server's answers.
  datatype Event =
    | Connect(ok: bool)
    | WriteArticleBody(group: string, groupOK: bool)
    | Quit

  function Select(s: State, group: string, ok: bool): (State, bool) {
    if group == "" || s.currentGroup == group then (s, true)
    // A GROUP that fails leaves the selection as it was (section 6.1.1 of RFC 3977).
    else
      var s1 := s.(groups := s.groups + [Sent(group, s.selected)]);
      if !ok then (s1, false) else (s1.(currentGroup := group, selected := group), true)
  }

  function Step(s: State, e: Event): State {
    match e
    case Connect(ok) => if ok then s.(connected := true, selected := "") else s
    case WriteArticleBody(group, ok) =>
      var (s1, chosen) := Select(s, group, ok);
      if chosen then s1.(bodies := s1.bodies + [Sent(group, s1.selected)]) else s1
    case Quit => s.(connected := false, currentGroup := "", selected := "")
  }

  // The session remembers rightly, every BODY for a named group was sent in that
  // group, and the server was only ever asked for another, named group.
  ghost predicate Coherent(s: State) {
    && s.currentGroup == s.selected
    && (forall b :: b in s.bodies && b.group != "" ==> b.selected == b.group)
    && forall g :: g in s.groups ==> g.group != "" && g.group != g.selected
  }

  // One event keeps the two in step, except that connecting again does so
  // exactly when no group is remembered: Connect does not forget it.
  lemma StepCoherent(s: State, e: Event)
    requires Coherent(s)
    ensures Coherent(Step(s, e)) <==> !(e == Connect(true) && s.currentGroup != "")
  {
  }

  ghost predicate Runs(s: State, es: seq<Event>, s': State)
    decreases |es|
  {
    if es == [] then s' == s
    else !(es[0] == Connect(true) && s.currentGroup != "") && Runs(Step(s, es[0]), es[1..], s')
  }

  // Every BODY for a named group is sent while the server has that group selected,
  // and no GROUP is sent for the one that is.
  lemma {:induction false} BodiesRunInTheirGroup(s: State, es: seq<Event>, s': State)
    requires Coherent(s) && Runs(s, es, s')
    ensures Coherent(s')
    decreases |es|
  {
    if es != [] {
      StepCoherent(s, es[0]);
      BodiesRunInTheirGroup(Step(s, es[0]), es[1..], s');
    }
  }

  // ---- What a run of events has sent ----

  // The state after these events, the last of them last.
  function After(es: seq<Event>): State {
    if es == [] then START else Step(After(es[..|es| - 1]), es[|es| - 1])
  }

  // The next three are read off the events alone, the latest event first. A call is
  // for an article of a group; it asks for the group if that one is named and not
  // the remembered one, and fails if the server then refuses it.
  predicate AsksGroup(before: seq<Event>, e: Event) {
    e.WriteArticleBody? && e.group != "" && e.group != Remembered(before)
  }

  predicate Fails(before: seq<Event>, e: Event) {
    AsksGroup(before, e) && !e.groupOK
  }

  // The group of the latest call that asked for one and was not refused, unless
  // the session has quit since.
  function Remembered(es: seq<Event>): string
    decreases |es|, 0
  {
    if es == [] then ""
    else
      var before, last := es[..|es| - 1], es[|es| - 1];
      if last.Quit? then ""
      else if last.WriteArticleBody? && last.group != "" && last.groupOK then last.group
      else Remembered(before)
  }

  // The group of every call that did not fail, in order.
  function Fetched(es: seq<Event>): seq<string> {
    if es == [] then []
    else
      var before, last := es[..|es| - 1], es[|es| - 1];
      Fetched(before) + if last.WriteArticleBody? && !Fails(before, last) then [last.group] else []
  }

  // The group of every call that asked for one, in order.
  function Requested(es: seq<Event>): seq<string> {
    if es == [] then []
    else
      var before, last := es[..|es| - 1], es[|es| - 1];
      Requested(before) + if AsksGroup(before, last) then [last.group] else []
  }

  function GroupsOf(sent: seq<Sent>): seq<string> {
    seq(|sent|, i requires 0 <= i < |sent| => sent[i].group)
  }

  // One more event: a call sends one BODY, for its group, exactly when it does not
  // fail, and one GROUP exactly when it asks for another, named group.
  lemma CallSends(es: seq<Event>, e: Event)
    requires After(es).currentGroup == Remembered(es)
    ensures var s, s' := After(es), After(es + [e]);
            && s'.currentGroup == Remembered(es + [e])
            && GroupsOf(s'.bodies)
                 == GroupsOf(s.bodies) + (if e.WriteArticleBody? && !Fails(es, e) then [e.group] else [])
            && GroupsOf(s'.groups) == GroupsOf(s.groups) + (if AsksGroup(es, e) then [e.group] else [])
  {
    assert (es + [e])[..|es|] == es;
  }

  // Over any run, reconnections included, the BODYs sent are those of the calls
  // that did not fail, the GROUPs sent those of the calls that asked for another
  // group, both in order, and the group remembered is the latest one selected.
  lemma {:induction false} RunSends(es: seq<Event>)
    ensures After(es).currentGroup == Remembered(es)
    ensures GroupsOf(After(es).bodies) == Fetched(es)
    ensures GroupsOf(After(es).groups) == Requested(es)
    decreases |es|
  {
    if es != [] {
      var before, last := es[..|es| - 1], es[|es| - 1];
      RunSends(before);
      assert before + [last] == es;
      CallSends(before, last);
    }
  }

  class Session {
    var connected: bool
    var currentGroup: string
    ghost var selected: string
    ghost var groups: seq<Sent>
    ghost var bodies: seq<Sent>

    ghost function View(): State
      reads this
    {
      State(connected, currentGroup, selected, groups, bodies)
    }

    constructor ()
      ensures View() == START
      ensures !connected && currentGroup == "" && selected == "" && groups == [] && bodies == []
    {
      connected, currentGroup, selected, groups, bodies := false, "", "", [], [];
    }

    // `ok` is the dialler's answer.
    method Connect(ok: bool) returns (failed: bool)
      modifies this
      ensures View() == Step(old(View()), Event.Connect(ok)) && failed == !ok
      ensures connected == (ok || old(connected)) && selected == if ok then "" else old(selected)
      ensures unchanged(`currentGroup, `groups, `bodies)
    {
      if !ok { return true; }
      selected := "";
      connected := true;
      return false;
    }

    // `ok` is the server's answer, should it be asked.
    method SelectGroup(g: string, ok: bool) returns (failed: bool)
      modifies this
      ensures (View(), !failed) == Select(old(View()), g, ok)
      ensures failed <==> g != "" && g != old(currentGroup) && !ok
      ensures groups == old(groups) + if g != "" && g != old(currentGroup) then [Sent(g, old(selected))] else []
      ensures currentGroup == if g == "" || failed then old(currentGroup) else g
      ensures selected == if g == "" || g == old(currentGroup) || failed then old(selected) else g
      ensures unchanged(`connected, `bodies)
    {
      if g == "" { return false; }
      if currentGroup == g { return false; }
      groups := groups + [Sent(g, selected)];
      if !ok { return true; }
      selected := g;
      currentGroup := g;
      return false;
    }

    // The call fails if and only if its group is named, not the remembered one, and
    // refused. If it does not, it sends one BODY, for that group.
    method WriteArticleBody(group: string, ok: bool) returns (failed: bool)
      modifies this
      ensures View() == Step(old(View()), Event.WriteArticleBody(group, ok))
      ensures failed <==> group != "" && group != old(currentGroup) && !ok
      ensures bodies == old(bodies) + if failed then [] else [Sent(group, selected)]
      ensures groups == old(groups) + if group == "" || group == old(currentGroup) then []
                                      else [Sent(group, old(selected))]
      ensures currentGroup == if group == "" || failed then old(currentGroup) else group
      ensures selected == if group == "" || group == old(currentGroup) || failed then old(selected) else group
      ensures unchanged(`connected)
    {
      failed := SelectGroup(group, ok);
      if failed { return; }
      bodies := bodies + [Sent(group, selected)];
    }

    method Quit()
      modifies this
      ensures View() == Step(old(View()), Event.Quit)
      ensures !connected && currentGroup == "" && selected == "" && unchanged(`groups, `bodies)
    {
      connected := false;
      currentGroup := "";
      selected := "";
    }
  }
}
