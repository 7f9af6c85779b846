/**
 * What becomes of a modify request (pkg/driver/controller_modify_volume.go): which handlers can
 * still execute, which requesters can still be taken and which can still be answered. All three
 * turn on one defect: a refusal waits for its requester, and a requester whose context ends first
 * never comes.
 */
module CoalescingOutcome {
  import opened ModifyRequests
  import opened CoalescingProtocol

  // A handler that is refusing a requester that has given up.
  predicate Stuck(s: State, h: Hid) {
    Handler?(s, h) && s.handlers[h].phase.Refusing? &&
    Request?(s, s.handlers[h].phase.r) && s.requests[s.handlers[h].phase.r].phase.GaveUp?
  }

  predicate Executed(s: State, h: Hid) {
    Handler?(s, h) && s.handlers[h].executed != []
  }

  // ----- Continuations of a run -----

  function After(s: State, more: seq<Event>): State
    decreases |more|
  {
    if more == [] then s else After(Next(s, more[0]), more[1..])
  }

  lemma AfterOne(s: State, e: Event, more: seq<Event>)
    ensures After(s, [e] + more) == After(Next(s, e), more)
  {
    assert ([e] + more)[1..] == more;
  }

  lemma Regroup(events: seq<Event>, more: seq<Event>)
    requires more != []
    ensures events + more == (events + [more[0]]) + more[1..]
  {
  }

  lemma {:induction false} RunAfter(events: seq<Event>, more: seq<Event>)
    ensures Run(events + more) == After(Run(events), more)
    decreases |more|
  {
    if more == [] {
      assert events + more == events;
    } else {
      RunOne(events, more[0]);
      RunAfter(events + [more[0]], more[1..]);
      Regroup(events, more);
    }
  }

  // ----- A refusal waits for a requester that listens or has given up -----

  predicate RefusalOk(s: State, h: Hid) {
    Handler?(s, h) && s.handlers[h].phase.Refusing? && Request?(s, s.handlers[h].phase.r) ==>
      !s.requests[s.handlers[h].phase.r].phase.Answered?
  }

  // A rejected requester that listens is the one its handler is refusing.
  predicate ListenerOk(s: State, r: Rid) {
    Request?(s, r) && s.requests[r].phase == Listening && s.requests[r].place.RejectedBy? ==>
      Handler?(s, s.requests[r].place.h) && s.handlers[s.requests[r].place.h].phase.Refusing? &&
      s.handlers[s.requests[r].place.h].phase.r == r
  }

  ghost predicate Good(s: State) {
    Inv(s) && (forall h :: Handler?(s, h) ==> RefusalOk(s, h)) && (forall r :: Request?(s, r) ==> ListenerOk(s, r))
  }

  // Whom a handler is refusing.
  lemma RefusedRequester(s: State, h: Hid)
    requires Inv(s) && Handler?(s, h) && s.handlers[h].phase.Refusing?
    ensures var r := s.handlers[h].phase.r;
            Request?(s, r) && s.requests[r].place.RejectedBy? && s.requests[r].place.h == h
  {
    assert PhaseOk(s, h) && ListsOk(s, h);
    assert RejectedOk(s, h, |s.handlers[h].rejected| - 1);
  }

  // A requester that is answered in this step was being refused or had been accepted.
  lemma AnswerStep(s: State, e: Event, r: Rid)
    requires Inv(s) && Request?(s, r) && Request?(Next(s, e), r)
    requires !s.requests[r].phase.Answered? && Next(s, e).requests[r].phase.Answered?
    ensures s.requests[r].place.AcceptedBy? ||
            (e.Refuse? && Handler?(s, e.h) && s.handlers[e.h].phase.Refusing? && s.handlers[e.h].phase.r == r)
  {
    if e.Respond? {
      assert ListsOk(s, e.h);
      assert AcceptedOk(s, e.h, s.handlers[e.h].phase.i);
    }
  }

  // A refusal that starts in this step has just received its requester.
  lemma RefusalStarts(s: State, e: Event, h: Hid)
    requires Handler?(s, h) && Handler?(Next(s, e), h)
    requires Next(s, e).handlers[h].phase.Refusing? && s.handlers[h].phase != Next(s, e).handlers[h].phase
    ensures e.Receive? && e.h == h && Next(s, e).handlers[h].phase.r == e.r
    ensures Request?(Next(s, e), e.r) && Next(s, e).requests[e.r].phase == Listening
  {
  }

  lemma RefusalStays(s: State, e: Event, h: Hid)
    requires Good(s) && Handler?(s, h) && s.handlers[h].phase.Refusing?
    requires Handler?(Next(s, e), h) && Next(s, e).handlers[h].phase == s.handlers[h].phase
    ensures RefusalOk(Next(s, e), h)
  {
    var r := s.handlers[h].phase.r;
    RefusedRequester(s, h);
    assert RefusalOk(s, h);
    RequestStep(s, e, r);
    if Next(s, e).requests[r].phase.Answered? {
      AnswerStep(s, e, r);
      RefusedRequester(s, e.h);
    }
  }

  lemma RefusalKept(s: State, e: Event, h: Hid)
    requires Good(s) && Handler?(Next(s, e), h)
    ensures RefusalOk(Next(s, e), h)
  {
    if Next(s, e).handlers[h].phase.Refusing? && Handler?(s, h) {
      if s.handlers[h].phase == Next(s, e).handlers[h].phase {
        RefusalStays(s, e, h);
      } else {
        RefusalStarts(s, e, h);
      }
    }
  }

  // A handler that is refusing goes on only with the refusal, which answers its requester.
  lemma RefusingStep(s: State, e: Event, h: Hid)
    requires Handler?(s, h) && s.handlers[h].phase.Refusing? && Request?(s, s.handlers[h].phase.r)
    ensures Handler?(Next(s, e), h)
    ensures Next(s, e).handlers[h] == s.handlers[h] ||
            (Request?(Next(s, e), s.handlers[h].phase.r) &&
             Next(s, e).requests[s.handlers[h].phase.r].phase == Answered(Refused(h)))
  {
  }

  // A requester that listens after a step and has been rejected listened before, or is received.
  lemma ListenerStep(s: State, e: Event, r: Rid)
    requires Inv(s) && Request?(Next(s, e), r)
    requires Next(s, e).requests[r].phase == Listening && Next(s, e).requests[r].place.RejectedBy?
    ensures Request?(s, r)
    ensures s.requests[r] == Next(s, e).requests[r] || ListenerOk(Next(s, e), r)
  {
    if Request?(s, r) {
      assert RequestOk(s, r);
    }
  }

  lemma ListenerKept(s: State, e: Event, r: Rid)
    requires Good(s) && Request?(Next(s, e), r)
    ensures ListenerOk(Next(s, e), r)
  {
    var q := Next(s, e).requests[r];
    if q.phase == Listening && q.place.RejectedBy? {
      ListenerStep(s, e, r);
      if s.requests[r] == q {
        assert ListenerOk(s, r);
        RefusingStep(s, e, q.place.h);
      }
    }
  }

  lemma NextKeepsGood(s: State, e: Event)
    requires Good(s)
    ensures Good(Next(s, e))
  {
    NextKeepsInv(s, e);
    forall r | Request?(Next(s, e), r)
      ensures ListenerOk(Next(s, e), r)
    {
      ListenerKept(s, e, r);
    }
    forall h | Handler?(Next(s, e), h)
      ensures RefusalOk(Next(s, e), h)
    {
      RefusalKept(s, e, h);
    }
  }

  lemma {:induction false} RunIsGood(events: seq<Event>)
    ensures Good(Run(events))
  {
    if events != [] {
      RunIsGood(events[..|events| - 1]);
      NextKeepsGood(Run(events[..|events| - 1]), events[|events| - 1]);
    }
  }

  // ----- Which handlers execute -----

  // A step a handler takes by itself, given the senders that are waiting for it.
  predicate OwnStep(h: Hid, e: Event) {
    (e.Receive? || e.Refuse? || e.Timeout? || e.Execute?) && e.h == h
  }

  predicate OwnSteps(h: Hid, more: seq<Event>) {
    forall i :: 0 <= i < |more| ==> OwnStep(h, more[i])
  }

  function Senders(s: State, h: Hid): set<Rid> {
    set r | 0 <= r < |s.requests| && s.requests[r].phase == Sending(h)
  }

  function Rank(phase: Phase): nat {
    match phase
    case Refusing(_, draining) => if draining then 2 else 4
    case Running => 3
    case Draining => 1
    case Answering(_) => 0
  }

  // A refusal its requester is there for, and a timeout, bring a handler closer to its end.
  lemma RefuseAdvances(s: State, h: Hid)
    requires Good(s) && Handler?(s, h) && s.handlers[h].phase.Refusing? && !Stuck(s, h)
    ensures var s' := Next(s, Refuse(h));
            && Handler?(s', h) && s'.handlers[h].phase == (if s.handlers[h].phase.draining then Draining else Running)
            && Senders(s', h) == Senders(s, h)
  {
    var r := s.handlers[h].phase.r;
    RefusedRequester(s, h);
    assert RefusalOk(s, h) && RequestOk(s, r);
    assert s.requests[r].phase == Listening;
  }

  lemma TimeoutAdvances(s: State, h: Hid)
    requires Handler?(s, h) && s.handlers[h].phase.Running?
    ensures var s' := Next(s, Timeout(h));
            Handler?(s', h) && s'.handlers[h].phase.Draining? && Senders(s', h) == Senders(s, h)
  {
  }

  lemma ReceiveAdvances(s: State, h: Hid, r: Rid)
    requires Handler?(s, h) && (s.handlers[h].phase.Running? || s.handlers[h].phase.Draining?) && r in Senders(s, h)
    ensures var s' := Next(s, Receive(h, r));
            && Handler?(s', h) && Request?(s', r) && s'.requests[r].phase == Listening && !s'.requests[r].place.Nowhere?
            && (s'.handlers[h].phase == s.handlers[h].phase ||
                s'.handlers[h].phase == Refusing(r, s.handlers[h].phase.Draining?))
            && Senders(s', h) == Senders(s, h) - {r}
  {
  }

  // Every handler that is not stuck executes after finitely many steps of its own.
  lemma {:induction false} Executes(s: State, h: Hid) returns (more: seq<Event>)
    requires Good(s) && Handler?(s, h) && !Stuck(s, h)
    ensures OwnSteps(h, more) && Executed(After(s, more), h)
    ensures s.handlers[h].phase.Answering? ==> more == []
    ensures !s.handlers[h].phase.Answering? ==> After(s, more).handlers[h].phase == Answering(0)
    decreases |Senders(s, h)|, Rank(s.handlers[h].phase)
  {
    assert PhaseOk(s, h);
    var e: Event;
    match s.handlers[h].phase {
      case Answering(_) =>
        return [];
      case Refusing(_, _) =>
        e := Refuse(h);
        RefuseAdvances(s, h);
      case Running =>
        e := Timeout(h);
        TimeoutAdvances(s, h);
      case Draining =>
        if Senders(s, h) == {} {
          e := Execute(h);
          NobodySends(s, h);
        } else {
          var r :| r in Senders(s, h);
          e := Receive(h, r);
          ReceiveAdvances(s, h, r);
        }
    }
    NextKeepsGood(s, e);
    more := Executes(Next(s, e), h);
    AfterOne(s, e, more);
    more := [e] + more;
  }

  lemma NobodySends(s: State, h: Hid)
    requires Handler?(s, h) && s.handlers[h].phase.Draining? && Senders(s, h) == {}
    ensures var s' := Next(s, Execute(h));
            Handler?(s', h) && s'.handlers[h].phase == Answering(0) && Senders(s', h) == {}
  {
    forall r | 0 <= r < |s.requests|
      ensures s.requests[r].phase != Sending(h)
    {
      assert r !in Senders(s, h);
    }
  }

  lemma StuckStays(s: State, e: Event, h: Hid)
    requires Stuck(s, h)
    ensures Stuck(Next(s, e), h) && Next(s, e).handlers[h] == s.handlers[h]
  {
    RequestStep(s, e, s.handlers[h].phase.r);
  }

  lemma {:induction false} StuckForever(s: State, h: Hid, more: seq<Event>)
    requires Good(s) && Stuck(s, h)
    ensures Good(After(s, more)) && Stuck(After(s, more), h) && After(s, more).handlers[h] == s.handlers[h]
    decreases |more|
  {
    if more != [] {
      NextKeepsGood(s, more[0]);
      StuckStays(s, more[0], h);
      StuckForever(Next(s, more[0]), h, more[1..]);
    }
  }

  // A handler gets to execute exactly if it is not stuck: then its own steps take it there, and
  // a stuck one executes in no continuation of the run at all.
  lemma ExecutesUnlessStuck(events: seq<Event>, h: Hid)
    requires Handler?(Run(events), h)
    ensures (exists more :: OwnSteps(h, more) && Executed(Run(events + more), h)) <==> !Stuck(Run(events), h)
    ensures (exists more :: Executed(Run(events + more), h)) <==> !Stuck(Run(events), h)
  {
    RunIsGood(events);
    if Stuck(Run(events), h) {
      forall more
        ensures !Executed(Run(events + more), h)
      {
        StuckNeverExecutes(events, h, more);
      }
    } else {
      var more := Executes(Run(events), h);
      RunAfter(events, more);
      assert Executed(Run(events + more), h);
    }
  }

  // A stuck handler stays what it is. If its time is not up it also stays in the map, so that
  // every later request for its volume finds it.
  lemma StuckNeverExecutes(events: seq<Event>, h: Hid, more: seq<Event>)
    requires Stuck(Run(events), h)
    ensures var x, s' := Run(events).handlers[h], Run(events + more);
            && Stuck(s', h) && s'.handlers[h] == x && x.executed == []
            && (!x.phase.draining ==> x.volume in s'.registered && s'.registered[x.volume] == h)
  {
    RunIsGood(events);
    RunAfter(events, more);
    StuckForever(Run(events), h, more);
    assert PhaseOk(Run(events + more), h);
  }

  // ----- Which requesters are taken -----

  // The requester has found h and has not been received.
  predicate Pending(s: State, r: Rid, h: Hid) {
    Request?(s, r) && (s.requests[r].phase == Found(h) || s.requests[r].phase == Sending(h))
  }

  predicate Taken(s: State, r: Rid) {
    Request?(s, r) && !s.requests[r].place.Nowhere?
  }

  // The handler receives nobody any more.
  predicate Deaf(s: State, h: Hid) {
    Handler?(s, h) && (s.handlers[h].phase.Answering? || Stuck(s, h))
  }

  lemma DeafStays(s: State, e: Event, r: Rid, h: Hid)
    requires Good(s) && Deaf(s, h) && Pending(s, r, h)
    ensures Deaf(Next(s, e), h) && Pending(Next(s, e), r, h)
  {
    assert RequestOk(s, r);
    RequestStep(s, e, r);
    HandlerStep(s, e, h);
    if Stuck(s, h) {
      StuckStays(s, e, h);
    }
  }

  lemma {:induction false} DeafForever(s: State, r: Rid, h: Hid, more: seq<Event>)
    requires Good(s) && Deaf(s, h) && Pending(s, r, h)
    ensures Good(After(s, more)) && Deaf(After(s, more), h) && Pending(After(s, more), r, h)
    decreases |more|
  {
    if more != [] {
      NextKeepsGood(s, more[0]);
      DeafStays(s, more[0], r, h);
      DeafForever(Next(s, more[0]), r, h, more[1..]);
    }
  }

  // Refuse if need be, send if need be, receive; a step that does not apply does nothing.
  lemma TakesIt(s: State, r: Rid, h: Hid)
    requires Good(s) && Pending(s, r, h) && !Deaf(s, h)
    ensures Taken(After(s, [Refuse(h), StartSend(r), Receive(h, r)]), r)
  {
    var s1 := Next(s, Refuse(h));
    var s2 := Next(s1, StartSend(r));
    assert RequestOk(s, r);
    FreeToReceive(s, r, h);
    Sends(s1, r, h);
    ReceiveAdvances(s2, h, r);
    AfterOne(s, Refuse(h), [StartSend(r), Receive(h, r)]);
    AfterOne(s1, StartSend(r), [Receive(h, r)]);
    AfterOne(s2, Receive(h, r), []);
    assert [Refuse(h)] + [StartSend(r), Receive(h, r)] == [Refuse(h), StartSend(r), Receive(h, r)];
    assert [StartSend(r)] + [Receive(h, r)] == [StartSend(r), Receive(h, r)];
    assert [Receive(h, r)] + [] == [Receive(h, r)];
  }

  lemma Sends(s: State, r: Rid, h: Hid)
    requires Pending(s, r, h)
    ensures var s' := Next(s, StartSend(r)); s'.handlers == s.handlers && r in Senders(s', h)
  {
  }

  // A refusal its requester is there for leaves the handler receiving, and others pending.
  lemma FreeToReceive(s: State, r: Rid, h: Hid)
    requires Good(s) && Pending(s, r, h) && Handler?(s, h) && !Deaf(s, h)
    ensures var s' := Next(s, Refuse(h));
            Pending(s', r, h) && Handler?(s', h) && (s'.handlers[h].phase.Running? || s'.handlers[h].phase.Draining?)
  {
    if s.handlers[h].phase.Refusing? {
      RefuseAdvances(s, h);
      RefusedRequester(s, h);
      assert RequestOk(s, s.handlers[h].phase.r) && RequestOk(s, r);
    }
  }

  // A requester that has found its handler is taken in some continuation of the run exactly if
  // the handler has neither executed nor got stuck; otherwise it waits for ever.
  lemma TakenUnlessDeaf(events: seq<Event>, r: Rid, h: Hid)
    requires Pending(Run(events), r, h)
    ensures (exists more :: Taken(Run(events + more), r)) <==> !Deaf(Run(events), h)
    ensures Deaf(Run(events), h) ==> forall more :: Pending(Run(events + more), r, h)
  {
    var s := Run(events);
    RunIsGood(events);
    if Deaf(s, h) {
      forall more
        ensures Pending(Run(events + more), r, h) && !Taken(Run(events + more), r)
      {
        RunAfter(events, more);
        DeafForever(s, r, h, more);
        assert RequestOk(Run(events + more), r);
      }
    } else {
      var more := [Refuse(h), StartSend(r), Receive(h, r)];
      TakesIt(s, r, h);
      RunAfter(events, more);
      assert Taken(Run(events + more), r);
    }
  }

  // ----- Which requesters are answered -----

  predicate Served(s: State, r: Rid) {
    Request?(s, r) && s.requests[r].phase.Answered?
  }

  // The handler that accepted a requester is not stuck, and has not passed it in its answers. A
  // rejected requester that listens is being refused.
  predicate InReach(s: State, r: Rid)
    requires Request?(s, r)
  {
    var place := s.requests[r].place;
    place.AcceptedBy? && Handler?(s, place.h) ==>
      !Stuck(s, place.h) && (s.handlers[place.h].phase.Answering? ==> s.handlers[place.h].phase.i <= place.i)
  }

  lemma {:induction false} AfterIsGood(s: State, more: seq<Event>)
    requires Good(s)
    ensures Good(After(s, more))
    decreases |more|
  {
    if more != [] {
      NextKeepsGood(s, more[0]);
      AfterIsGood(Next(s, more[0]), more[1..]);
    }
  }

  // A handler's own way to its execution leaves whom it has accepted listening.
  lemma OwnStepKeepsAccepted(s: State, h: Hid, e: Event, r: Rid)
    requires Good(s) && OwnStep(h, e)
    requires Request?(s, r) && s.requests[r].phase == Listening && s.requests[r].place.AcceptedBy?
    ensures Request?(Next(s, e), r) && Next(s, e).requests[r] == s.requests[r]
  {
    if e.Refuse? && Handler?(s, h) && s.handlers[h].phase.Refusing? {
      RefusedRequester(s, h);
    }
  }

  lemma {:induction false} OwnStepsKeepAccepted(s: State, h: Hid, more: seq<Event>, r: Rid)
    requires Good(s) && OwnSteps(h, more)
    requires Request?(s, r) && s.requests[r].phase == Listening && s.requests[r].place.AcceptedBy?
    ensures Request?(After(s, more), r) && After(s, more).requests[r] == s.requests[r]
    decreases |more|
  {
    if more != [] {
      assert OwnStep(h, more[0]);
      OwnStepKeepsAccepted(s, h, more[0], r);
      NextKeepsGood(s, more[0]);
      OwnStepsKeepAccepted(Next(s, more[0]), h, more[1..], r);
    }
  }

  // From its execution on a handler reaches every requester it has not passed.
  lemma {:induction false} Reaches(s: State, h: Hid, r: Rid) returns (more: seq<Event>)
    requires Good(s) && Handler?(s, h) && s.handlers[h].phase.Answering? && Request?(s, r)
    requires s.requests[r].phase == Listening && s.requests[r].place.AcceptedBy? && s.requests[r].place.h == h
    requires s.handlers[h].phase.i <= s.requests[r].place.i
    ensures Served(After(s, more), r)
    decreases s.requests[r].place.i - s.handlers[h].phase.i
  {
    assert RequestOk(s, r);
    var here := s.handlers[h].phase.i == s.requests[r].place.i;
    var e := Respond(h, here);
    var s' := Next(s, e);
    if here {
      AfterOne(s, e, []);
      assert [e] + [] == [e];
      return [e];
    }
    assert s'.requests == s.requests && s'.handlers[h].phase == Answering(s.handlers[h].phase.i + 1);
    NextKeepsGood(s, e);
    more := Reaches(s', h, r);
    AfterOne(s, e, more);
    more := [e] + more;
  }

  lemma Serves(s: State, r: Rid) returns (more: seq<Event>)
    requires Good(s) && Request?(s, r) && s.requests[r].phase == Listening && InReach(s, r)
    ensures Served(After(s, more), r)
  {
    var h := s.requests[r].place.h;
    assert RequestOk(s, r) && ListenerOk(s, r);
    if s.requests[r].place.RejectedBy? {
      AfterOne(s, Refuse(h), []);
      assert [Refuse(h)] + [] == [Refuse(h)];
      return [Refuse(h)];
    }
    var first := Executes(s, h);
    OwnStepsKeepAccepted(s, h, first, r);
    AfterIsGood(s, first);
    var second := Reaches(After(s, first), h, r);
    AfterBoth(s, first, second);
    more := first + second;
  }

  lemma {:induction false} AfterBoth(s: State, a: seq<Event>, b: seq<Event>)
    ensures After(s, a + b) == After(After(s, a), b)
    decreases |a|
  {
    if a == [] {
      assert a + b == b;
    } else {
      assert (a + b)[1..] == a[1..] + b;
      AfterBoth(Next(s, a[0]), a[1..], b);
    }
  }

  // Accepted, not answered, and out of its handler's reach.
  predicate Forsaken(s: State, r: Rid) {
    Request?(s, r) && (s.requests[r].phase == Listening || s.requests[r].phase == GaveUp) && !InReach(s, r)
  }

  // An accepted requester is answered by its handler alone, when it has come to its place.
  lemma AcceptedAnswerStep(s: State, e: Event, r: Rid)
    requires Inv(s) && Request?(s, r) && s.requests[r].place.AcceptedBy? && Request?(Next(s, e), r)
    requires s.requests[r].phase == Listening || s.requests[r].phase == GaveUp
    ensures Next(s, e).requests[r].place == s.requests[r].place
    ensures Next(s, e).requests[r].phase == Listening || Next(s, e).requests[r].phase == GaveUp ||
            (e.Respond? && e.h == s.requests[r].place.h && Handler?(s, e.h) && s.handlers[e.h].phase.Answering? &&
             s.handlers[e.h].phase.i == s.requests[r].place.i)
  {
    if e.Respond? && Handler?(s, e.h) && s.handlers[e.h].phase.Answering? &&
       s.handlers[e.h].phase.i < |s.handlers[e.h].accepted| {
      assert ListsOk(s, e.h);
      assert AcceptedOk(s, e.h, s.handlers[e.h].phase.i);
    } else if e.Refuse? && Handler?(s, e.h) && s.handlers[e.h].phase.Refusing? {
      RefusedRequester(s, e.h);
    }
  }

  lemma ForsakenStays(s: State, e: Event, r: Rid)
    requires Good(s) && Forsaken(s, r)
    ensures Forsaken(Next(s, e), r)
  {
    var h := s.requests[r].place.h;
    RequestStep(s, e, r);
    AcceptedAnswerStep(s, e, r);
    HandlerStep(s, e, h);
    if Stuck(s, h) {
      StuckStays(s, e, h);
    }
  }

  lemma {:induction false} ForsakenForever(s: State, r: Rid, more: seq<Event>)
    requires Good(s) && Forsaken(s, r)
    ensures Forsaken(After(s, more), r)
    decreases |more|
  {
    if more != [] {
      NextKeepsGood(s, more[0]);
      ForsakenStays(s, more[0], r);
      ForsakenForever(Next(s, more[0]), r, more[1..]);
    }
  }

  // A requester that listens is answered in some continuation of the run exactly if the handler
  // that took it is neither stuck nor past it.
  lemma ServedIffInReach(events: seq<Event>, r: Rid)
    requires Request?(Run(events), r) && Run(events).requests[r].phase == Listening
    ensures (exists more :: Served(Run(events + more), r)) <==> InReach(Run(events), r)
  {
    var s := Run(events);
    RunIsGood(events);
    if InReach(s, r) {
      var more := Serves(s, r);
      RunAfter(events, more);
      assert Served(Run(events + more), r);
    } else {
      forall more
        ensures !Served(Run(events + more), r)
      {
        RunAfter(events, more);
        ForsakenForever(s, r, more);
      }
    }
  }

  // ----- It does happen -----

  // The first two requests for a volume, of which the second has found the first one's handler.
  function TwoRequests(volume: string, a: Fields, b: Fields): State {
    State([Request(volume, a, Listening, AcceptedBy(0, 0)), Request(volume, b, Found(0), Nowhere)],
          [Handler(volume, a, [0], [], Running, [])], map[volume := 0])
  }

  lemma RunTwoRequests(volume: string, a: Fields, b: Fields)
    ensures Run([Submit(volume, a), Submit(volume, b)]) == TwoRequests(volume, a, b)
  {
    var e0, e1 := Submit(volume, a), Submit(volume, b);
    RunOne([], e0);
    assert [] + [e0] == [e0];
    var first := State([Request(volume, a, Listening, AcceptedBy(0, 0))],
                       [Handler(volume, a, [0], [], Running, [])], map[volume := 0]);
    assert Run([e0]) == first;
    RunOne([e0], e1);
    assert [e0] + [e1] == [e0, e1];
  }

  // The handler's time runs out between the second requester's lookup and its send.
  lemma SomebodyIsStranded(volume: string, a: Fields, b: Fields)
    ensures var s := Run([Submit(volume, a), Submit(volume, b)] + [Timeout(0), Execute(0)]);
            Pending(s, 1, 0) && Deaf(s, 0) && s.handlers[0].phase.Answering?
  {
    RunTwoRequests(volume, a, b);
    RunAfter([Submit(volume, a), Submit(volume, b)], [Timeout(0), Execute(0)]);
    RunsOut(TwoRequests(volume, a, b), 0);
  }

  lemma RunsOut(s: State, h: Hid)
    requires Handler?(s, h) && s.handlers[h].phase.Running? && NobodyWaits(s, h)
    ensures var s' := After(s, [Timeout(h), Execute(h)]);
            s'.requests == s.requests && Handler?(s', h) && s'.handlers[h].phase.Answering?
  {
    var s1 := Next(s, Timeout(h));
    AfterOne(s, Timeout(h), [Execute(h)]);
    AfterOne(s1, Execute(h), []);
    assert [Timeout(h)] + [Execute(h)] == [Timeout(h), Execute(h)] && [Execute(h)] + [] == [Execute(h)];
    assert s1.handlers[h].phase.Draining? && s1.requests == s.requests && NobodyWaits(s1, h);
  }

  // The second requester asks for something else, and its context ends before it is refused.
  lemma AConflictBlocksTheHandler(volume: string, a: Fields, b: Fields)
    requires Conflict(a, b)
    ensures var s := Run([Submit(volume, a), Submit(volume, b)] + [StartSend(1), Receive(0, 1), Cancel(1)]);
            Stuck(s, 0) && volume in s.registered && s.registered[volume] == 0 && NobodyWaits(s, 0)
  {
    RunTwoRequests(volume, a, b);
    RunAfter([Submit(volume, a), Submit(volume, b)], [StartSend(1), Receive(0, 1), Cancel(1)]);
    var s := TwoRequests(volume, a, b);
    var s1 := Next(s, StartSend(1));
    AfterOne(s, StartSend(1), [Receive(0, 1), Cancel(1)]);
    assert [StartSend(1)] + [Receive(0, 1), Cancel(1)] == [StartSend(1), Receive(0, 1), Cancel(1)];
    assert s1.requests[1].phase == Sending(0) && s1.handlers == s.handlers && s1.registered == s.registered;
    BlockedSender(s1, volume, a, b);
  }

  lemma BlockedSender(s: State, volume: string, a: Fields, b: Fields)
    requires Conflict(a, b) && |s.requests| == 2 && s.requests[0].phase == Listening
    requires s.requests[1] == Request(volume, b, Sending(0), Nowhere) && |s.handlers| == 1
    requires s.handlers[0].merged == a && (s.handlers[0].phase.Running? || s.handlers[0].phase.Draining?)
    ensures var s' := After(s, [Receive(0, 1), Cancel(1)]);
            Stuck(s', 0) && s'.registered == s.registered && NobodyWaits(s', 0) &&
            s'.handlers[0].phase.draining == s.handlers[0].phase.Draining?
  {
    var s1 := Next(s, Receive(0, 1));
    AfterOne(s, Receive(0, 1), [Cancel(1)]);
    AfterOne(s1, Cancel(1), []);
    assert [Receive(0, 1)] + [Cancel(1)] == [Receive(0, 1), Cancel(1)] && [Cancel(1)] + [] == [Cancel(1)];
    assert s1.handlers[0].phase == Refusing(1, s.handlers[0].phase.Draining?) && s1.requests[1].phase == Listening;
  }

  // The same with the handler's time up: it drains, nobody waits for it, and it never executes.
  lemma ATimedOutHandlerCanBeBlocked(volume: string, a: Fields, b: Fields)
    requires Conflict(a, b)
    ensures var start := [Submit(volume, a), Submit(volume, b)];
            var s := Run(start + [StartSend(1), Timeout(0)] + [Receive(0, 1), Cancel(1)]);
            Stuck(s, 0) && volume !in s.registered && NobodyWaits(s, 0) && s.handlers[0].executed == []
  {
    var start := [Submit(volume, a), Submit(volume, b)];
    var s := TwoRequests(volume, a, b);
    RunTwoRequests(volume, a, b);
    RunAfter(start, [StartSend(1), Timeout(0)]);
    SendsTooLate(volume, a, b);
    RunAfter(start + [StartSend(1), Timeout(0)], [Receive(0, 1), Cancel(1)]);
    BlockedSender(After(s, [StartSend(1), Timeout(0)]), volume, a, b);
    StuckNeverExecutes(start + [StartSend(1), Timeout(0)] + [Receive(0, 1), Cancel(1)], 0, []);
  }

  lemma SendsTooLate(volume: string, a: Fields, b: Fields)
    ensures After(TwoRequests(volume, a, b), [StartSend(1), Timeout(0)]) ==
            State([Request(volume, a, Listening, AcceptedBy(0, 0)), Request(volume, b, Sending(0), Nowhere)],
                  [Handler(volume, a, [0], [], Draining, [])], map[])
  {
    var s := TwoRequests(volume, a, b);
    var s1 := Next(s, StartSend(1));
    AfterOne(s, StartSend(1), [Timeout(0)]);
    AfterOne(s1, Timeout(0), []);
    assert [StartSend(1)] + [Timeout(0)] == [StartSend(1), Timeout(0)] && [Timeout(0)] + [] == [Timeout(0)];
    assert s1 == s.(requests := [s.requests[0], Request(volume, b, Sending(0), Nowhere)]);
    assert map[volume := 0] - {volume} == map[];
  }

  // Every request for the volume that comes after such a conflict is lost with it.
  lemma TheNextRequestIsLost(events: seq<Event>, volume: string, c: Fields)
    requires var s := Run(events);
             volume in s.registered && Stuck(s, s.registered[volume])
    ensures var s, s' := Run(events), Run(events + [Submit(volume, c)]);
            Pending(s', |s.requests|, s.registered[volume]) && Deaf(s', s.registered[volume])
  {
    RunOne(events, Submit(volume, c));
    StuckStays(Run(events), Submit(volume, c), Run(events).registered[volume]);
  }
}
