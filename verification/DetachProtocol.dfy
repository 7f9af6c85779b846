/**
 * The detach and delete handlers of pkg/driver/controller.go as a transition system: any
 * number of concurrent RPCs, each taking the steps of its handler one at a time, sharing
 * the in-flight set and the two breakers. A handler's bookkeeping after an answer of the
 * IaaS is one step (LockRegions takes it apart); the IaaS answers anything at any time.
 */
module DetachProtocol {
  import opened Clock
  import opened FailureLog
  import opened CircuitBreaker
  import opened Bookkeeping

  type Tid = int

  // Other stands for every further handler that takes an in-flight key.
  datatype Rpc = Unpublish | DeleteVolume | Publish | Other

  // Where a handler is. Every stage holds the in-flight key; now is the handler's own
  // timestamp, read once after the key was taken.
  datatype Stage =
    | Started
    | Stamped(now: Time)
    | Swept(now: Time)
    | Probing(now: Time)
    | Attempting(now: Time, issuedAt: Time)
    | Leaving

  datatype Handler = Handler(rpc: Rpc, key: BreakerKey, stage: Stage)

  datatype State = State(
    clock: Time, inFlight: map<string, Tid>, running: map<Tid, Handler>, detach: Books, delete: Books)

  const INIT := State(0, map[], map[], NO_BOOKS, NO_BOOKS)

  datatype Outcome = Done | FailedWith(terminal: bool) | Refused

  datatype Event =
    | Tick(d: nat)
    | Insert(t: Tid, rpc: Rpc, key: BreakerKey)
    | Stamp(t: Tid)
    | Sweep(t: Tid)
    | Decide(t: Tid)
    | ProbeAnswer(t: Tid, confirmed: bool)
    | AttemptAnswer(t: Tid, outcome: Outcome)
    | AttachAnswer(t: Tid, ok: bool)
    | Release(t: Tid)

  function OpOf(rpc: Rpc): Op {
    if rpc.DeleteVolume? then Delete else Detach
  }

  function BooksOf(s: State, op: Op): Books {
    if op.Detach? then s.detach else s.delete
  }

  function WithBooks(s: State, op: Op, b: Books): State {
    if op.Detach? then s.(detach := b) else s.(delete := b)
  }

  function Goto(s: State, t: Tid, h: Handler, stage: Stage): State {
    s.(running := s.running[t := h.(stage := stage)])
  }

  // What handler h does next, given event e; an event that does not fit does nothing.
  function Act(s: State, t: Tid, h: Handler, e: Event): State {
    var op := OpOf(h.rpc);
    var b := BooksOf(s, op);
    match (e, h.stage)
    case (Stamp(_), Started) =>
      if h.rpc.Unpublish? || h.rpc.DeleteVolume? then Goto(s, t, h, Stamped(s.clock)) else s
    case (Sweep(_), Stamped(now)) =>
      Goto(WithBooks(s, op, AfterSweep(b, now)), t, h, Stage.Swept(now))
    case (Decide(_), Swept(now)) =>
      Goto(s, t, h, if Paused(b.logs, h.key, now) then Probing(now) else Attempting(now, s.clock))
    case (ProbeAnswer(_, confirmed), Probing(now)) =>
      if !confirmed then Goto(s, t, h, Leaving)
      // A delete that became possible is attempted at once; a finished detach is a success.
      else if op.Delete? then Goto(s, t, h, Attempting(now, s.clock))
      else Goto(WithBooks(s, op, AfterSuccess(b, h.key)), t, h, Leaving)
    case (AttemptAnswer(_, Done), Attempting(now, _)) =>
      Goto(WithBooks(s, op, AfterSuccess(b, h.key)), t, h, Leaving)
    case (AttemptAnswer(_, FailedWith(terminal)), Attempting(now, _)) =>
      Goto(WithBooks(s, op, AfterFailure(op, b, h.key, Failure(terminal, now))), t, h, Leaving)
    // A delete held back by a snapshot is no failure of the IaaS.
    case (AttemptAnswer(_, Refused), Attempting(now, _)) =>
      if op.Delete? then Goto(s, t, h, Leaving) else s
    case (AttachAnswer(_, ok), Started) =>
      if !h.rpc.Publish? then s
      else if ok then
        Goto(s.(detach := AfterClear(AfterSweep(s.detach, s.clock), h.key)), t, h, Leaving)
      else Goto(s, t, h, Leaving)
    case (Release(_), Leaving) =>
      s.(running := s.running - {t}, inFlight := s.inFlight - {h.key.String()})
    case (Release(_), Started) =>
      if h.rpc.Other? then s.(running := s.running - {t}, inFlight := s.inFlight - {h.key.String()}) else s
    case _ => s
  }

  function Next(s: State, e: Event): State {
    match e
    case Tick(d) => s.(clock := s.clock + d)
    case Insert(t, rpc, key) =>
      // A key that is taken, or a thread that is busy: the RPC is turned away.
      if t in s.running || key.String() in s.inFlight then s
      else s.(running := s.running[t := Handler(rpc, key, Started)], inFlight := s.inFlight[key.String() := t])
    case _ =>
      if e.t in s.running then Act(s, e.t, s.running[e.t], e) else s
  }

  function Run(events: seq<Event>): State {
    if events == [] then INIT else Next(Run(events[..|events| - 1]), events[|events| - 1])
  }

  // ----- Mutual exclusion -----

  ghost predicate Exclusive(s: State) {
    && (forall t :: t in s.running ==>
          var k := s.running[t].key.String(); k in s.inFlight && s.inFlight[k] == t)
    && (forall k :: k in s.inFlight ==>
          s.inFlight[k] in s.running && s.running[s.inFlight[k]].key.String() == k)
  }

  // A handler's step keeps its key, or ends the handler and gives the key back.
  lemma ActKeepsKeys(s: State, t: Tid, h: Handler, e: Event)
    requires t in s.running && s.running[t] == h
    ensures var s' := Act(s, t, h, e);
            || (s'.running.Keys == s.running.Keys && s'.inFlight == s.inFlight &&
                forall u :: u in s.running ==> s'.running[u].key == s.running[u].key)
            || (s'.running == s.running - {t} && s'.inFlight == s.inFlight - {h.key.String()})
  {
  }

  lemma NextKeepsExclusion(s: State, e: Event)
    requires Exclusive(s)
    ensures Exclusive(Next(s, e))
  {
    if !e.Tick? && !e.Insert? && e.t in s.running {
      ActKeepsKeys(s, e.t, s.running[e.t], e);
    }
  }

  // What a step of handler h can do to the books of op.
  lemma BooksChange(s: State, t: Tid, h: Handler, e: Event, op: Op)
    ensures var b, b' := BooksOf(s, op), BooksOf(Act(s, t, h, e), op);
            || b' == b
            || (op == OpOf(h.rpc) && (b' == AfterSuccess(b, h.key) || b' == AfterClear(AfterSweep(b, s.clock), h.key)))
            || (op == OpOf(h.rpc) && h.stage.Stamped? && b' == AfterSweep(b, h.stage.now))
            || (op == OpOf(h.rpc) && h.stage.Attempting? && e.AttemptAnswer? && e.outcome.FailedWith? &&
                b' == AfterFailure(op, b, h.key, Failure(e.outcome.terminal, h.stage.now)))
  {
  }

  predicate SameOrGone(before: Logs, after: Logs, key: BreakerKey) {
    LogOf(after, key) == LogOf(before, key) || LogOf(after, key) == []
  }

  // What is done to the books for one key leaves another key's log alone, or sweeps it away.
  lemma AnothersLog(op: Op, b: Books, key: BreakerKey, other: BreakerKey, f: Failure, now: Time)
    requires key.String() != other.String()
    ensures SameOrGone(b.logs, AfterSuccess(b, key).logs, other)
    ensures SameOrGone(b.logs, AfterSweep(b, now).logs, other)
    ensures SameOrGone(b.logs, AfterClear(AfterSweep(b, now), key).logs, other)
    ensures SameOrGone(b.logs, AfterFailure(op, b, key, f).logs, other)
  {
  }

  // A key's log is written by the handler that holds the key; the steps of all others leave
  // it alone or, sweeping, drop it whole.
  lemma OnlyTheHolderWrites(s: State, e: Event, t: Tid, op: Op)
    requires Exclusive(s) && t in s.running
    requires !e.Tick? && e.t != t
    ensures SameOrGone(BooksOf(s, op).logs, BooksOf(Next(s, e), op).logs, s.running[t].key)
  {
    if !e.Insert? && e.t in s.running {
      var h, b, other := s.running[e.t], BooksOf(s, op), s.running[t].key;
      assert h.key.String() != other.String();
      BooksChange(s, e.t, h, e, op);
      AnothersLog(op, b, h.key, other, Failure(true, 0), s.clock);
      if h.stage.Stamped? {
        AnothersLog(op, b, h.key, other, Failure(true, 0), h.stage.now);
      }
      if h.stage.Attempting? && e.AttemptAnswer? && e.outcome.FailedWith? {
        AnothersLog(op, b, h.key, other, Failure(e.outcome.terminal, h.stage.now), s.clock);
      }
    }
  }

  // ----- The command budget -----

  // Consecutive failures of an open breaker are at least a wait of the table apart.
  ghost predicate Spaced(log: Log) {
    forall i :: TripIndex(log) <= i && i + 1 < |log| ==>
      log[i + 1].at >= log[i].at + BREAKER_STEPS[if i - TripIndex(log) < 3 then i - TripIndex(log) else 3]
  }

  ghost predicate Punctual(h: Handler, logs: Logs) {
    !h.rpc.DeleteVolume? && h.stage.Attempting? ==>
      && h.stage.issuedAt >= h.stage.now
      && (h.key.String() in logs && Tripped(LogOf(logs, h.key)) ==> h.stage.now >= NextAttempt(LogOf(logs, h.key)))
  }

  ghost predicate OnTime(h: Handler, clock: Time) {
    (h.stage.Stamped? || h.stage.Swept? || h.stage.Probing? || h.stage.Attempting?) ==> h.stage.now <= clock
  }

  ghost predicate Inv(s: State) {
    && Exclusive(s)
    && NoEmptyLog(s.detach.logs)
    && (forall k :: k in s.detach.logs ==> Spaced(s.detach.logs[k].log))
    && (forall t :: t in s.running ==> Punctual(s.running[t], s.detach.logs) && OnTime(s.running[t], s.clock))
  }

  lemma SpacedAppend(log: Log, f: Failure)
    requires Spaced(log)
    requires Tripped(log) ==> f.at >= NextAttempt(log)
    ensures Spaced(log + [f])
  {
    AppendFailure(log, f);
    var after := log + [f];
    if Tripped(log) {
      var last := |log| - 1;
      assert after[last] == log[last] && Step(log) == if last - TripIndex(log) < 3 then last - TripIndex(log) else 3;
    }
  }

  ghost predicate LogsSpaced(logs: Logs) {
    NoEmptyLog(logs) && forall k :: k in logs ==> Spaced(logs[k].log)
  }

  lemma FailedStaysSpaced(logs: Logs, key: BreakerKey, f: Failure)
    requires LogsSpaced(logs)
    requires key.String() in logs && Tripped(LogOf(logs, key)) ==> f.at >= NextAttempt(LogOf(logs, key))
    ensures LogsSpaced(Failed(logs, key, f))
  {
    SpacedAppend(LogOf(logs, key), f);
    assert Failed(logs, key, f)[key.String()].log == LogOf(logs, key) + [f];
  }

  // The detach breaker's logs change in two ways: whole logs go away, or the holder of a key
  // appends a failure to its log.
  ghost predicate Shrinks(before: Logs, after: Logs) {
    after.Keys <= before.Keys && forall k :: k in after ==> after[k] == before[k]
  }

  predicate DetachFails(s: State, e: Event) {
    && e.AttemptAnswer? && e.outcome.FailedWith?
    && e.t in s.running && !s.running[e.t].rpc.DeleteVolume? && s.running[e.t].stage.Attempting?
  }

  lemma DetachLogsChange(s: State, e: Event)
    ensures if DetachFails(s, e) then
              Next(s, e).detach.logs ==
              Failed(s.detach.logs, s.running[e.t].key, Failure(e.outcome.terminal, s.running[e.t].stage.now))
            else Shrinks(s.detach.logs, Next(s, e).detach.logs)
  {
  }

  lemma NextKeepsSpacing(s: State, e: Event)
    requires Inv(s)
    ensures LogsSpaced(Next(s, e).detach.logs)
  {
    DetachLogsChange(s, e);
    if DetachFails(s, e) {
      var h := s.running[e.t];
      assert Punctual(h, s.detach.logs);
      FailedStaysSpaced(s.detach.logs, h.key, Failure(e.outcome.terminal, h.stage.now));
    }
  }

  // The handlers that do not act stay as they are.
  lemma BystanderStep(s: State, e: Event, t: Tid)
    requires t in s.running && (e.Tick? || e.t != t)
    ensures t in Next(s, e).running && Next(s, e).running[t] == s.running[t]
  {
  }

  lemma BystanderStaysPunctual(s: State, e: Event, t: Tid)
    requires Inv(s) && t in s.running && (e.Tick? || e.t != t)
    ensures Punctual(s.running[t], Next(s, e).detach.logs)
  {
    assert Punctual(s.running[t], s.detach.logs);
    if !e.Tick? {
      OnlyTheHolderWrites(s, e, t, Detach);
    }
  }

  // A handler that goes on to a detach command found its breaker closed, or its wait over.
  lemma ActorIsPunctual(s: State, t: Tid, h: Handler, e: Event)
    requires t in s.running && s.running[t] == h && Punctual(h, s.detach.logs) && OnTime(h, s.clock)
    requires t in Act(s, t, h, e).running
    ensures Punctual(Act(s, t, h, e).running[t], Act(s, t, h, e).detach.logs)
  {
    var h' := Act(s, t, h, e).running[t];
    if !h.rpc.DeleteVolume? && h'.stage.Attempting? {
      assert Act(s, t, h, e).detach == s.detach;
      assert h' == h || (h.stage.Swept? && !Paused(s.detach.logs, h.key, h.stage.now));
    }
  }

  lemma NextKeepsPunctual(s: State, e: Event, t: Tid)
    requires Inv(s) && t in Next(s, e).running
    ensures Punctual(Next(s, e).running[t], Next(s, e).detach.logs)
  {
    if t in s.running {
      if e.Tick? || e.t != t {
        BystanderStep(s, e, t);
        BystanderStaysPunctual(s, e, t);
      } else if !e.Insert? {
        ActorIsPunctual(s, t, s.running[t], e);
      }
    }
  }

  lemma NextKeepsTime(s: State, e: Event, t: Tid)
    requires t in s.running ==> OnTime(s.running[t], s.clock)
    requires t in Next(s, e).running
    ensures OnTime(Next(s, e).running[t], Next(s, e).clock)
  {
    if t in s.running && (e.Tick? || e.t != t) {
      BystanderStep(s, e, t);
      ClockStep(s, e);
    } else if t in s.running && !e.Insert? {
      ActKeepsTime(s, t, s.running[t], e);
    }
  }

  lemma ClockStep(s: State, e: Event)
    ensures Next(s, e).clock >= s.clock
  {
  }

  lemma ActKeepsTime(s: State, t: Tid, h: Handler, e: Event)
    requires t in s.running && s.running[t] == h && OnTime(h, s.clock) && t in Act(s, t, h, e).running
    ensures OnTime(Act(s, t, h, e).running[t], Act(s, t, h, e).clock)
  {
  }

  lemma NextKeepsInv(s: State, e: Event)
    requires Inv(s)
    ensures Inv(Next(s, e))
  {
    NextKeepsExclusion(s, e);
    NextKeepsSpacing(s, e);
    forall t | t in Next(s, e).running
      ensures Punctual(Next(s, e).running[t], Next(s, e).detach.logs) && OnTime(Next(s, e).running[t], Next(s, e).clock)
    {
      NextKeepsPunctual(s, e, t);
      NextKeepsTime(s, e, t);
    }
  }

  lemma {:induction false} RunKeepsInv(events: seq<Event>)
    ensures Inv(Run(events))
  {
    if events != [] {
      RunKeepsInv(events[..|events| - 1]);
      NextKeepsInv(Run(events[..|events| - 1]), events[|events| - 1]);
    }
  }

  // The earliest the n-th real attempt after a trip may start, counted from the trip.
  function Due(n: nat): Duration {
    if n == 0 then 0 else Due(n - 1) + BREAKER_STEPS[if n <= 3 then n - 1 else 3]
  }

  lemma {:induction false} DueInMinutes(n: nat)
    ensures Due(1) == 10 * MINUTE && Due(2) == 40 * MINUTE
    ensures n >= 3 ==> Due(n) == (100 + 120 * (n - 3)) * MINUTE
  {
    if n > 3 {
      DueInMinutes(n - 1);
    } else {
      assert Due(1) == Due(0) + 10 * MINUTE;
      assert Due(2) == Due(1) + 30 * MINUTE;
      assert Due(3) == Due(2) + 60 * MINUTE;
    }
  }

  lemma {:induction false} SpacedIsDue(log: Log, n: nat)
    requires Spaced(log) && Tripped(log) && TripIndex(log) + n < |log|
    ensures log[TripIndex(log) + n].at >= log[TripIndex(log)].at + Due(n)
  {
    if n > 0 {
      SpacedIsDue(log, n - 1);
    }
  }

  lemma DueStep(n: nat)
    ensures Due(n + 1) == Due(n) + BREAKER_STEPS[if n < 3 then n else 3]
  {
  }

  lemma NextAttemptOfTripped(log: Log, last: nat)
    requires Tripped(log) && last == |log| - 1 - TripIndex(log)
    ensures NextAttempt(log) == log[TripIndex(log) + last].at + BREAKER_STEPS[if last < 3 then last else 3]
  {
  }

  // The attempt after the last failure of a log is due one wait of the table later.
  lemma NextIsDue(log: Log)
    requires Spaced(log) && Tripped(log)
    ensures NextAttempt(log) >= log[TripIndex(log)].at + Due(|log| - TripIndex(log))
  {
    var last := |log| - 1 - TripIndex(log);
    SpacedIsDue(log, last);
    DueStep(last);
    NextAttemptOfTripped(log, last);
  }

  // The command budget of a stuck detach, in every interleaving. Take a detach command a
  // handler has out. If its key's breaker is open, and n is the number of real attempts the
  // episode has made since the trip (this one included), then the command went out at least
  // 10, 40, 100 and then 120 more minutes each after the attempt that tripped; and the same
  // holds of every earlier attempt of the episode.
  lemma DetachCommandBudget(events: seq<Event>, t: Tid)
    requires var s := Run(events);
             t in s.running && s.running[t].rpc.Unpublish? && s.running[t].stage.Attempting? &&
             Tripped(LogOf(s.detach.logs, s.running[t].key))
    ensures var s := Run(events);
            var log := LogOf(s.detach.logs, s.running[t].key);
            var trip := TripIndex(log);
            && s.running[t].stage.issuedAt >= log[trip].at + Due(|log| - trip)
            && (forall n :: 0 <= n < |log| - trip ==> log[trip + n].at >= log[trip].at + Due(n))
  {
    var s := Run(events);
    RunKeepsInv(events);
    var log := AttemptedLog(s, t);
    NextIsDue(log);
    forall n | 0 <= n < |log| - TripIndex(log)
      ensures log[TripIndex(log) + n].at >= log[TripIndex(log)].at + Due(n)
    {
      SpacedIsDue(log, n);
    }
  }

  // The log an attempt adds to, and that the attempt was not before its time.
  lemma AttemptedLog(s: State, t: Tid) returns (log: Log)
    requires Inv(s) && t in s.running && s.running[t].rpc.Unpublish? && s.running[t].stage.Attempting?
    requires Tripped(LogOf(s.detach.logs, s.running[t].key))
    ensures log == LogOf(s.detach.logs, s.running[t].key) && Spaced(log)
    ensures s.running[t].stage.issuedAt >= NextAttempt(log)
  {
    log := LogOf(s.detach.logs, s.running[t].key);
    assert Punctual(s.running[t], s.detach.logs);
  }

  // At most one command is out per key at any time.
  lemma OneAttemptPerKey(events: seq<Event>, t: Tid, u: Tid)
    requires var s := Run(events);
             t in s.running && u in s.running && s.running[t].key.String() == s.running[u].key.String()
    ensures t == u
  {
    RunKeepsInv(events);
  }

  // ----- Gauges and events -----

  // Every pair a run mentions for one operation is named, so no two of them collide.
  predicate KeysNamed(op: Op, names: Names, events: seq<Event>) {
    forall i :: 0 <= i < |events| && events[i].Insert? && OpOf(events[i].rpc) == op ==> Named(names, events[i].key)
  }

  ghost predicate RunningNamed(op: Op, names: Names, s: State) {
    forall t :: t in s.running && OpOf(s.running[t].rpc) == op ==> Named(names, s.running[t].key)
  }

  ghost predicate Kept(op: Op, names: Names, s: State) {
    InOrder(op, names, BooksOf(s, op)) && RunningNamed(op, names, s)
  }

  lemma ActKeepsOrder(s: State, t: Tid, h: Handler, e: Event, op: Op, names: Names)
    requires InOrder(op, names, BooksOf(s, op))
    requires op == OpOf(h.rpc) ==> Named(names, h.key)
    ensures InOrder(op, names, BooksOf(Act(s, t, h, e), op))
  {
    BooksChange(s, t, h, e, op);
    var b := BooksOf(s, op);
    if op == OpOf(h.rpc) {
      ClearKeepsOrder(op, names, b, h.key);
      SweepKeepsOrder(op, names, b, s.clock);
      ClearKeepsOrder(op, names, AfterSweep(b, s.clock), h.key);
      if h.stage.Stamped? {
        SweepKeepsOrder(op, names, b, h.stage.now);
      }
      if h.stage.Attempting? && e.AttemptAnswer? && e.outcome.FailedWith? {
        FailureKeepsOrder(op, names, b, h.key, Failure(e.outcome.terminal, h.stage.now));
      }
    }
  }

  // A step runs the handlers it ran before, each with its RPC and key, but for a new one.
  lemma HandlersStep(s: State, e: Event, t: Tid)
    requires t in Next(s, e).running
    ensures if t in s.running then
              Next(s, e).running[t].rpc == s.running[t].rpc && Next(s, e).running[t].key == s.running[t].key
            else e.Insert? && Next(s, e).running[t] == Handler(e.rpc, e.key, Started)
  {
  }

  lemma NextKeepsNames(op: Op, names: Names, s: State, e: Event)
    requires RunningNamed(op, names, s)
    requires e.Insert? && OpOf(e.rpc) == op ==> Named(names, e.key)
    ensures RunningNamed(op, names, Next(s, e))
  {
    forall t | t in Next(s, e).running && OpOf(Next(s, e).running[t].rpc) == op
      ensures Named(names, Next(s, e).running[t].key)
    {
      HandlersStep(s, e, t);
    }
  }

  lemma NextKeepsBooks(op: Op, names: Names, s: State, e: Event)
    requires Kept(op, names, s)
    requires e.Insert? && OpOf(e.rpc) == op ==> Named(names, e.key)
    ensures Kept(op, names, Next(s, e))
  {
    NextKeepsNames(op, names, s, e);
    if !e.Tick? && !e.Insert? && e.t in s.running {
      ActKeepsOrder(s, e.t, s.running[e.t], e, op, names);
    }
  }

  // In every run, after every step: a pending series is published for exactly the keys the
  // breaker is open on, for detach and for delete; and each episode has emitted exactly the
  // warnings its log calls for, never more than 4 for a detach and 5 for a delete.
  lemma {:induction false} GaugesAndEvents(op: Op, names: Names, events: seq<Event>)
    requires KeysNamed(op, names, events)
    ensures var b := BooksOf(Run(events), op);
            && Kept(op, names, Run(events)) && GaugeAgrees(b)
            && (forall k :: k in b.warned ==> b.warned[k] <= if op.Detach? then 4 else 5)
  {
    if events != [] {
      var before := events[..|events| - 1];
      GaugesAndEvents(op, names, before);
      NextKeepsBooks(op, names, Run(before), events[|events| - 1]);
    }
  }

  // What ends an episode well: an attempt that is done, or for a detach a probe that confirms it.
  predicate EndsEpisode(s: State, e: Event, op: Op) {
    && (e.AttemptAnswer? || e.ProbeAnswer?) && e.t in s.running && OpOf(s.running[e.t].rpc) == op
    && ((e.AttemptAnswer? && e.outcome.Done? && s.running[e.t].stage.Attempting?) ||
        (e.ProbeAnswer? && e.confirmed && s.running[e.t].stage.Probing? && op.Detach?))
  }

  // A recovery is announced exactly when an episode ends well that had tripped.
  lemma RecoveryIffTripped(s: State, e: Event, op: Op)
    ensures BooksOf(Next(s, e), op).recovered == BooksOf(s, op).recovered +
            if EndsEpisode(s, e, op) && Tripped(LogOf(BooksOf(s, op).logs, s.running[e.t].key)) then 1 else 0
    ensures EndsEpisode(s, e, op) ==> LogOf(BooksOf(Next(s, e), op).logs, s.running[e.t].key) == []
  {
  }

  // In every run, the sweep of a handler drops exactly the logs whose last failure and its wait,
  // of 0, 10, 30, 60 or 120 minutes, lie more than 240 minutes before the handler's timestamp.
  lemma SweepsAfterFourHours(events: seq<Event>, t: Tid, op: Op)
    requires t in Run(events).running && Run(events).running[t].stage.Stamped? && OpOf(Run(events).running[t].rpc) == op
    ensures GoneInMinutes(
              BooksOf(Run(events), op).logs, BooksOf(Run(events + [Sweep(t)]), op).logs,
              Run(events).running[t].stage.now)
    ensures NoEmptyLog(BooksOf(Run(events), op).logs)
    ensures Shrinks(BooksOf(Run(events), op).logs, BooksOf(Run(events + [Sweep(t)]), op).logs)
  {
    RunOne(events, Sweep(t));
    RunHasNoEmptyLog(events, op);
    SweepStep(Run(events), t, op);
    SweepInMinutes(BooksOf(Run(events), op).logs, Run(events).running[t].stage.now);
  }

  lemma SweepStep(s: State, t: Tid, op: Op)
    requires t in s.running && s.running[t].stage.Stamped? && OpOf(s.running[t].rpc) == op
    ensures BooksOf(Next(s, Sweep(t)), op).logs == CircuitBreaker.Swept(BooksOf(s, op).logs, s.running[t].stage.now)
  {
  }

  lemma {:induction false} RunHasNoEmptyLog(events: seq<Event>, op: Op)
    ensures NoEmptyLog(BooksOf(Run(events), op).logs)
  {
    if events != [] {
      RunHasNoEmptyLog(events[..|events| - 1], op);
      LogsGoWhole(Run(events[..|events| - 1]), events[|events| - 1], op);
    }
  }

  lemma RecoveryStep(s: State, e: Event, op: Op)
    requires BooksOf(Next(s, e), op).recovered != BooksOf(s, op).recovered
    ensures !e.Tick? && !e.Insert? && e.t in s.running && OpOf(s.running[e.t].rpc) == op
    ensures var key := s.running[e.t].key;
            && Tripped(LogOf(BooksOf(s, op).logs, key)) && LogOf(BooksOf(Next(s, e), op).logs, key) == []
            && BooksOf(Next(s, e), op).recovered == BooksOf(s, op).recovered + 1
  {
  }

  // In every run, a recovery is announced once, by the step that ends an episode; the episode
  // had tripped, and at least one warning of it had been emitted.
  lemma RecoveryFollowsAWarning(op: Op, names: Names, events: seq<Event>, e: Event)
    requires KeysNamed(op, names, events)
    requires BooksOf(Next(Run(events), e), op).recovered != BooksOf(Run(events), op).recovered
    ensures var b, b' := BooksOf(Run(events), op), BooksOf(Next(Run(events), e), op);
            && b'.recovered == b.recovered + 1 && !e.Tick? && !e.Insert? && e.t in Run(events).running
            && var k := Run(events).running[e.t].key.String();
               && k in b.logs && k !in b'.logs && Tripped(b.logs[k].log)
               && k in b.warned && b.warned[k] >= 1
  {
    GaugesAndEvents(op, names, events);
    RecoveryStep(Run(events), e, op);
    LogsGoWhole(Run(events), e, op);
  }

  lemma LogsGoWhole(s: State, e: Event, op: Op)
    requires NoEmptyLog(BooksOf(s, op).logs)
    ensures NoEmptyLog(BooksOf(Next(s, e), op).logs)
  {
    if !e.Tick? && !e.Insert? && e.t in s.running {
      BooksChange(s, e.t, s.running[e.t], e, op);
    }
  }

  // ----- A handler that is not interleaved -----

  // What the answer to an attempt does to the books.
  function Answered(op: Op, b: Books, key: BreakerKey, outcome: Outcome, now: Time): Books {
    match outcome
    case Done => AfterSuccess(b, key)
    case FailedWith(terminal) => AfterFailure(op, b, key, Failure(terminal, now))
    case Refused => b
  }

  // What a swept handler makes of the books: an attempt unless the breaker pauses it, and if it
  // does, what the probe's answer calls for.
  function Concluded(op: Op, b: Books, key: BreakerKey, confirmed: bool, outcome: Outcome, now: Time): Books {
    if !Paused(b.logs, key, now) || (confirmed && op.Delete?) then Answered(op, b, key, outcome, now)
    else if confirmed then AfterSuccess(b, key)
    else b
  }

  // The steps of one handler in a row; those that do not apply do nothing.
  function Finish(s: State, t: Tid, confirmed: bool, outcome: Outcome): State {
    Next(Next(Next(Next(s, Decide(t)), ProbeAnswer(t, confirmed)), AttemptAnswer(t, outcome)), Release(t))
  }

  function Prepare(s: State, t: Tid, rpc: Rpc, key: BreakerKey): State {
    Next(Next(Next(s, Insert(t, rpc, key)), Stamp(t)), Sweep(t))
  }

  // s with one more handler, which holds its key.
  function Joined(s: State, t: Tid, h: Handler): State {
    s.(running := s.running[t := h], inFlight := s.inFlight[h.key.String() := t])
  }

  // A step of handler t alone, to a stage and with new books of its operation.
  lemma Rejoin(s: State, t: Tid, h: Handler, op: Op, b: Books, stage: Stage)
    ensures Goto(WithBooks(Joined(s, t, h), op, b), t, h, stage) == Joined(WithBooks(s, op, b), t, h.(stage := stage))
    ensures Goto(Joined(s, t, h), t, h, stage) == Joined(s, t, h.(stage := stage))
  {
    assert s.running[t := h][t := h.(stage := stage)] == s.running[t := h.(stage := stage)];
  }

  lemma PreparesAlone(s: State, t: Tid, rpc: Rpc, key: BreakerKey)
    requires t !in s.running && key.String() !in s.inFlight && (rpc.Unpublish? || rpc.DeleteVolume?)
    ensures var op := OpOf(rpc);
            Prepare(s, t, rpc, key) ==
            Joined(WithBooks(s, op, AfterSweep(BooksOf(s, op), s.clock)), t, Handler(rpc, key, Stage.Swept(s.clock)))
  {
    var op, h := OpOf(rpc), Handler(rpc, key, Started);
    Rejoin(s, t, h, op, BooksOf(s, op), Stamped(s.clock));
    Rejoin(s, t, h.(stage := Stamped(s.clock)), op, AfterSweep(BooksOf(s, op), s.clock), Stage.Swept(s.clock));
  }

  lemma ReleasesAlone(s: State, t: Tid, h: Handler)
    requires t !in s.running && h.key.String() !in s.inFlight && h.stage.Leaving?
    ensures Next(Joined(s, t, h), Release(t)) == s
  {
    assert s.running[t := h] - {t} == s.running;
    assert s.inFlight[h.key.String() := t] - {h.key.String()} == s.inFlight;
  }

  lemma AttemptsAlone(s: State, t: Tid, h: Handler, outcome: Outcome)
    requires t !in s.running && h.key.String() !in s.inFlight
    requires h.stage.Attempting? && (OpOf(h.rpc).Detach? ==> !outcome.Refused?)
    ensures var op := OpOf(h.rpc);
            Next(Next(Joined(s, t, h), AttemptAnswer(t, outcome)), Release(t)) ==
            WithBooks(s, op, Answered(op, BooksOf(s, op), h.key, outcome, h.stage.now))
  {
    var op := OpOf(h.rpc);
    var b := Answered(op, BooksOf(s, op), h.key, outcome, h.stage.now);
    Rejoin(s, t, h, op, b, Leaving);
    ReleasesAlone(WithBooks(s, op, b), t, h.(stage := Leaving));
  }

  // A probe's answer: to an attempt, or to the end.
  lemma ProbesAlone(s: State, t: Tid, h: Handler, confirmed: bool)
    requires h.stage.Probing?
    ensures var op := OpOf(h.rpc);
            Next(Joined(s, t, h), ProbeAnswer(t, confirmed)) ==
            if confirmed && op.Delete? then Joined(s, t, h.(stage := Attempting(h.stage.now, s.clock)))
            else
              Joined(if confirmed then WithBooks(s, op, AfterSuccess(BooksOf(s, op), h.key)) else s,
                     t, h.(stage := Leaving))
  {
    var op := OpOf(h.rpc);
    Rejoin(s, t, h, op, AfterSuccess(BooksOf(s, op), h.key), Leaving);
    Rejoin(s, t, h, op, BooksOf(s, op), Attempting(h.stage.now, s.clock));
  }

  lemma DecidesAlone(s: State, t: Tid, h: Handler)
    requires h.stage.Swept?
    ensures var now := h.stage.now;
            Next(Joined(s, t, h), Decide(t)) ==
            Joined(s, t, h.(stage := if Paused(BooksOf(s, OpOf(h.rpc)).logs, h.key, now) then Probing(now)
                                     else Attempting(now, s.clock)))
  {
    var op, now := OpOf(h.rpc), h.stage.now;
    Rejoin(s, t, h, op, BooksOf(s, op), Probing(now));
    Rejoin(s, t, h, op, BooksOf(s, op), Attempting(now, s.clock));
  }

  lemma FinishesAlone(s: State, t: Tid, h: Handler, confirmed: bool, outcome: Outcome)
    requires t !in s.running && h.key.String() !in s.inFlight
    requires h.stage.Swept? && (OpOf(h.rpc).Detach? ==> !outcome.Refused?)
    ensures var op, now := OpOf(h.rpc), h.stage.now;
            var b := BooksOf(s, op);
            Finish(Joined(s, t, h), t, confirmed, outcome) ==
            WithBooks(s, op, Concluded(op, b, h.key, confirmed, outcome, now))
  {
    var op, now := OpOf(h.rpc), h.stage.now;
    var b := BooksOf(s, op);
    DecidesAlone(s, t, h);
    var trying := h.(stage := Attempting(now, s.clock));
    if Paused(b.logs, h.key, now) {
      ProbesAlone(s, t, h.(stage := Probing(now)), confirmed);
      if confirmed && op.Delete? {
        AttemptsAlone(s, t, trying, outcome);
      } else {
        var s' := if confirmed then WithBooks(s, op, AfterSuccess(b, h.key)) else s;
        var leaving := h.(stage := Leaving);
        assert Next(Joined(s', t, leaving), AttemptAnswer(t, outcome)) == Joined(s', t, leaving);
        ReleasesAlone(s', t, leaving);
      }
    } else {
      assert Next(Joined(s, t, trying), ProbeAnswer(t, confirmed)) == Joined(s, t, trying);
      AttemptsAlone(s, t, trying, outcome);
    }
  }

  // A handler that nobody interrupts does to the books what the method of Controller does, and
  // leaves nothing else behind.
  lemma HandlerAlone(s: State, t: Tid, rpc: Rpc, key: BreakerKey, confirmed: bool, outcome: Outcome)
    requires t !in s.running && key.String() !in s.inFlight && (rpc.Unpublish? || rpc.DeleteVolume?)
    requires rpc.Unpublish? ==> !outcome.Refused?
    ensures var op := OpOf(rpc);
            var b := AfterSweep(BooksOf(s, op), s.clock);
            Finish(Prepare(s, t, rpc, key), t, confirmed, outcome) ==
            WithBooks(s, op, Concluded(op, b, key, confirmed, outcome, s.clock))
  {
    var op := OpOf(rpc);
    PreparesAlone(s, t, rpc, key);
    var swept := WithBooks(s, op, AfterSweep(BooksOf(s, op), s.clock));
    FinishesAlone(swept, t, Handler(rpc, key, Stage.Swept(s.clock)), confirmed, outcome);
  }

  // So does an attach that succeeds, and one that fails leaves the books alone; a handler of another
  // kind only holds its key for a while.
  lemma OthersAlone(s: State, t: Tid, key: BreakerKey, ok: bool)
    requires t !in s.running && key.String() !in s.inFlight
    ensures Next(Next(Next(s, Insert(t, Publish, key)), AttachAnswer(t, ok)), Release(t)) ==
            if ok then s.(detach := AfterClear(AfterSweep(s.detach, s.clock), key)) else s
    ensures Next(Next(s, Insert(t, Other, key)), Release(t)) == s
  {
    var h := Handler(Publish, key, Started);
    var b := if ok then AfterClear(AfterSweep(s.detach, s.clock), key) else s.detach;
    Rejoin(s, t, h, Detach, b, Leaving);
    ReleasesAlone(s.(detach := b), t, h.(stage := Leaving));
    assert s.running[t := Handler(Other, key, Started)] - {t} == s.running;
    assert s.inFlight[key.String() := t] - {key.String()} == s.inFlight;
  }

  // ----- Where the agreement ends -----

  lemma RunOne(events: seq<Event>, e: Event)
    ensures Run(events + [e]) == Next(Run(events), e)
  {
    assert (events + [e])[..|events|] == events;
  }

  // A run, and then all steps of one handler.
  function WithHandler(
      events: seq<Event>, t: Tid, rpc: Rpc, key: BreakerKey, confirmed: bool, outcome: Outcome): seq<Event>
  {
    events + [Insert(t, rpc, key)] + [Stamp(t)] + [Sweep(t)] + [Decide(t)] + [ProbeAnswer(t, confirmed)] +
    [AttemptAnswer(t, outcome)] + [Release(t)]
  }

  lemma RunWithHandler(events: seq<Event>, t: Tid, rpc: Rpc, key: BreakerKey, confirmed: bool, outcome: Outcome)
    ensures Run(WithHandler(events, t, rpc, key, confirmed, outcome)) ==
            Finish(Prepare(Run(events), t, rpc, key), t, confirmed, outcome)
  {
    var e1 := events + [Insert(t, rpc, key)];
    var e2 := e1 + [Stamp(t)];
    var e3 := e2 + [Sweep(t)];
    var e4 := e3 + [Decide(t)];
    var e5 := e4 + [ProbeAnswer(t, confirmed)];
    var e6 := e5 + [AttemptAnswer(t, outcome)];
    RunOne(events, Insert(t, rpc, key));
    RunOne(e1, Stamp(t));
    RunOne(e2, Sweep(t));
    RunOne(e3, Decide(t));
    RunOne(e4, ProbeAnswer(t, confirmed));
    RunOne(e5, AttemptAnswer(t, outcome));
    RunOne(e6, Release(t));
  }

  // One operation runs on these pairs only.
  predicate UsesKeys(op: Op, keys: set<BreakerKey>, events: seq<Event>) {
    forall e :: e in events && e.Insert? && OpOf(e.rpc) == op ==> e.key in keys
  }

  // The RPC whose handler attempts an operation.
  function RpcOf(op: Op): Rpc {
    if op.Detach? then Unpublish else DeleteVolume
  }

  // a fails for good; the breaker pauses c as well, and the probe of c succeeds.
  function TwoHandlers(op: Op, a: BreakerKey, c: BreakerKey): seq<Event> {
    WithHandler(WithHandler([], 0, RpcOf(op), a, true, FailedWith(true)), 0, RpcOf(op), c, true, Done)
  }

  lemma CollidingRunDisagrees(op: Op, a: BreakerKey, c: BreakerKey)
    requires a != c && a.String() == c.String()
    ensures !GaugeAgrees(BooksOf(Run(TwoHandlers(op, a, c)), op))
  {
    var first := WithHandler([], 0, RpcOf(op), a, true, FailedWith(true));
    RunWithHandler([], 0, RpcOf(op), a, true, FailedWith(true));
    RunWithHandler(first, 0, RpcOf(op), c, true, Done);
    assert AfterSweep(NO_BOOKS, 0) == NO_BOOKS;
    HandlerAlone(INIT, 0, RpcOf(op), a, true, FailedWith(true));
    HandlerAlone(Run(first), 0, RpcOf(op), c, true, Done);
    TerminalFailureOpens(op, a, c, 0);
    CollidingKeysBreakAgreement(BooksOf(Run(first), op), a, c);
  }

  lemma SeparateKeysAgree(op: Op, keys: set<BreakerKey>, events: seq<Event>)
    requires Separate(keys) && UsesKeys(op, keys, events)
    ensures GaugeAgrees(BooksOf(Run(events), op))
  {
    NamedIffSeparate(keys);
    var names :| AllNamed(names, keys);
    GaugesAndEvents(op, names, events);
  }

  lemma TwoHandlersUseTheirKeys(op: Op, a: BreakerKey, c: BreakerKey, keys: set<BreakerKey>)
    requires a in keys && c in keys
    ensures UsesKeys(op, keys, TwoHandlers(op, a, c))
  {
  }

  // Exactly for pairs of which no two concatenate to one string do all runs keep the gauge in
  // agreement with the breaker.
  lemma AgreementIffSeparate(op: Op, keys: set<BreakerKey>)
    ensures (forall events :: UsesKeys(op, keys, events) ==> GaugeAgrees(BooksOf(Run(events), op))) <==> Separate(keys)
  {
    if Separate(keys) {
      forall events | UsesKeys(op, keys, events)
        ensures GaugeAgrees(BooksOf(Run(events), op))
      {
        SeparateKeysAgree(op, keys, events);
      }
    } else {
      var a, c :| a in keys && c in keys && a.String() == c.String() && a != c;
      CollidingRunDisagrees(op, a, c);
      TwoHandlersUseTheirKeys(op, a, c, keys);
    }
  }
}
