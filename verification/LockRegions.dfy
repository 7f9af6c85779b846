/**
 * The handlers of DetachProtocol once more, with nothing but the lock regions of the source as
 * steps: a breaker and a gauge are two locks, and a handler updates one after the other. What a
 * handler still owes the gauge is part of the state. Agreement then holds up to what is owed; it is
 * stated exactly which steps end it, and for which pairs none does.
 */
module LockRegions {
  import opened Wrappers
  import opened Clock
  import opened FailureLog
  import opened CircuitBreaker
  import opened Bookkeeping
  import P = DetachProtocol

  // What a handler still has to do before its next step of the protocol: read the breaker after
  // a failure, publish a series, drop one, or forget a key (and then drop its series).
  datatype Region = Look(key: BreakerKey, now: Time) | Publish(key: BreakerKey, stuck: Duration)
    | Drop(key: BreakerKey) | Forget(key: BreakerKey)

  datatype State = State(p: P.State, owed: map<P.Tid, seq<Region>>)

  const INIT := State(P.INIT, map[])

  // A step of the protocol, which does at most the first region of any bookkeeping; the region of
  // a sweep that evicts, with the keys in the order it reports them; the next region a handler owes.
  datatype Event = Step(e: P.Event) | Evict(t: P.Tid, order: seq<BreakerKey>) | Do(t: P.Tid)

  function Owing(s: State, t: P.Tid, regions: seq<Region>): State {
    s.(owed := if regions == [] then s.owed - {t} else s.owed[t := regions])
  }

  function WithGauge(p: P.State, op: Op, gauge: map<BreakerKey, Duration>): P.State {
    P.WithBooks(p, op, P.BooksOf(p, op).(gauge := gauge))
  }

  // An attempt that fails, and a probe or an attempt that ends the episode.

  predicate Fails(p: P.State, e: P.Event) {
    e.AttemptAnswer? && e.outcome.FailedWith? && e.t in p.running && p.running[e.t].stage.Attempting?
  }

  predicate Succeeds(p: P.State, e: P.Event) {
    || (e.AttemptAnswer? && e.outcome.Done? && e.t in p.running && p.running[e.t].stage.Attempting?)
    || (e.ProbeAnswer? && e.confirmed && e.t in p.running && p.running[e.t].stage.Probing? &&
        P.OpOf(p.running[e.t].rpc).Detach?)
  }

  // Sweeps and cleared attaches are made of regions below; a handler that owes something waits.
  predicate Plain(s: State, e: P.Event) {
    !e.Sweep? && !(e.AttachAnswer? && e.ok) && (e.Tick? || e.t !in s.owed)
  }

  function StepOf(s: State, e: P.Event): State
    requires Plain(s, e)
  {
    var p := P.Next(s.p, e);
    if !Fails(s.p, e) && !Succeeds(s.p, e) then s.(p := p)
    else
      var h := s.p.running[e.t];
      var op := P.OpOf(h.rpc);
      Owing(s.(p := WithGauge(p, op, P.BooksOf(s.p, op).gauge)), e.t,
            [if Fails(s.p, e) then Look(h.key, h.stage.now) else Drop(h.key)])
  }

  // A detach or delete handler sweeps once it has its timestamp, an attach handler when it is done.
  predicate CanEvict(s: State, t: P.Tid) {
    t in s.p.running && t !in s.owed &&
    (s.p.running[t].stage.Stamped? || (s.p.running[t].rpc.Publish? && s.p.running[t].stage.Started?))
  }

  function SweepTime(s: State, t: P.Tid): Time
    requires t in s.p.running
  {
    if s.p.running[t].stage.Stamped? then s.p.running[t].stage.now else s.p.clock
  }

  // The sweep reports the keys it drops, in any order.
  predicate Reported(s: State, t: P.Tid, order: seq<BreakerKey>)
    requires CanEvict(s, t)
  {
    (set k | k in order) == EvictedKeys(P.BooksOf(s.p, P.OpOf(s.p.running[t].rpc)), SweepTime(s, t))
  }

  function Drops(order: seq<BreakerKey>): (rs: seq<Region>)
    ensures |rs| == |order| && forall i :: 0 <= i < |rs| ==> rs[i] == Drop(order[i])
  {
    seq(|order|, i requires 0 <= i < |order| => Drop(order[i]))
  }

  function EvictOf(s: State, t: P.Tid, order: seq<BreakerKey>): State
    requires CanEvict(s, t)
  {
    var h, now := s.p.running[t], SweepTime(s, t);
    var op := P.OpOf(h.rpc);
    var p := P.Goto(P.WithBooks(s.p, op, HalfSwept(P.BooksOf(s.p, op), now)), t, h, P.Stage.Swept(now));
    Owing(s.(p := p), t, Drops(order) + if h.rpc.Publish? then [Forget(h.key)] else [])
  }

  predicate CanDo(s: State, t: P.Tid) {
    t in s.owed && s.owed[t] != [] && t in s.p.running
  }

  // What a region finds that is left to do: a pair whose breaker is open gets a series, a
  // forgotten pair loses its series.
  function Found(b: Books, r: Region): seq<Region> {
    match r
    case Look(key, now) =>
      var log := LogOf(b.logs, key);
      if Tripped(log) then [Publish(key, now - FirstFailAt(log))] else []
    case Forget(key) => [Drop(key)]
    case _ => []
  }

  function DoOf(s: State, t: P.Tid): State
    requires CanDo(s, t)
  {
    var h, r, rest := s.p.running[t], s.owed[t][0], s.owed[t][1..];
    var op := P.OpOf(h.rpc);
    var b := P.BooksOf(s.p, op);
    var p := match r
             case Look(_, _) => s.p
             case Publish(key, stuck) => WithGauge(s.p, op, b.gauge[key := stuck])
             case Drop(key) => WithGauge(s.p, op, b.gauge - {key})
             case Forget(key) =>
               P.Goto(P.WithBooks(s.p, op, AfterClear(b, key).(gauge := b.gauge)), t, h, P.Leaving);
    Owing(s.(p := p), t, Found(b, r) + rest)
  }

  function Next(s: State, e: Event): State {
    match e
    case Step(pe) => if Plain(s, pe) then StepOf(s, pe) else s
    case Evict(t, order) => if CanEvict(s, t) && Reported(s, t, order) then EvictOf(s, t, order) else s
    case Do(t) => if CanDo(s, t) then DoOf(s, t) else s
  }

  // ----- What is owed -----

  // t works for an operation.
  predicate Works(s: State, t: P.Tid, op: Op) {
    t in s.owed && t in s.p.running && P.OpOf(s.p.running[t].rpc) == op
  }

  predicate Owes(s: State, op: Op, t: P.Tid, r: Region) {
    Works(s, t, op) && r in s.owed[t]
  }

  ghost predicate OwesDrop(op: Op, s: State, k: BreakerKey) {
    exists t :: Owes(s, op, t, Drop(k))
  }

  predicate Publishes(r: Region, k: BreakerKey) {
    (r.Look? || r.Publish?) && r.key == k
  }

  ghost predicate OwesPublish(op: Op, s: State, k: BreakerKey) {
    exists t, r :: Owes(s, op, t, r) && Publishes(r, k)
  }

  // A series without an open breaker is still going to be dropped, and an open breaker without a
  // series is still going to publish one.
  ghost predicate Covered(op: Op, s: State, k: BreakerKey) {
    var b := P.BooksOf(s.p, op);
    && (k in b.gauge && !Open(b.logs, k) ==> OwesDrop(op, s, k))
    && (k !in b.gauge && Open(b.logs, k) ==> OwesPublish(op, s, k))
  }

  ghost predicate AllCovered(op: Op, s: State) {
    forall k :: Covered(op, s, k)
  }

  ghost predicate WellFormed(op: Op, names: Names, s: State) {
    && WellKeyed(names, P.BooksOf(s.p, op).logs) && P.RunningNamed(op, names, s.p)
    && (forall t :: t in s.owed ==> t in s.p.running && s.owed[t] != [])
    && (forall t, r :: Owes(s, op, t, r) ==> Named(names, r.key))
  }

  // When nobody owes anything, agreement up to what is owed is agreement.
  lemma QuietAgrees(op: Op, s: State)
    requires AllCovered(op, s) && s.owed == map[]
    ensures GaugeAgrees(P.BooksOf(s.p, op))
  {
    forall k: BreakerKey
      ensures k in P.BooksOf(s.p, op).gauge <==> Open(P.BooksOf(s.p, op).logs, k)
    {
      assert Covered(op, s, k);
    }
  }

  // The steps that end it: a series is dropped whose breaker has opened again and whose owner has
  // published already; or one is published whose breaker has been swept, and nobody is left to
  // drop it.
  ghost predicate Breaks(op: Op, s: State, e: Event) {
    e.Do? && Works(s, e.t, op) && s.owed[e.t] != [] &&
    var k, logs := s.owed[e.t][0].key, P.BooksOf(s.p, op).logs;
    match s.owed[e.t][0]
    case Drop(_) => Open(logs, k) && !OwesPublish(op, s, k)
    case Publish(_, _) => !Open(logs, k) && !OwesDrop(op, s, k)
    case _ => false
  }

  // ----- Steps of the protocol -----

  lemma PlainBooks(s: State, e: P.Event, op: Op)
    requires Plain(s, e)
    ensures var b, b' := P.BooksOf(s.p, op), P.BooksOf(StepOf(s, e).p, op);
            && b'.gauge == b.gauge
            && b'.logs == (
                 if Fails(s.p, e) && P.OpOf(s.p.running[e.t].rpc) == op then
                   Failed(b.logs, s.p.running[e.t].key, Failure(e.outcome.terminal, s.p.running[e.t].stage.now))
                 else if Succeeds(s.p, e) && P.OpOf(s.p.running[e.t].rpc) == op then
                   Cleared(b.logs, s.p.running[e.t].key)
                 else b.logs)
  {
  }

  lemma PlainOwed(s: State, e: P.Event)
    requires Plain(s, e)
    ensures var s' := StepOf(s, e);
            if Fails(s.p, e) then s'.owed == s.owed[e.t := [Look(s.p.running[e.t].key, s.p.running[e.t].stage.now)]]
            else if Succeeds(s.p, e) then s'.owed == s.owed[e.t := [Drop(s.p.running[e.t].key)]]
            else s'.owed == s.owed
  {
  }

  // The handlers that run keep RPC and key, but for a new one and for one that leaves.
  lemma PlainRunning(s: State, e: P.Event, t: P.Tid)
    requires Plain(s, e)
    ensures t in s.p.running && (t in s.owed || Fails(s.p, e) || Succeeds(s.p, e)) ==> t in StepOf(s, e).p.running
    ensures t in StepOf(s, e).p.running ==>
              if t in s.p.running then
                && StepOf(s, e).p.running[t].rpc == s.p.running[t].rpc
                && StepOf(s, e).p.running[t].key == s.p.running[t].key
              else e.Insert? && StepOf(s, e).p.running[t] == P.Handler(e.rpc, e.key, P.Started)
  {
    if t in P.Next(s.p, e).running {
      P.HandlersStep(s.p, e, t);
    }
  }

  // What was owed before a plain step is owed after it.
  lemma PlainKeepsOwed(op: Op, s: State, e: P.Event, t: P.Tid, r: Region)
    requires Plain(s, e) && Owes(s, op, t, r)
    ensures Owes(StepOf(s, e), op, t, r)
  {
    PlainOwed(s, e);
    PlainRunning(s, e, t);
  }

  lemma FailureOwes(op: Op, s: State, e: P.Event)
    requires Plain(s, e) && Fails(s.p, e) && P.OpOf(s.p.running[e.t].rpc) == op
    ensures OwesPublish(op, StepOf(s, e), s.p.running[e.t].key)
  {
    var h := s.p.running[e.t];
    PlainOwed(s, e);
    PlainRunning(s, e, e.t);
    assert Owes(StepOf(s, e), op, e.t, Look(h.key, h.stage.now));
  }

  lemma SuccessOwes(op: Op, s: State, e: P.Event)
    requires Plain(s, e) && !Fails(s.p, e) && Succeeds(s.p, e) && P.OpOf(s.p.running[e.t].rpc) == op
    ensures OwesDrop(op, StepOf(s, e), s.p.running[e.t].key)
  {
    PlainOwed(s, e);
    PlainRunning(s, e, e.t);
    assert Owes(StepOf(s, e), op, e.t, Drop(s.p.running[e.t].key));
  }

  // The breaker on a pair, after a failure or a clear of a named pair.

  lemma OpenStaysOpen(names: Names, logs: Logs, key: BreakerKey, f: Failure, k: BreakerKey)
    requires Named(names, key) && WellKeyed(names, logs)
    ensures Open(logs, k) ==> Open(Failed(logs, key, f), k)
    ensures k != key ==> (Open(logs, k) <==> Open(Failed(logs, key, f), k))
  {
    OpenAfterFailure(names, logs, key, f, k);
    AppendFailure(LogOf(logs, key), f);
  }

  lemma OpenAfterClear(names: Names, logs: Logs, key: BreakerKey, k: BreakerKey)
    requires Named(names, key) && WellKeyed(names, logs)
    ensures Open(Cleared(logs, key), k) <==> k != key && Open(logs, k)
  {
  }

  lemma PlainKeepsCovered(op: Op, names: Names, s: State, e: P.Event, k: BreakerKey)
    requires WellFormed(op, names, s) && Covered(op, s, k) && Plain(s, e)
    ensures Covered(op, StepOf(s, e), k)
  {
    PlainBooks(s, e, op);
    forall t, r | Owes(s, op, t, r)
      ensures Owes(StepOf(s, e), op, t, r)
    {
      PlainKeepsOwed(op, s, e, t, r);
    }
    var b := P.BooksOf(s.p, op);
    if Fails(s.p, e) && P.OpOf(s.p.running[e.t].rpc) == op {
      var h := s.p.running[e.t];
      OpenStaysOpen(names, b.logs, h.key, Failure(e.outcome.terminal, h.stage.now), k);
      FailureOwes(op, s, e);
    } else if Succeeds(s.p, e) && P.OpOf(s.p.running[e.t].rpc) == op {
      OpenAfterClear(names, b.logs, s.p.running[e.t].key, k);
      SuccessOwes(op, s, e);
    }
  }

  lemma PlainKeepsForm(op: Op, names: Names, s: State, e: P.Event)
    requires WellFormed(op, names, s) && Plain(s, e)
    requires e.Insert? && P.OpOf(e.rpc) == op ==> Named(names, e.key)
    ensures WellFormed(op, names, StepOf(s, e))
  {
    var s' := StepOf(s, e);
    PlainBooks(s, e, op);
    PlainOwed(s, e);
    forall t | t in s'.owed
      ensures t in s'.p.running && s'.owed[t] != []
    {
      PlainRunning(s, e, t);
    }
    forall t | t in s'.p.running && P.OpOf(s'.p.running[t].rpc) == op
      ensures Named(names, s'.p.running[t].key)
    {
      PlainRunning(s, e, t);
    }
    forall t, r | Owes(s', op, t, r)
      ensures Named(names, r.key)
    {
      PlainRunning(s, e, t);
      if t in s.owed {
        assert Owes(s, op, t, r);
      }
    }
  }

  // ----- Sweeps -----

  lemma EvictFacts(s: State, t: P.Tid, order: seq<BreakerKey>, op: Op)
    requires CanEvict(s, t)
    ensures var s', h, now := EvictOf(s, t, order), s.p.running[t], SweepTime(s, t);
            && P.BooksOf(s'.p, op) ==
               (if P.OpOf(h.rpc) == op then HalfSwept(P.BooksOf(s.p, op), now) else P.BooksOf(s.p, op))
            && s'.p.running == s.p.running[t := h.(stage := P.Stage.Swept(now))] && s'.p.inFlight == s.p.inFlight
            && (forall u :: u in s.owed ==> u in s'.owed && s'.owed[u] == s.owed[u])
            && (forall u :: u in s'.owed ==> u in s.owed || (u == t && s'.owed[u] != []))
            && (forall k :: k in order ==> t in s'.owed && Drop(k) in s'.owed[t])
            && (forall r :: t in s'.owed && r in s'.owed[t] ==> r.key in order || r.key == h.key)
  {
    var rs := Drops(order) + if s.p.running[t].rpc.Publish? then [Forget(s.p.running[t].key)] else [];
    forall k | k in order
      ensures rs != [] && Drop(k) in rs
    {
      var i :| 0 <= i < |order| && order[i] == k;
      assert rs[i] == Drop(k);
    }
  }

  lemma EvictKeepsOwed(op: Op, s: State, t: P.Tid, order: seq<BreakerKey>, u: P.Tid, r: Region)
    requires CanEvict(s, t) && Owes(s, op, u, r)
    ensures Owes(EvictOf(s, t, order), op, u, r)
  {
    EvictFacts(s, t, order, op);
  }

  // A swept breaker is closed, and its series reported.
  lemma OpenAfterSweep(b: Books, now: Time, k: BreakerKey)
    ensures Open(Swept(b.logs, now), k) ==> Open(b.logs, k)
    ensures Open(b.logs, k) && !Open(Swept(b.logs, now), k) ==> k in EvictedKeys(b, now)
  {
    if Open(b.logs, k) && !Open(Swept(b.logs, now), k) {
      assert k.String() in StaleKeys(b.logs, now) && b.logs[k.String()].key == k;
    }
  }

  lemma EvictKeepsCovered(op: Op, s: State, t: P.Tid, order: seq<BreakerKey>, k: BreakerKey)
    requires Covered(op, s, k) && CanEvict(s, t) && Reported(s, t, order)
    ensures Covered(op, EvictOf(s, t, order), k)
  {
    var s', b := EvictOf(s, t, order), P.BooksOf(s.p, op);
    EvictFacts(s, t, order, op);
    forall u, r | Owes(s, op, u, r)
      ensures Owes(s', op, u, r)
    {
      EvictKeepsOwed(op, s, t, order, u, r);
    }
    if P.OpOf(s.p.running[t].rpc) == op {
      OpenAfterSweep(b, SweepTime(s, t), k);
      if Open(b.logs, k) && !Open(Swept(b.logs, SweepTime(s, t)), k) {
        assert k in set x | x in order;
        assert Owes(s', op, t, Drop(k));
      }
    }
  }

  lemma EvictKeepsForm(op: Op, names: Names, s: State, t: P.Tid, order: seq<BreakerKey>)
    requires WellFormed(op, names, s) && CanEvict(s, t) && Reported(s, t, order)
    ensures WellFormed(op, names, EvictOf(s, t, order))
  {
    var s', b := EvictOf(s, t, order), P.BooksOf(s.p, op);
    EvictFacts(s, t, order, op);
    forall u, r | Owes(s', op, u, r)
      ensures Named(names, r.key)
    {
      if u in s.owed {
        assert Owes(s, op, u, r);
      } else if r.key in order {
        assert r.key in set x | x in order;
        assert r.key in EvictedKeys(b, SweepTime(s, t));
      }
    }
  }

  // ----- The regions that are owed -----

  // Everything else stays owed, and so does what the region found.
  lemma DoOwed(s: State, t: P.Tid)
    requires CanDo(s, t)
    ensures var s', rs := DoOf(s, t), Found(P.BooksOf(s.p, P.OpOf(s.p.running[t].rpc)), s.owed[t][0]) + s.owed[t][1..];
            && (forall u :: u in s'.owed <==> if u == t then rs != [] else u in s.owed)
            && (forall u :: u in s'.owed ==> s'.owed[u] == if u == t then rs else s.owed[u])
  {
  }

  // Nobody leaves, and nobody's pair changes.
  lemma DoRunning(s: State, t: P.Tid)
    requires CanDo(s, t)
    ensures var s' := DoOf(s, t);
            && s'.p.running.Keys == s.p.running.Keys && s'.p.inFlight == s.p.inFlight
            && (forall u :: u in s.p.running ==>
                  s'.p.running[u].rpc == s.p.running[u].rpc && s'.p.running[u].key == s.p.running[u].key)
  {
  }

  lemma DoBooks(s: State, t: P.Tid, op: Op)
    requires CanDo(s, t)
    ensures var b, b', r := P.BooksOf(s.p, op), P.BooksOf(DoOf(s, t).p, op), s.owed[t][0];
            var mine := P.OpOf(s.p.running[t].rpc) == op;
            && b'.logs == (if mine && r.Forget? then Cleared(b.logs, r.key) else b.logs)
            && b'.gauge == (if mine && r.Publish? then b.gauge[r.key := r.stuck]
                            else if mine && r.Drop? then b.gauge - {r.key} else b.gauge)
  {
  }

  // A region is owed after the next one of t exactly if it was owed before, and is not that one,
  // or is found by it.
  lemma DoOwes(s: State, t: P.Tid, op: Op, u: P.Tid, q: Region)
    requires CanDo(s, t)
    ensures var r, rest, b := s.owed[t][0], s.owed[t][1..], P.BooksOf(s.p, P.OpOf(s.p.running[t].rpc));
            Owes(DoOf(s, t), op, u, q) <==>
            if u == t then Works(s, t, op) && (q in rest || q in Found(b, r)) else Owes(s, op, u, q)
  {
    DoOwed(s, t);
    DoRunning(s, t);
  }

  // Only the drop itself ends a drop that is owed, and only forgetting a pair starts one.
  lemma DoOwesDrop(op: Op, s: State, t: P.Tid, k: BreakerKey)
    requires CanDo(s, t)
    ensures var r := s.owed[t][0];
            && (OwesDrop(op, s, k) && !(Works(s, t, op) && r == Drop(k)) ==> OwesDrop(op, DoOf(s, t), k))
            && (OwesDrop(op, DoOf(s, t), k) ==> OwesDrop(op, s, k) || (Works(s, t, op) && r == Forget(k)))
            && (Works(s, t, op) && r == Forget(k) ==> OwesDrop(op, DoOf(s, t), k))
  {
    var s', r := DoOf(s, t), s.owed[t][0];
    forall u
      ensures Owes(s', op, u, Drop(k)) ==> Owes(s, op, u, Drop(k)) || (Works(s, t, op) && r == Forget(k))
      ensures Owes(s, op, u, Drop(k)) && !(Works(s, t, op) && r == Drop(k)) ==> Owes(s', op, u, Drop(k))
    {
      DoOwes(s, t, op, u, Drop(k));
    }
    DoOwes(s, t, op, t, Drop(k));
  }

  // A publication that is owed is made, or turns out to have nothing to publish.
  lemma DoOwesPublish(op: Op, s: State, t: P.Tid, k: BreakerKey)
    requires CanDo(s, t)
    ensures var r, b := s.owed[t][0], P.BooksOf(s.p, op);
            && (OwesPublish(op, s, k) && !(Works(s, t, op) && Publishes(r, k)) ==> OwesPublish(op, DoOf(s, t), k))
            && (Works(s, t, op) && Publishes(r, k) && r.Look? && Tripped(LogOf(b.logs, k)) ==>
                  OwesPublish(op, DoOf(s, t), k))
            && (OwesPublish(op, DoOf(s, t), k) ==> OwesPublish(op, s, k))
  {
    var s', r, b := DoOf(s, t), s.owed[t][0], P.BooksOf(s.p, P.OpOf(s.p.running[t].rpc));
    if u, q :| Owes(s, op, u, q) && Publishes(q, k) && !(Works(s, t, op) && Publishes(r, k)) {
      DoOwes(s, t, op, u, q);
      assert Owes(s', op, u, q);
    }
    if u, q :| Owes(s', op, u, q) && Publishes(q, k) {
      DoOwes(s, t, op, u, q);
      if u == t && q in Found(b, r) {
        assert Owes(s, op, t, r) && Publishes(r, k);
      } else {
        assert Owes(s, op, u, q);
      }
    }
    if Works(s, t, op) && Publishes(r, k) && r.Look? && Tripped(LogOf(b.logs, k)) {
      var q := Publish(k, r.now - FirstFailAt(LogOf(b.logs, k)));
      DoOwes(s, t, op, t, q);
      assert Owes(s', op, t, q);
    }
  }

  lemma DoKeepsCovered(op: Op, names: Names, s: State, t: P.Tid, k: BreakerKey)
    requires WellFormed(op, names, s) && CanDo(s, t) && Covered(op, s, k)
    ensures Covered(op, DoOf(s, t), k) <==> !(Breaks(op, s, Do(t)) && s.owed[t][0].key == k)
  {
    var b, r := P.BooksOf(s.p, op), s.owed[t][0];
    DoBooks(s, t, op);
    DoOwesDrop(op, s, t, k);
    DoOwesPublish(op, s, t, k);
    if Works(s, t, op) {
      assert Owes(s, op, t, r);
      OpenAfterClear(names, b.logs, r.key, k);
    }
  }

  lemma DoKeepsForm(op: Op, names: Names, s: State, t: P.Tid)
    requires WellFormed(op, names, s) && CanDo(s, t)
    ensures WellFormed(op, names, DoOf(s, t))
  {
    var s' := DoOf(s, t);
    DoOwed(s, t);
    DoRunning(s, t);
    DoBooks(s, t, op);
    forall u, q | Owes(s', op, u, q)
      ensures Named(names, q.key)
    {
      DoOwes(s, t, op, u, q);
      assert u == t ==> Owes(s, op, t, s.owed[t][0]);
      assert Owes(s, op, u, q) || q.key == s.owed[t][0].key;
    }
  }

  // ----- Exactly which steps, and which runs -----

  predicate NamesKey(op: Op, names: Names, e: Event) {
    e.Step? && e.e.Insert? && P.OpOf(e.e.rpc) == op ==> Named(names, e.e.key)
  }

  lemma NextKeepsForm(op: Op, names: Names, s: State, e: Event)
    requires WellFormed(op, names, s) && NamesKey(op, names, e)
    ensures WellFormed(op, names, Next(s, e))
  {
    match e
    case Step(pe) => if Plain(s, pe) { PlainKeepsForm(op, names, s, pe); }
    case Evict(t, order) => if CanEvict(s, t) && Reported(s, t, order) { EvictKeepsForm(op, names, s, t, order); }
    case Do(t) => if CanDo(s, t) { DoKeepsForm(op, names, s, t); }
  }

  // A pair stays covered under every step but one that breaks it.
  lemma NextKeepsCovered(op: Op, names: Names, s: State, e: Event, k: BreakerKey)
    requires WellFormed(op, names, s) && Covered(op, s, k)
    ensures Covered(op, Next(s, e), k) <==> !(Breaks(op, s, e) && s.owed[e.t][0].key == k)
  {
    match e
    case Step(pe) => if Plain(s, pe) { PlainKeepsCovered(op, names, s, pe, k); }
    case Evict(t, order) => if CanEvict(s, t) && Reported(s, t, order) { EvictKeepsCovered(op, s, t, order, k); }
    case Do(t) => if CanDo(s, t) { DoKeepsCovered(op, names, s, t, k); }
  }

  lemma CoveredIffUnbroken(op: Op, names: Names, s: State, e: Event)
    requires WellFormed(op, names, s) && AllCovered(op, s)
    ensures AllCovered(op, Next(s, e)) <==> !Breaks(op, s, e)
  {
    forall k
      ensures Covered(op, Next(s, e), k) <==> !(Breaks(op, s, e) && s.owed[e.t][0].key == k)
    {
      NextKeepsCovered(op, names, s, e, k);
    }
    if Breaks(op, s, e) {
      assert !Covered(op, Next(s, e), s.owed[e.t][0].key);
    }
  }

  function Run(events: seq<Event>): State {
    if events == [] then INIT else Next(Run(events[..|events| - 1]), events[|events| - 1])
  }

  // Every pair a run mentions for the operation is named, so no two of them collide.
  predicate KeysNamed(op: Op, names: Names, events: seq<Event>) {
    forall e :: e in events ==> NamesKey(op, names, e)
  }

  ghost predicate NeverBreaks(op: Op, events: seq<Event>) {
    forall i :: 0 <= i < |events| ==> !Breaks(op, Run(events[..i]), events[i])
  }

  ghost predicate StaysCovered(op: Op, events: seq<Event>) {
    forall i :: 0 <= i <= |events| ==> AllCovered(op, Run(events[..i]))
  }

  lemma {:induction false} RunIsWellFormed(op: Op, names: Names, events: seq<Event>)
    requires KeysNamed(op, names, events)
    ensures WellFormed(op, names, Run(events))
  {
    if events != [] {
      var before := events[..|events| - 1];
      RunIsWellFormed(op, names, before);
      NextKeepsForm(op, names, Run(before), events[|events| - 1]);
    }
  }

  lemma RunStep(events: seq<Event>, i: nat)
    requires i < |events|
    ensures Run(events[..i + 1]) == Next(Run(events[..i]), events[i])
  {
    assert events[..i + 1][..i] == events[..i];
  }

  // In every run of pairs that do not collide, in which the lock regions of any number of handlers
  // interleave as they like, gauge and breaker agree up to what is owed throughout exactly if no
  // step of the run is one that breaks it ...
  lemma CoveredIffNothingBreaks(op: Op, names: Names, events: seq<Event>)
    requires KeysNamed(op, names, events)
    ensures StaysCovered(op, events) <==> NeverBreaks(op, events)
  {
    if StaysCovered(op, events) {
      forall i | 0 <= i < |events|
        ensures !Breaks(op, Run(events[..i]), events[i])
      {
        RunIsWellFormed(op, names, events[..i]);
        RunStep(events, i);
        CoveredIffUnbroken(op, names, Run(events[..i]), events[i]);
      }
    }
    if NeverBreaks(op, events) {
      forall i | 0 <= i <= |events|
        ensures AllCovered(op, Run(events[..i]))
      {
        UnbrokenIsCovered(op, names, events, i);
      }
    }
  }

  lemma {:induction false} UnbrokenIsCovered(op: Op, names: Names, events: seq<Event>, i: nat)
    requires KeysNamed(op, names, events) && NeverBreaks(op, events) && i <= |events|
    ensures AllCovered(op, Run(events[..i]))
  {
    if i > 0 {
      UnbrokenIsCovered(op, names, events, i - 1);
      RunIsWellFormed(op, names, events[..i - 1]);
      RunStep(events, i - 1);
      CoveredIffUnbroken(op, names, Run(events[..i - 1]), events[i - 1]);
    }
  }

  // ... and then they agree whenever nobody owes anything.
  lemma AgreesWhenQuiet(op: Op, names: Names, events: seq<Event>)
    requires KeysNamed(op, names, events) && NeverBreaks(op, events) && Run(events).owed == map[]
    ensures GaugeAgrees(P.BooksOf(Run(events).p, op))
  {
    UnbrokenIsCovered(op, names, events, |events|);
    assert events[..|events|] == events;
    QuietAgrees(op, Run(events));
  }

  // ----- Handlers that are not disturbed -----

  function Actor(e: Event): Option<P.Tid> {
    match e
    case Step(pe) => if pe.Tick? then None else Some(pe.t)
    case Evict(t, _) => Some(t)
    case Do(t) => Some(t)
  }

  // No handler of the operation acts while another one of it owes something.
  ghost predicate Undisturbed(op: Op, s: State, e: Event) {
    var actor := Actor(e);
    actor.Some? && actor.value in s.p.running && P.OpOf(s.p.running[actor.value].rpc) == op ==>
      forall t :: Works(s, t, op) ==> actor.value == t
  }

  ghost predicate AllUndisturbed(op: Op, events: seq<Event>) {
    forall i :: 0 <= i < |events| ==> Undisturbed(op, Run(events[..i]), events[i])
  }

  // One handler at a time owes something. No drop is owed for an open breaker and no series for a
  // closed one, and whoever owes a series owes nothing else.
  ghost predicate Settled(op: Op, s: State) {
    && (forall t, u :: Works(s, t, op) && Works(s, u, op) ==> t == u)
    && (forall t, r :: Owes(s, op, t, r) ==> Fits(r, P.BooksOf(s.p, op).logs, s.owed[t]))
  }

  predicate Fits(r: Region, logs: Logs, rs: seq<Region>) {
    && (r.Drop? ==> !Open(logs, r.key))
    && (r.Publish? ==> Open(logs, r.key))
    && (r.Look? || r.Publish? ==> rs == [r])
  }

  // Who owes something for the operation after a plain step: whoever did, or the handler that
  // failed or succeeded.
  lemma PlainWorks(op: Op, s: State, e: P.Event, t: P.Tid)
    requires Plain(s, e) && Works(StepOf(s, e), t, op)
    requires forall u :: u in s.owed ==> u in s.p.running
    ensures var mine := (Fails(s.p, e) || Succeeds(s.p, e)) && t == e.t;
            if mine then P.OpOf(s.p.running[t].rpc) == op && |StepOf(s, e).owed[t]| == 1
            else Works(s, t, op) && StepOf(s, e).owed[t] == s.owed[t]
  {
    PlainOwed(s, e);
    PlainRunning(s, e, t);
  }

  lemma PlainKeepsSettled(op: Op, names: Names, s: State, e: P.Event)
    requires WellFormed(op, names, s) && Settled(op, s) && Plain(s, e) && Undisturbed(op, s, Step(e))
    ensures Settled(op, StepOf(s, e))
  {
    var s' := StepOf(s, e);
    PlainOwed(s, e);
    PlainBooks(s, e, op);
    forall t | Works(s', t, op)
      ensures forall u :: Works(s', u, op) ==> t == u
      ensures forall r :: r in s'.owed[t] ==> Fits(r, P.BooksOf(s'.p, op).logs, s'.owed[t])
    {
      PlainWorks(op, s, e, t);
      forall u | Works(s', u, op)
        ensures t == u
      {
        PlainWorks(op, s, e, u);
      }
      forall r | r in s'.owed[t]
        ensures Fits(r, P.BooksOf(s'.p, op).logs, s'.owed[t])
      {
        assert Works(s, t, op) ==> Owes(s, op, t, r);
      }
    }
  }

  lemma EvictKeepsSettled(op: Op, names: Names, s: State, t: P.Tid, order: seq<BreakerKey>)
    requires WellFormed(op, names, s) && Settled(op, s) && CanEvict(s, t) && Reported(s, t, order)
    requires Undisturbed(op, s, Evict(t, order))
    ensures Settled(op, EvictOf(s, t, order))
  {
    var s', b := EvictOf(s, t, order), P.BooksOf(s.p, op);
    EvictFacts(s, t, order, op);
    assert forall u :: Works(s', u, op) && u != t ==> Works(s, u, op);
    forall u, r | Owes(s', op, u, r)
      ensures Fits(r, P.BooksOf(s'.p, op).logs, s'.owed[u])
    {
      if u != t {
        assert Owes(s, op, u, r);
      } else if r.Drop? {
        assert r.key in set k | k in order;
        assert r.key in EvictedKeys(b, SweepTime(s, t));
      }
    }
  }

  lemma DoKeepsSettled(op: Op, names: Names, s: State, t: P.Tid)
    requires WellFormed(op, names, s) && Settled(op, s) && CanDo(s, t) && Undisturbed(op, s, Do(t))
    ensures Settled(op, DoOf(s, t))
  {
    var s', b := DoOf(s, t), P.BooksOf(s.p, op);
    DoOwed(s, t);
    DoRunning(s, t);
    DoBooks(s, t, op);
    assert forall u :: Works(s', u, op) ==> Works(s, u, op);
    forall u, q | Owes(s', op, u, q)
      ensures Fits(q, P.BooksOf(s'.p, op).logs, s'.owed[u])
    {
      DoOwes(s, t, op, u, q);
      if u != t {
        assert Owes(s, op, u, q);
      } else {
        assert Owes(s, op, t, s.owed[t][0]);
        assert q in s.owed[t][1..] ==> Owes(s, op, t, q);
      }
    }
  }

  lemma SettledIsUnbroken(op: Op, s: State, e: Event)
    requires Settled(op, s)
    ensures !Breaks(op, s, e)
  {
    if e.Do? && Works(s, e.t, op) && s.owed[e.t] != [] {
      assert Owes(s, op, e.t, s.owed[e.t][0]);
    }
  }

  lemma NextKeepsSettled(op: Op, names: Names, s: State, e: Event)
    requires WellFormed(op, names, s) && Settled(op, s) && Undisturbed(op, s, e)
    ensures Settled(op, Next(s, e))
  {
    match e
    case Step(pe) => if Plain(s, pe) { PlainKeepsSettled(op, names, s, pe); }
    case Evict(t, order) => if CanEvict(s, t) && Reported(s, t, order) { EvictKeepsSettled(op, names, s, t, order); }
    case Do(t) => if CanDo(s, t) { DoKeepsSettled(op, names, s, t); }
  }

  lemma {:induction false} UndisturbedIsSettled(op: Op, names: Names, events: seq<Event>, i: nat)
    requires KeysNamed(op, names, events) && AllUndisturbed(op, events) && i <= |events|
    ensures Settled(op, Run(events[..i]))
  {
    if i > 0 {
      UndisturbedIsSettled(op, names, events, i - 1);
      RunIsWellFormed(op, names, events[..i - 1]);
      RunStep(events, i - 1);
      NextKeepsSettled(op, names, Run(events[..i - 1]), events[i - 1]);
    }
  }

  // When no handler of the operation acts while another one of it has not finished its
  // bookkeeping, nothing breaks.
  lemma UndisturbedNeverBreaks(op: Op, names: Names, events: seq<Event>)
    requires KeysNamed(op, names, events) && AllUndisturbed(op, events)
    ensures NeverBreaks(op, events)
  {
    forall i | 0 <= i < |events|
      ensures !Breaks(op, Run(events[..i]), events[i])
    {
      UndisturbedIsSettled(op, names, events, i);
      SettledIsUnbroken(op, Run(events[..i]), events[i]);
    }
  }

  // ----- One pair alone -----

  lemma NextKeepsExclusion(s: State, e: Event)
    requires P.Exclusive(s.p)
    ensures P.Exclusive(Next(s, e).p)
  {
    match e
    case Step(pe) => P.NextKeepsExclusion(s.p, pe);
    case Evict(t, order) => if CanEvict(s, t) && Reported(s, t, order) { EvictFacts(s, t, order, Detach); }
    case Do(t) => if CanDo(s, t) { DoRunning(s, t); }
  }

  lemma {:induction false} RunIsExclusive(events: seq<Event>)
    ensures P.Exclusive(Run(events).p)
  {
    if events != [] {
      RunIsExclusive(events[..|events| - 1]);
      NextKeepsExclusion(Run(events[..|events| - 1]), events[|events| - 1]);
    }
  }

  // Handlers of one pair keep out of each other's way: they take one in-flight key.
  lemma AloneIsUndisturbed(op: Op, a: BreakerKey, events: seq<Event>)
    requires KeysNamed(op, map[a.String() := a], events)
    ensures AllUndisturbed(op, events)
  {
    forall i | 0 <= i < |events|
      ensures Undisturbed(op, Run(events[..i]), events[i])
    {
      RunIsExclusive(events[..i]);
      RunIsWellFormed(op, map[a.String() := a], events[..i]);
    }
  }

  // ----- Runs that break it -----

  // One more handler, whose books of its operation are b and who owes rs.
  function Joined(s: State, t: P.Tid, op: Op, key: BreakerKey, stage: P.Stage, b: Books, rs: seq<Region>): State {
    Owing(s.(p := P.Joined(P.WithBooks(s.p, op, b), t, P.Handler(P.RpcOf(op), key, stage))), t, rs)
  }

  function Prepare(s: State, t: P.Tid, op: Op, key: BreakerKey, order: seq<BreakerKey>): State {
    Next(Next(Next(s, Step(P.Insert(t, P.RpcOf(op), key))), Step(P.Stamp(t))), Evict(t, order))
  }

  // A detach or delete that the IaaS refuses for good.
  function Fail(s: State, t: P.Tid): State {
    Next(Next(s, Step(P.Decide(t))), Step(P.AttemptAnswer(t, P.FailedWith(true))))
  }

  predicate Free(s: State, t: P.Tid, key: BreakerKey) {
    t !in s.p.running && key.String() !in s.p.inFlight && t !in s.owed
  }

  lemma Prepares(s: State, t: P.Tid, op: Op, key: BreakerKey, order: seq<BreakerKey>)
    requires Free(s, t, key) && (set k | k in order) == EvictedKeys(P.BooksOf(s.p, op), s.p.clock)
    ensures var b, now := P.BooksOf(s.p, op), s.p.clock;
            Prepare(s, t, op, key, order) == Joined(s, t, op, key, P.Stage.Swept(now), HalfSwept(b, now), Drops(order))
  {
    var b, h := P.BooksOf(s.p, op), P.Handler(P.RpcOf(op), key, P.Started);
    P.Rejoin(s.p, t, h, op, b, P.Stamped(s.p.clock));
    P.Rejoin(s.p, t, h.(stage := P.Stamped(s.p.clock)), op, HalfSwept(b, s.p.clock), P.Stage.Swept(s.p.clock));
    assert Drops(order) + [] == Drops(order);
  }

  lemma FailsAlone(s: State, t: P.Tid, op: Op, key: BreakerKey, b: Books, now: Time)
    requires Free(s, t, key) && !Paused(b.logs, key, now)
    ensures var b' := AfterFailure(op, b, key, Failure(true, now)).(gauge := b.gauge);
            Fail(Joined(s, t, op, key, P.Stage.Swept(now), b, []), t) ==
            Joined(s, t, op, key, P.Leaving, b', [Look(key, now)])
  {
    P.DecidesAlone(P.WithBooks(s.p, op, b), t, P.Handler(P.RpcOf(op), key, P.Stage.Swept(now)));
    AnswersAlone(s, t, op, key, b, now);
  }

  lemma AnswersAlone(s: State, t: P.Tid, op: Op, key: BreakerKey, b: Books, now: Time)
    requires Free(s, t, key)
    ensures var b' := AfterFailure(op, b, key, Failure(true, now)).(gauge := b.gauge);
            Next(Joined(s, t, op, key, P.Attempting(now, s.p.clock), b, []),
                 Step(P.AttemptAnswer(t, P.FailedWith(true)))) ==
            Joined(s, t, op, key, P.Leaving, b', [Look(key, now)])
  {
    var p, b' := P.WithBooks(s.p, op, b), AfterFailure(op, b, key, Failure(true, now));
    P.Rejoin(p, t, P.Handler(P.RpcOf(op), key, P.Attempting(now, s.p.clock)), op, b', P.Leaving);
  }

  // What a region does to the gauge.
  function GaugeAfter(b: Books, r: Region): Books {
    match r
    case Publish(key, stuck) => b.(gauge := b.gauge[key := stuck])
    case Drop(key) => b.(gauge := b.gauge - {key})
    case _ => b
  }

  lemma Reowes(s: State, t: P.Tid, rs: seq<Region>, rs': seq<Region>)
    requires t !in s.owed && rs != []
    ensures Owing(Owing(s, t, rs), t, rs') == Owing(s, t, rs')
  {
    assert s.owed[t := rs] - {t} == s.owed == s.owed - {t};
    assert s.owed[t := rs][t := rs'] == s.owed[t := rs'];
  }

  // The region, as a step of the handler alone.
  lemma DoesRegion(s: State, t: P.Tid, op: Op, key: BreakerKey, stage: P.Stage, b: Books, r: Region)
    requires Free(s, t, key) && !r.Forget?
    ensures var h := P.Handler(P.RpcOf(op), key, stage);
            Next(Joined(s, t, op, key, stage, b, [r]), Do(t)) ==
            Owing(Joined(s, t, op, key, stage, b, [r]).(p := P.Joined(P.WithBooks(s.p, op, GaugeAfter(b, r)), t, h)),
                  t, Found(b, r))
  {
    P.Rejoin(P.WithBooks(s.p, op, b), t, P.Handler(P.RpcOf(op), key, stage), op, GaugeAfter(b, r), stage);
    assert Found(b, r) + [] == Found(b, r);
  }

  lemma DoesAlone(s: State, t: P.Tid, op: Op, key: BreakerKey, stage: P.Stage, b: Books, r: Region)
    requires Free(s, t, key) && !r.Forget?
    ensures Next(Joined(s, t, op, key, stage, b, [r]), Do(t)) ==
            Joined(s, t, op, key, stage, GaugeAfter(b, r), Found(b, r))
  {
    var h := P.Handler(P.RpcOf(op), key, stage);
    DoesRegion(s, t, op, key, stage, b, r);
    Reowes(s.(p := P.Joined(P.WithBooks(s.p, op, GaugeAfter(b, r)), t, h)), t, [r], Found(b, r));
  }

  lemma ReleasesAlone(s: State, t: P.Tid, op: Op, key: BreakerKey, b: Books)
    requires Free(s, t, key)
    ensures Next(Joined(s, t, op, key, P.Leaving, b, []), Step(P.Release(t))) == s.(p := P.WithBooks(s.p, op, b))
  {
    P.ReleasesAlone(P.WithBooks(s.p, op, b), t, P.Handler(P.RpcOf(op), key, P.Leaving));
  }

  // All regions of a handler whose detach or delete fails for good, in a row.
  function Failing(s: State, t: P.Tid, op: Op, key: BreakerKey): State {
    Next(Next(Next(Fail(Prepare(s, t, op, key, []), t), Do(t)), Do(t)), Step(P.Release(t)))
  }

  // Nothing in between, and it is the failure of the books as one step.
  lemma FailingAlone(s: State, t: P.Tid, op: Op, key: BreakerKey)
    requires Free(s, t, key)
    requires var logs := P.BooksOf(s.p, op).logs;
             StaleKeys(logs, s.p.clock) == {} && !Paused(logs, key, s.p.clock)
    ensures var b := AfterFailure(op, P.BooksOf(s.p, op), key, Failure(true, s.p.clock));
            Failing(s, t, op, key) == s.(p := P.WithBooks(s.p, op, b))
  {
    var b, now := P.BooksOf(s.p, op), s.p.clock;
    AttemptFails(s, t, op, key);
    PublishesAlone(s, t, op, key, b, now);
    ReleasesAlone(s, t, op, key, AfterFailure(op, b, key, Failure(true, now)));
  }

  lemma AttemptFails(s: State, t: P.Tid, op: Op, key: BreakerKey)
    requires Free(s, t, key)
    requires var logs := P.BooksOf(s.p, op).logs;
             StaleKeys(logs, s.p.clock) == {} && !Paused(logs, key, s.p.clock)
    ensures var b, now := P.BooksOf(s.p, op), s.p.clock;
            Fail(Prepare(s, t, op, key, []), t) ==
            Joined(s, t, op, key, P.Leaving, AfterFailure(op, b, key, Failure(true, now)).(gauge := b.gauge),
                   [Look(key, now)])
  {
    var b, now := P.BooksOf(s.p, op), s.p.clock;
    Prepares(s, t, op, key, []);
    assert HalfSwept(b, now) == b;
    FailsAlone(s, t, op, key, b, now);
  }

  // The breaker has the failure, the gauge has not: there is a series to publish, and then the
  // books are those of the whole failure.
  lemma FailureRegions(op: Op, b: Books, key: BreakerKey, now: Time) returns (r: Region)
    ensures r.Publish?
    ensures var b' := AfterFailure(op, b, key, Failure(true, now));
            var failed := b'.(gauge := b.gauge);
            Found(failed, Look(key, now)) == [r] && GaugeAfter(failed, r) == b'
  {
    var log := LogOf(b.logs, key) + [Failure(true, now)];
    LogAfterFailure(b.logs, key, Failure(true, now));
    TrippedIff(log);
    r := Publish(key, now - FirstFailAt(log));
  }

  lemma PublishesAlone(s: State, t: P.Tid, op: Op, key: BreakerKey, b: Books, now: Time)
    requires Free(s, t, key)
    ensures var b' := AfterFailure(op, b, key, Failure(true, now));
            Next(Next(Joined(s, t, op, key, P.Leaving, b'.(gauge := b.gauge), [Look(key, now)]), Do(t)), Do(t)) ==
            Joined(s, t, op, key, P.Leaving, b', [])
  {
    var failed := AfterFailure(op, b, key, Failure(true, now)).(gauge := b.gauge);
    var r := FailureRegions(op, b, key, now);
    DoesAlone(s, t, op, key, P.Leaving, failed, Look(key, now));
    DoesAlone(s, t, op, key, P.Leaving, failed, r);
  }

  lemma RunOne(events: seq<Event>, e: Event)
    ensures Run(events + [e]) == Next(Run(events), e)
  {
    assert (events + [e])[..|events|] == events;
  }

  function WithPrepare(events: seq<Event>, t: P.Tid, op: Op, key: BreakerKey, order: seq<BreakerKey>): seq<Event> {
    events + [Step(P.Insert(t, P.RpcOf(op), key))] + [Step(P.Stamp(t))] + [Evict(t, order)]
  }

  function WithFail(events: seq<Event>, t: P.Tid): seq<Event> {
    events + [Step(P.Decide(t))] + [Step(P.AttemptAnswer(t, P.FailedWith(true)))]
  }

  function WithFailing(events: seq<Event>, t: P.Tid, op: Op, key: BreakerKey): seq<Event> {
    WithFail(WithPrepare(events, t, op, key, []), t) + [Do(t)] + [Do(t)] + [Step(P.Release(t))]
  }

  lemma RunWithPrepare(events: seq<Event>, t: P.Tid, op: Op, key: BreakerKey, order: seq<BreakerKey>)
    ensures Run(WithPrepare(events, t, op, key, order)) == Prepare(Run(events), t, op, key, order)
  {
    var e1 := events + [Step(P.Insert(t, P.RpcOf(op), key))];
    RunOne(events, Step(P.Insert(t, P.RpcOf(op), key)));
    RunOne(e1, Step(P.Stamp(t)));
    RunOne(e1 + [Step(P.Stamp(t))], Evict(t, order));
  }

  lemma RunWithFail(events: seq<Event>, t: P.Tid)
    ensures Run(WithFail(events, t)) == Fail(Run(events), t)
  {
    RunOne(events, Step(P.Decide(t)));
    RunOne(events + [Step(P.Decide(t))], Step(P.AttemptAnswer(t, P.FailedWith(true))));
  }

  lemma RunWithFailing(events: seq<Event>, t: P.Tid, op: Op, key: BreakerKey)
    ensures Run(WithFailing(events, t, op, key)) == Failing(Run(events), t, op, key)
  {
    var e1 := WithPrepare(events, t, op, key, []);
    var e2 := WithFail(e1, t);
    RunWithPrepare(events, t, op, key, []);
    RunWithFail(e1, t);
    RunOne(e2, Do(t));
    RunOne(e2 + [Do(t)], Do(t));
    RunOne(e2 + [Do(t)] + [Do(t)], Step(P.Release(t)));
  }

  // a has failed for good; five hours later a handler of c sweeps the breaker of a ...
  function Forgotten(op: Op, a: BreakerKey, c: BreakerKey): seq<Event> {
    WithPrepare(WithFailing([], 0, op, a) + [Step(P.Tick(300 * MINUTE))], 1, op, c, [a])
  }

  // ... a fails for good again, and only then the handler of c drops the series of a.
  function LostSeries(op: Op, a: BreakerKey, c: BreakerKey): seq<Event> {
    WithFailing(Forgotten(op, a, c), 0, op, a) + [Do(1)]
  }

  // The books of one terminal failure, five hours after it.
  lemma FiveHoursLater(op: Op, a: BreakerKey) returns (b: Books)
    ensures b == AfterFailure(op, NO_BOOKS, a, Failure(true, 0))
    ensures EvictedKeys(b, 300 * MINUTE) == {a} && HalfSwept(b, 300 * MINUTE).logs == map[]
    ensures a in b.gauge
  {
    var k, f := a.String(), Failure(true, 0);
    b := AfterFailure(op, NO_BOOKS, a, f);
    assert TripsAt([f], 0) && b.logs == map[k := Tracked(a, [f])];
    assert TripIndex([f]) == 0 && FailureLog.Step([f]) == 0 && NextAttempt([f]) == 10 * MINUTE;
    assert StaleKeys(b.logs, 300 * MINUTE) == {k};
  }

  // Nobody runs, and op has these books.
  function At(op: Op, b: Books, clock: Time): State {
    State(P.WithBooks(P.INIT.(clock := clock), op, b), map[])
  }

  lemma RunForgotten(op: Op, a: BreakerKey, c: BreakerKey) returns (b: Books)
    ensures b == HalfSwept(AfterFailure(op, NO_BOOKS, a, Failure(true, 0)), 300 * MINUTE) && b.logs == map[]
    ensures Run(Forgotten(op, a, c)) ==
            Joined(At(op, b, 300 * MINUTE), 1, op, c, P.Stage.Swept(300 * MINUTE), b, [Drop(a)])
  {
    var failed := FiveHoursLater(op, a);
    b := HalfSwept(failed, 300 * MINUTE);
    var first := WithFailing([], 0, op, a);
    RunWithFailing([], 0, op, a);
    FailingAlone(INIT, 0, op, a);
    RunOne(first, Step(P.Tick(300 * MINUTE)));
    var s := Run(first + [Step(P.Tick(300 * MINUTE))]);
    assert s == At(op, failed, 300 * MINUTE);
    RunWithPrepare(first + [Step(P.Tick(300 * MINUTE))], 1, op, c, [a]);
    assert (set k | k in [a]) == {a};
    Prepares(s, 1, op, c, [a]);
    assert Drops([a]) == [Drop(a)];
  }

  lemma RunLostSeries(op: Op, a: BreakerKey, c: BreakerKey) returns (b: Books, s: State)
    requires a.String() != c.String()
    ensures b.logs == map[] && s == Joined(At(op, b, 300 * MINUTE), 1, op, c, P.Stage.Swept(300 * MINUTE), b, [Drop(a)])
    ensures var b' := AfterFailure(op, b, a, Failure(true, 300 * MINUTE));
            Run(LostSeries(op, a, c)) == Next(s.(p := P.WithBooks(s.p, op, b')), Do(1))
  {
    b := RunForgotten(op, a, c);
    s := Run(Forgotten(op, a, c));
    RunWithFailing(Forgotten(op, a, c), 0, op, a);
    FailingAlone(s, 0, op, a);
    RunOne(WithFailing(Forgotten(op, a, c), 0, op, a), Do(1));
  }

  // A terminal failure of a pair without an entry opens the breaker on it.
  lemma TerminalOpens(op: Op, b: Books, key: BreakerKey, now: Time)
    requires b.logs == map[]
    ensures Open(AfterFailure(op, b, key, Failure(true, now)).logs, key)
  {
    LogAfterFailure(b.logs, key, Failure(true, now));
    TrippedIff([Failure(true, now)]);
  }

  // The breaker of a is open, nothing is published for it, and nobody will.
  lemma ASweepLosesASeries(op: Op, a: BreakerKey, c: BreakerKey)
    requires a.String() != c.String()
    ensures var s := Run(LostSeries(op, a, c));
            var b := P.BooksOf(s.p, op);
            s.owed == map[] && Open(b.logs, a) && a !in b.gauge && !GaugeAgrees(b)
  {
    var b, s := RunLostSeries(op, a, c);
    var b' := AfterFailure(op, b, a, Failure(true, 300 * MINUTE));
    DoesAlone(At(op, b, 300 * MINUTE), 1, op, c, P.Stage.Swept(300 * MINUTE), b', Drop(a));
    TerminalOpens(op, b, a, 300 * MINUTE);
  }

  // a fails for good, and its handler finds the breaker open; five hours later a handler of c
  // sweeps it and drops the series that is not there yet; only then it is published.
  function LateSeries(op: Op, a: BreakerKey, c: BreakerKey): seq<Event> {
    WithPrepare(LateStart(op, a), 1, op, c, [a]) + [Do(1)] + [Do(0)]
  }

  function LateStart(op: Op, a: BreakerKey): seq<Event> {
    WithFail(WithPrepare([], 0, op, a, []), 0) + [Do(0)] + [Step(P.Tick(300 * MINUTE))]
  }

  function Later(s: State): State {
    s.(p := s.p.(clock := 300 * MINUTE))
  }

  lemma RunLateStart(op: Op, a: BreakerKey) returns (b: Books, r: Region)
    ensures b == AfterFailure(op, NO_BOOKS, a, Failure(true, 0)).(gauge := map[]) && r.Publish? && r.key == a
    ensures Run(LateStart(op, a)) == Later(Joined(INIT, 0, op, a, P.Leaving, b, [r]))
  {
    var e := WithFail(WithPrepare([], 0, op, a, []), 0);
    b := AfterFailure(op, NO_BOOKS, a, Failure(true, 0)).(gauge := map[]);
    r := FailureRegions(op, NO_BOOKS, a, 0);
    RunWithPrepare([], 0, op, a, []);
    RunWithFail(WithPrepare([], 0, op, a, []), 0);
    AttemptFails(INIT, 0, op, a);
    RunOne(e, Do(0));
    DoesAlone(INIT, 0, op, a, P.Leaving, b, Look(a, 0));
    RunOne(e + [Do(0)], Step(P.Tick(300 * MINUTE)));
  }

  lemma RunLateEnd(op: Op, a: BreakerKey, c: BreakerKey)
    ensures Run(LateSeries(op, a, c)) == Next(Next(Prepare(Run(LateStart(op, a)), 1, op, c, [a]), Do(1)), Do(0))
  {
    var e := WithPrepare(LateStart(op, a), 1, op, c, [a]);
    RunWithPrepare(LateStart(op, a), 1, op, c, [a]);
    RunOne(e, Do(1));
    RunOne(e + [Do(1)], Do(0));
  }

  // A handler of c that sweeps a, and drops its series.
  lemma SweepsAway(s: State, t: P.Tid, op: Op, c: BreakerKey, a: BreakerKey)
    requires Free(s, t, c) && EvictedKeys(P.BooksOf(s.p, op), s.p.clock) == {a}
    ensures var b, now := P.BooksOf(s.p, op), s.p.clock;
            Next(Prepare(s, t, op, c, [a]), Do(t)) ==
            Joined(s, t, op, c, P.Stage.Swept(now), GaugeAfter(HalfSwept(b, now), Drop(a)), [])
  {
    var b, now := P.BooksOf(s.p, op), s.p.clock;
    assert (set k | k in [a]) == {a} && Drops([a]) == [Drop(a)];
    Prepares(s, t, op, c, [a]);
    DoesAlone(s, t, op, c, P.Stage.Swept(now), HalfSwept(b, now), Drop(a));
  }

  // The sweep of a handler of c, and its drop.
  lemma RunLateSeries(op: Op, a: BreakerKey, c: BreakerKey) returns (b: Books, r: Region, s: State)
    requires a.String() != c.String()
    ensures b.logs == map[] && b.gauge == map[] && r.Publish? && r.key == a
    ensures P.BooksOf(s.p, op) == b && s.owed == map[0 := [r]]
    ensures 0 in s.p.running && P.OpOf(s.p.running[0].rpc) == op
    ensures Run(LateSeries(op, a, c)) == Next(s, Do(0))
  {
    var failed;
    failed, r := RunLateStart(op, a);
    var start := Run(LateStart(op, a));
    var whole := FiveHoursLater(op, a);
    b := GaugeAfter(HalfSwept(failed, 300 * MINUTE), Drop(a));
    RunLateEnd(op, a, c);
    SweepsAway(start, 1, op, c, a);
    s := Next(Prepare(start, 1, op, c, [a]), Do(1));
  }

  // A series is published for a breaker that has no entry, and nobody is left to drop it.
  lemma ALateSeriesStays(op: Op, a: BreakerKey, c: BreakerKey)
    requires a.String() != c.String()
    ensures var s := Run(LateSeries(op, a, c));
            var b := P.BooksOf(s.p, op);
            s.owed == map[] && a in b.gauge && LogOf(b.logs, a) == [] && !GaugeAgrees(b)
  {
    var b, r, s := RunLateSeries(op, a, c);
    DoOwed(s, 0);
    DoBooks(s, 0, op);
    assert !Open(map[], a);
  }

  // ----- For which pairs the agreement holds -----

  // a fails for good; ten minutes later c, which has the same key, succeeds.
  function FailedThenIdle(op: Op, a: BreakerKey): seq<Event> {
    WithFailing([], 0, op, a) + [Step(P.Tick(10 * MINUTE))]
  }

  function SharedKey(op: Op, a: BreakerKey, c: BreakerKey): seq<Event> {
    WithPrepare(FailedThenIdle(op, a), 0, op, c, []) + [Step(P.Decide(0))] + [Step(P.AttemptAnswer(0, P.Done))] +
    [Do(0)] + [Step(P.Release(0))]
  }

  function Succeed(s: State, t: P.Tid): State {
    Next(Next(Next(Next(s, Step(P.Decide(t))), Step(P.AttemptAnswer(t, P.Done))), Do(t)), Step(P.Release(t)))
  }

  lemma RunSharedKey(op: Op, a: BreakerKey, c: BreakerKey)
    ensures Run(SharedKey(op, a, c)) == Succeed(Prepare(Run(FailedThenIdle(op, a)), 0, op, c, []), 0)
  {
    var e := WithPrepare(FailedThenIdle(op, a), 0, op, c, []);
    RunWithPrepare(FailedThenIdle(op, a), 0, op, c, []);
    RunOne(e, Step(P.Decide(0)));
    RunOne(e + [Step(P.Decide(0))], Step(P.AttemptAnswer(0, P.Done)));
    RunOne(e + [Step(P.Decide(0))] + [Step(P.AttemptAnswer(0, P.Done))], Do(0));
    RunOne(e + [Step(P.Decide(0))] + [Step(P.AttemptAnswer(0, P.Done))] + [Do(0)], Step(P.Release(0)));
  }

  lemma SucceedsAlone(s: State, t: P.Tid, op: Op, key: BreakerKey, b: Books, now: Time)
    requires Free(s, t, key) && !Paused(b.logs, key, now)
    ensures Succeed(Joined(s, t, op, key, P.Stage.Swept(now), b, []), t) ==
            s.(p := P.WithBooks(s.p, op, AfterSuccess(b, key)))
  {
    var after := AfterSuccess(b, key);
    P.DecidesAlone(P.WithBooks(s.p, op, b), t, P.Handler(P.RpcOf(op), key, P.Stage.Swept(now)));
    SuccessAnswered(s, t, op, key, b, now);
    DoesAlone(s, t, op, key, P.Leaving, after.(gauge := b.gauge), Drop(key));
    ReleasesAlone(s, t, op, key, after);
  }

  lemma SuccessAnswered(s: State, t: P.Tid, op: Op, key: BreakerKey, b: Books, now: Time)
    requires Free(s, t, key)
    ensures Next(Joined(s, t, op, key, P.Attempting(now, s.p.clock), b, []), Step(P.AttemptAnswer(t, P.Done))) ==
            Joined(s, t, op, key, P.Leaving, AfterSuccess(b, key).(gauge := b.gauge), [Drop(key)])
  {
    var p := P.WithBooks(s.p, op, b);
    P.Rejoin(p, t, P.Handler(P.RpcOf(op), key, P.Attempting(now, s.p.clock)), op, AfterSuccess(b, key), P.Leaving);
  }

  // The books of one terminal failure, when the wait is over.
  lemma TenMinutesLater(op: Op, a: BreakerKey, c: BreakerKey) returns (b: Books)
    requires a.String() == c.String()
    ensures b == AfterFailure(op, NO_BOOKS, a, Failure(true, 0)) && a in b.gauge
    ensures StaleKeys(b.logs, 10 * MINUTE) == {} && !Paused(b.logs, c, 10 * MINUTE)
  {
    var f := Failure(true, 0);
    b := AfterFailure(op, NO_BOOKS, a, f);
    assert TripsAt([f], 0) && b.logs == map[a.String() := Tracked(a, [f])];
    assert TripIndex([f]) == 0 && FailureLog.Step([f]) == 0 && NextAttempt([f]) == 10 * MINUTE;
  }

  lemma RunFailedThenIdle(op: Op, a: BreakerKey)
    ensures Run(FailedThenIdle(op, a)) == At(op, AfterFailure(op, NO_BOOKS, a, Failure(true, 0)), 10 * MINUTE)
  {
    RunWithFailing([], 0, op, a);
    FailingAlone(INIT, 0, op, a);
    RunOne(WithFailing([], 0, op, a), Step(P.Tick(10 * MINUTE)));
  }

  lemma SharedKeySucceeds(op: Op, a: BreakerKey, c: BreakerKey) returns (b: Books)
    requires a.String() == c.String()
    ensures a in b.gauge && Run(SharedKey(op, a, c)) == At(op, AfterSuccess(b, c), 10 * MINUTE)
  {
    b := TenMinutesLater(op, a, c);
    var s := At(op, b, 10 * MINUTE);
    RunFailedThenIdle(op, a);
    RunSharedKey(op, a, c);
    SucceedsAtOnce(s, 0, op, c);
    assert P.WithBooks(s.p, op, AfterSuccess(b, c)) == At(op, AfterSuccess(b, c), 10 * MINUTE).p;
  }

  lemma SucceedsAtOnce(s: State, t: P.Tid, op: Op, key: BreakerKey)
    requires Free(s, t, key)
    requires var logs := P.BooksOf(s.p, op).logs;
             StaleKeys(logs, s.p.clock) == {} && !Paused(logs, key, s.p.clock)
    ensures Succeed(Prepare(s, t, op, key, []), t) ==
            s.(p := P.WithBooks(s.p, op, AfterSuccess(P.BooksOf(s.p, op), key)))
  {
    var b, now := P.BooksOf(s.p, op), s.p.clock;
    Prepares(s, t, op, key, []);
    assert HalfSwept(b, now) == b;
    SucceedsAlone(s, t, op, key, b, now);
  }

  lemma ASharedKeyLeavesASeries(op: Op, a: BreakerKey, c: BreakerKey)
    requires a != c && a.String() == c.String()
    ensures var s := Run(SharedKey(op, a, c)); s.owed == map[] && !GaugeAgrees(P.BooksOf(s.p, op))
  {
    var b := SharedKeySucceeds(op, a, c);
    CollidingKeysBreakAgreement(b, a, c);
  }

  // One operation runs on these pairs only.
  predicate UsesKeys(op: Op, keys: set<BreakerKey>, events: seq<Event>) {
    forall e :: e in events && e.Step? && e.e.Insert? && P.OpOf(e.e.rpc) == op ==> e.e.key in keys
  }

  lemma TheirKeys(op: Op, a: BreakerKey, c: BreakerKey, keys: set<BreakerKey>)
    requires a in keys && c in keys
    ensures UsesKeys(op, keys, LostSeries(op, a, c)) && UsesKeys(op, keys, SharedKey(op, a, c))
  {
  }

  // What the agreement comes to when the lock regions of handlers interleave: it holds in all
  // runs, when nobody owes anything, exactly over a single pair.
  lemma AgreementIffAlone(op: Op, keys: set<BreakerKey>)
    ensures (forall events :: UsesKeys(op, keys, events) && Run(events).owed == map[] ==>
               GaugeAgrees(P.BooksOf(Run(events).p, op))) <==>
            (forall a, c :: a in keys && c in keys ==> a == c)
  {
    if a, c :| a in keys && c in keys && a != c {
      TheirKeys(op, a, c, keys);
      if a.String() == c.String() {
        ASharedKeyLeavesASeries(op, a, c);
      } else {
        ASweepLosesASeries(op, a, c);
      }
    } else {
      var a := if keys == {} then BreakerKey("", "") else var k :| k in keys; k;
      forall events | UsesKeys(op, keys, events) && Run(events).owed == map[]
        ensures GaugeAgrees(P.BooksOf(Run(events).p, op))
      {
        AloneIsUndisturbed(op, a, events);
        UndisturbedNeverBreaks(op, map[a.String() := a], events);
        AgreesWhenQuiet(op, map[a.String() := a], events);
      }
    }
  }
}
