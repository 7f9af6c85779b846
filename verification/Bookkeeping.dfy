/**
 * What the detach and delete handlers keep beside the breaker (pkg/driver/controller.go):
 * the "pending seconds" gauge series and the events put on the volume.
 */
module Bookkeeping {
  import opened Clock
  import opened FailureLog
  import opened CircuitBreaker

  datatype Op = Detach | Delete

  // The state one operation keeps. An episode of a key runs from its first failure to the
  // next time the key is cleared or evicted; warned counts the warnings emitted in it.
  datatype Books = Books(
    logs: Logs, gauge: map<BreakerKey, Duration>, warned: map<string, nat>, recovered: nat)

  const NO_BOOKS := Books(map[], map[], map[], 0)

  predicate Trips(before: Log, after: Log) {
    !Tripped(before) && Tripped(after)
  }

  predicate Escalates(before: Log, after: Log) {
    Tripped(before) && Step(after) > Step(before)
  }

  // Does this failure put a warning on the volume? A delete also reports its first failure.
  predicate Warns(op: Op, before: Log, after: Log) {
    Trips(before, after) || Escalates(before, after) || (op.Delete? && before == [])
  }

  // The atomic transitions of the books.

  function AfterFailure(op: Op, b: Books, key: BreakerKey, f: Failure): Books {
    var k := key.String();
    var logs := Failed(b.logs, key, f);
    var before, after := LogOf(b.logs, key), LogOf(logs, key);
    var n := if k in b.warned then b.warned[k] else 0;
    Books(
      logs,
      if Tripped(after) then b.gauge[key := f.at - FirstFailAt(after)] else b.gauge,
      b.warned[k := if Warns(op, before, after) then n + 1 else n],
      b.recovered)
  }

  function AfterClear(b: Books, key: BreakerKey): Books {
    Books(Cleared(b.logs, key), b.gauge - {key}, b.warned - {key.String()}, b.recovered)
  }

  function AfterSuccess(b: Books, key: BreakerKey): Books {
    AfterClear(b, key).(recovered := if Tripped(LogOf(b.logs, key)) then b.recovered + 1 else b.recovered)
  }

  function EvictedKeys(b: Books, now: Time): set<BreakerKey> {
    set k | k in StaleKeys(b.logs, now) :: b.logs[k].key
  }

  function AfterSweep(b: Books, now: Time): Books {
    Books(Swept(b.logs, now), b.gauge - EvictedKeys(b, now),
          b.warned - StaleKeys(b.logs, now), b.recovered)
  }

  // The keys a sweep reports, in whatever order, are the evicted ones.
  lemma EvictedSet(b: Books, now: Time, evicted: seq<BreakerKey>, order: seq<string>)
    requires |order| == |evicted| && (forall k :: k in order <==> k in StaleKeys(b.logs, now))
    requires forall i :: 0 <= i < |order| ==> order[i] in b.logs && evicted[i] == b.logs[order[i]].key
    ensures (set j | 0 <= j < |evicted| :: evicted[j]) == EvictedKeys(b, now)
  {
    forall k | k in StaleKeys(b.logs, now)
      ensures b.logs[k].key in set j | 0 <= j < |evicted| :: evicted[j]
    {
      assert k in order;
    }
    forall j | 0 <= j < |evicted|
      ensures evicted[j] in EvictedKeys(b, now)
    {
      assert order[j] in order;
    }
  }

  // The breaker is open on this key.
  predicate Open(logs: Logs, key: BreakerKey) {
    var k := key.String();
    k in logs && logs[k].key == key && Tripped(logs[k].log)
  }

  // How many warnings an episode with this log has emitted.
  function Warnings(op: Op, log: Log): nat {
    (if Tripped(log) then 1 + Step(log) else 0) +
    (if op.Delete? && log != [] && TripIndex(log) != 0 then 1 else 0)
  }

  // The event budget of one episode, whatever the number of failures and probes.
  lemma EventBudget(op: Op, log: Log)
    ensures op.Detach? ==> Warnings(op, log) <= 4
    ensures op.Delete? ==> Warnings(op, log) <= 5
  {
  }

  // And exactly which they are: one when the breaker opens, one for each of the next three
  // failures, and for a delete one for a first failure that does not open it.
  lemma WarningsOfAnEpisode(op: Op, log: Log, trip: nat)
    requires OpensAt(log, trip)
    ensures var further, first := |log| - 1 - trip, op.Delete? && log != [] && trip != 0;
            Warnings(op, log) ==
            (if trip == |log| then 0 else if further < 3 then 1 + further else 4) + if first then 1 else 0
  {
    OpensAtTheTrip(log, trip);
  }

  // What a failure leaves: its series, if the breaker is open, shows the time since the first
  // failure of the episode; nobody else's series changes.
  lemma SeriesAfterFailure(op: Op, b: Books, key: BreakerKey, f: Failure, trip: nat)
    requires OpensAt(LogOf(b.logs, key) + [f], trip)
    ensures var gauge, log := AfterFailure(op, b, key, f).gauge, LogOf(b.logs, key) + [f];
            && gauge - {key} == b.gauge - {key}
            && (trip < |log| ==> key in gauge && gauge[key] == f.at - log[0].at)
            && (trip == |log| ==> gauge == b.gauge)
  {
    OpensAtTheTrip(LogOf(b.logs, key) + [f], trip);
    LogAfterFailure(b.logs, key, f);
  }

  // What an attempt at t that fails, but not for good, makes of the books: the handler sweeps first.
  function Attempted(op: Op, b: Books, key: BreakerKey, t: Time): Books {
    AfterFailure(op, AfterSweep(b, t), key, Failure(false, t))
  }

  // A sweep keeps a log until four hours after it was due.
  lemma SweepKeepsLog(b: Books, key: BreakerKey, t: Time, trip: nat)
    requires key.String() in b.logs && b.logs[key.String()].log != [] && OpensAt(b.logs[key.String()].log, trip)
    requires var log := b.logs[key.String()].log;
             log[|log| - 1].at + WaitAfter(|log| - 1 - trip) >= t - 240 * MINUTE
    ensures key.String() in AfterSweep(b, t).logs && LogOf(AfterSweep(b, t).logs, key) == LogOf(b.logs, key)
    ensures Paused(AfterSweep(b, t).logs, key, t) == Paused(b.logs, key, t)
  {
    InMinutes(b.logs[key.String()].log, trip, t);
  }

  // The sweep in front of an attempt never ends a pause, and never starts one.
  lemma SweepKeepsPause(b: Books, key: BreakerKey, t: Time)
    requires NoEmptyLog(b.logs)
    ensures Paused(AfterSweep(b, t).logs, key, t) == Paused(b.logs, key, t)
  {
  }

  lemma AttemptedAgain(op: Op, b: Books, key: BreakerKey, t: Time)
    requires key.String() in b.logs && b.logs[key.String()].log != []
    requires OpensAt(b.logs[key.String()].log, |b.logs[key.String()].log|)
    requires var log := b.logs[key.String()].log; t - log[|log| - 1].at <= 240 * MINUTE
    ensures !Paused(AfterSweep(b, t).logs, key, t)
    ensures var b' := Attempted(op, b, key, t);
            key.String() in b'.logs && b'.logs[key.String()].log == b.logs[key.String()].log + [Failure(false, t)]
  {
    var log := b.logs[key.String()].log;
    SweepKeepsLog(b, key, t, |log|);
    PausedInMinutes(b.logs, key, t, |log|);
    LogAfterFailure(AfterSweep(b, t).logs, key, Failure(false, t));
  }

  // Three failures that are not for good, none more than the four hours a log is kept after the
  // one before, and at least five minutes from the first to the last: none of the three attempts
  // is paused, and whatever comes in the next ten minutes is.
  lemma ThreeFailuresPause(op: Op, b: Books, key: BreakerKey, t0: Time, t1: Time, t2: Time, now: Time)
    requires key.String() !in b.logs && t0 <= t1 <= t2 && t1 - t0 <= 240 * MINUTE && t2 - t1 <= 240 * MINUTE
    requires t2 - t0 >= 5 * MINUTE && now < t2 + 10 * MINUTE
    ensures var b1 := Attempted(op, b, key, t0);
            var b2 := Attempted(op, b1, key, t1);
            var b3 := Attempted(op, b2, key, t2);
            && !Paused(AfterSweep(b, t0).logs, key, t0) && !Paused(AfterSweep(b1, t1).logs, key, t1)
            && !Paused(AfterSweep(b2, t2).logs, key, t2) && Paused(AfterSweep(b3, now).logs, key, now)
  {
    var b1 := Attempted(op, b, key, t0);
    FirstAttempted(op, b, key, t0);
    AttemptedAgain(op, b1, key, t1);
    var b2 := Attempted(op, b1, key, t1);
    AttemptedAgain(op, b2, key, t2);
    ThirdFailureOpens(Attempted(op, b2, key, t2), key, t0, t1, t2, now);
  }

  lemma FirstAttempted(op: Op, b: Books, key: BreakerKey, t: Time)
    requires key.String() !in b.logs
    ensures !Paused(AfterSweep(b, t).logs, key, t)
    ensures var b' := Attempted(op, b, key, t);
            key.String() in b'.logs && b'.logs[key.String()].log == [Failure(false, t)]
  {
    LogAfterFailure(AfterSweep(b, t).logs, key, Failure(false, t));
  }

  lemma ThirdFailureOpens(b: Books, key: BreakerKey, t0: Time, t1: Time, t2: Time, now: Time)
    requires key.String() in b.logs
    requires b.logs[key.String()].log == [Failure(false, t0)] + [Failure(false, t1)] + [Failure(false, t2)]
    requires t2 - t0 >= 5 * MINUTE && now < t2 + 10 * MINUTE
    ensures Paused(AfterSweep(b, now).logs, key, now)
  {
    assert OpensAt(b.logs[key.String()].log, 2);
    SweepKeepsLog(b, key, now, 2);
    PausedInMinutes(b.logs, key, now, 2);
  }

  // The pair each key string stands for. Every pair in use being named says that no two of
  // them concatenate to one string.
  type Names = map<string, BreakerKey>

  predicate Named(names: Names, key: BreakerKey) {
    key.String() in names && names[key.String()] == key
  }

  predicate AllNamed(names: Names, keys: set<BreakerKey>) {
    forall a :: a in keys ==> Named(names, a)
  }

  // No two of these pairs share a key.
  predicate Separate(keys: set<BreakerKey>) {
    forall a, b :: a in keys && b in keys && a.String() == b.String() ==> a == b
  }

  lemma NamedIffSeparate(keys: set<BreakerKey>)
    ensures (exists names :: AllNamed(names, keys)) <==> Separate(keys)
  {
    if Separate(keys) {
      var strings := set a | a in keys :: a.String();
      var names: Names := map k | k in strings :: var a :| a in keys && a.String() == k; a;
      forall a | a in keys
        ensures Named(names, a)
      {
        assert a.String() in strings;
      }
      assert AllNamed(names, keys);
    }
  }

  // Pairs whose volume IDs have one length, as the IDs the service hands out do, are separate.
  lemma SameLengthIsSeparate(keys: set<BreakerKey>, n: nat)
    requires forall a :: a in keys ==> |a.volumeID| == n
    ensures Separate(keys)
  {
    forall a, b | a in keys && b in keys && a.String() == b.String()
      ensures a == b
    {
      SameLengthKeysAreSeparate(a, b);
    }
  }

  ghost predicate WellKeyed(names: Names, logs: Logs) {
    NoEmptyLog(logs) &&
    forall k :: k in logs ==> k in names && logs[k].key == names[k] && names[k].String() == k
  }

  // A series is published for exactly the keys the breaker is open on.
  ghost predicate GaugeAgrees(b: Books) {
    forall key :: key in b.gauge <==> Open(b.logs, key)
  }

  predicate EventsCounted(op: Op, b: Books) {
    b.warned.Keys == b.logs.Keys &&
    forall k :: k in b.logs ==> b.warned[k] == Warnings(op, b.logs[k].log)
  }

  ghost predicate InOrder(op: Op, names: Names, b: Books) {
    WellKeyed(names, b.logs) && GaugeAgrees(b) && EventsCounted(op, b)
  }

  lemma FailureWarns(op: Op, log: Log, f: Failure)
    ensures Warnings(op, log + [f]) == Warnings(op, log) + if Warns(op, log, log + [f]) then 1 else 0
  {
    AppendFailure(log, f);
  }

  lemma OpenAfterFailure(names: Names, logs: Logs, key: BreakerKey, f: Failure, other: BreakerKey)
    requires Named(names, key) && WellKeyed(names, logs)
    ensures Open(Failed(logs, key, f), other) <==>
            if other == key then Tripped(LogOf(logs, key) + [f]) else Open(logs, other)
  {
    var k := key.String();
    var logs' := Failed(logs, key, f);
    assert logs'[k] == Tracked(key, LogOf(logs, key) + [f]);
    if other != key && other.String() == k {
      assert k in logs ==> logs[k].key == key;
    }
  }

  lemma FailureKeepsGauge(op: Op, names: Names, b: Books, key: BreakerKey, f: Failure)
    requires Named(names, key) && WellKeyed(names, b.logs) && GaugeAgrees(b)
    ensures GaugeAgrees(AfterFailure(op, b, key, f))
  {
    var b', before := AfterFailure(op, b, key, f), LogOf(b.logs, key);
    AppendFailure(before, f);
    assert LogOf(b'.logs, key) == before + [f];
    assert key in b.gauge ==> Tripped(before);
    forall other: BreakerKey
      ensures other in b'.gauge <==> Open(b'.logs, other)
    {
      OpenAfterFailure(names, b.logs, key, f, other);
      assert other in b'.gauge <==> other in b.gauge || (other == key && Tripped(before + [f]));
    }
  }

  lemma KeysAfterFailure(op: Op, b: Books, key: BreakerKey, f: Failure)
    ensures var b', k := AfterFailure(op, b, key, f), key.String();
            b'.logs.Keys == b.logs.Keys + {k} && b'.warned.Keys == b.warned.Keys + {k}
  {
  }

  lemma LogAfterFailure(logs: Logs, key: BreakerKey, f: Failure)
    ensures key.String() in Failed(logs, key, f)
    ensures Failed(logs, key, f)[key.String()].log == LogOf(logs, key) + [f]
    ensures LogOf(Failed(logs, key, f), key) == LogOf(logs, key) + [f]
  {
  }

  // What a failure leaves for its own key, and for the others.
  lemma CountAfterFailure(op: Op, b: Books, key: BreakerKey, f: Failure)
    ensures var b', k := AfterFailure(op, b, key, f), key.String();
            && k in b'.warned
            && b'.warned[k] == (if k in b.warned then b.warned[k] else 0) +
                               (if Warns(op, LogOf(b.logs, key), LogOf(b.logs, key) + [f]) then 1 else 0)
  {
    LogAfterFailure(b.logs, key, f);
  }

  lemma OthersAfterFailure(op: Op, b: Books, key: BreakerKey, f: Failure, j: string)
    requires j in b.logs && j in b.warned && j != key.String()
    ensures var b' := AfterFailure(op, b, key, f);
            j in b'.logs && b'.logs[j] == b.logs[j] && j in b'.warned && b'.warned[j] == b.warned[j]
  {
  }

  lemma FailureKeepsCount(op: Op, b: Books, key: BreakerKey, f: Failure)
    requires EventsCounted(op, b)
    ensures EventsCounted(op, AfterFailure(op, b, key, f))
  {
    var b', k := AfterFailure(op, b, key, f), key.String();
    KeysAfterFailure(op, b, key, f);
    LogAfterFailure(b.logs, key, f);
    CountAfterFailure(op, b, key, f);
    FailureWarns(op, LogOf(b.logs, key), f);
    assert b'.warned[k] == Warnings(op, b'.logs[k].log);
    forall j | j in b'.logs && j != k
      ensures b'.warned[j] == Warnings(op, b'.logs[j].log)
    {
      OthersAfterFailure(op, b, key, f, j);
    }
  }

  lemma FailureKeepsOrder(op: Op, names: Names, b: Books, key: BreakerKey, f: Failure)
    requires Named(names, key) && InOrder(op, names, b)
    ensures InOrder(op, names, AfterFailure(op, b, key, f))
  {
    FailureKeepsGauge(op, names, b, key, f);
    FailureKeepsCount(op, b, key, f);
  }

  lemma ClearKeepsGauge(names: Names, b: Books, key: BreakerKey)
    requires Named(names, key) && WellKeyed(names, b.logs) && GaugeAgrees(b)
    ensures GaugeAgrees(AfterClear(b, key))
  {
    var b' := AfterClear(b, key);
    forall other: BreakerKey
      ensures other in b'.gauge <==> Open(b'.logs, other)
    {
      assert other in b.gauge <==> Open(b.logs, other);
    }
  }

  lemma ClearKeepsOrder(op: Op, names: Names, b: Books, key: BreakerKey)
    requires Named(names, key) && InOrder(op, names, b)
    ensures InOrder(op, names, AfterClear(b, key)) && InOrder(op, names, AfterSuccess(b, key))
  {
    ClearKeepsGauge(names, b, key);
    assert WellKeyed(names, AfterClear(b, key).logs);
    assert EventsCounted(op, AfterClear(b, key));
    assert GaugeAgrees(AfterSuccess(b, key));
  }

  lemma SweepKeepsOrder(op: Op, names: Names, b: Books, now: Time)
    requires InOrder(op, names, b)
    ensures InOrder(op, names, AfterSweep(b, now))
  {
    var b' := AfterSweep(b, now);
    forall other: BreakerKey
      ensures other in b'.gauge <==> Open(b'.logs, other)
    {
      assert other in b.gauge <==> Open(b.logs, other);
      assert other in EvictedKeys(b, now) ==> other.String() in StaleKeys(b.logs, now);
    }
  }

  // Agreement needs keys that do not collide. Whenever two pairs do, and the breaker is open on
  // one of them, clearing it through the other pair's key leaves the series behind.
  lemma CollidingKeysBreakAgreement(b: Books, a: BreakerKey, c: BreakerKey)
    requires a != c && a.String() == c.String() && a in b.gauge
    ensures !GaugeAgrees(AfterClear(b, c)) && !GaugeAgrees(AfterSuccess(b, c))
  {
    assert a in AfterClear(b, c).gauge && !Open(AfterClear(b, c).logs, a);
    assert a in AfterSuccess(b, c).gauge && !Open(AfterSuccess(b, c).logs, a);
  }

  // A terminal failure opens the breaker at once, for every pair that shares the key.
  lemma TerminalFailureOpens(op: Op, a: BreakerKey, c: BreakerKey, at: Time)
    requires a.String() == c.String()
    ensures var b := AfterFailure(op, NO_BOOKS, a, Failure(true, at));
            && b.gauge == map[a := 0] && Paused(b.logs, c, at) && AfterSweep(b, at) == b
  {
    var k, f := a.String(), Failure(true, at);
    var b := AfterFailure(op, NO_BOOKS, a, f);
    assert TripsAt([f], 0) && LogOf(b.logs, a) == [f] && b.logs[k] == Tracked(a, [f]);
    assert TripIndex([f]) == 0 && Step([f]) == 0 && NextAttempt([f]) == at + 10 * MINUTE;
    assert StaleKeys(b.logs, at) == {};
    assert EvictedKeys(b, at) == {};
  }

  // The breaker has been swept, the gauge has not.
  function HalfSwept(b: Books, now: Time): Books {
    b.(logs := Swept(b.logs, now), warned := b.warned - StaleKeys(b.logs, now))
  }
}
