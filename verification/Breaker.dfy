/**
 * pkg/driver/internal/breaker.go: the circuit breaker of the detach and delete paths.
 *
 * The breaker keeps one constant-size entry per key. Its contracts are stated on the full
 * log of failures since the key was last cleared, kept here as ghost state, so they say
 * what the entry means and not how it is updated.
 */
module FailureLog {
  import opened Clock

  // The trip threshold, its elapsed-time floor and the wait table.
  const BREAKER_TRIP_AFTER := 3
  const BREAKER_TRIP_MIN_ELAPSED: Duration := 5 * MINUTE
  const BREAKER_STEPS: seq<Duration> := [10 * MINUTE, 30 * MINUTE, 60 * MINUTE, 120 * MINUTE]
  const STEP_CAP: Duration := 120 * MINUTE

  // One real attempt that failed, stamped with the start of its handler.
  datatype Failure = Failure(terminal: bool, at: Time)

  // Everything that failed for one key since the key was last cleared, oldest first.
  type Log = seq<Failure>

  // Failure i is one that opens a closed breaker.
  predicate TripsAt(log: Log, i: int) {
    && 0 <= i < |log|
    && (log[i].terminal ||
        (i + 1 >= BREAKER_TRIP_AFTER && log[i].at - log[0].at >= BREAKER_TRIP_MIN_ELAPSED))
  }

  // The first failure that opens the breaker, or the length of the log.
  function TripIndex(log: Log): (i: nat)
    ensures i <= |log|
    ensures i < |log| ==> TripsAt(log, i)
    ensures forall j :: 0 <= j < i ==> !TripsAt(log, j)
  {
    if |log| == 0 then 0
    else
      var before := log[..|log| - 1];
      var i := TripIndex(before);
      assert forall j :: 0 <= j < |before| ==> TripsAt(before, j) == TripsAt(log, j);
      if i < |before| || TripsAt(log, i) then i else |log|
  }

  predicate Tripped(log: Log) {
    TripIndex(log) < |log|
  }

  // How far along the wait table the breaker is: one step per failure after the trip.
  function Step(log: Log): (r: nat)
    ensures r < |BREAKER_STEPS|
  {
    if !Tripped(log) then 0
    else if |log| - 1 - TripIndex(log) < |BREAKER_STEPS| - 1 then |log| - 1 - TripIndex(log)
    else |BREAKER_STEPS| - 1
  }

  // When the next real attempt is due; before the trip, when the key was last touched.
  function NextAttempt(log: Log): Time {
    if log == [] then 0 else log[|log| - 1].at + if Tripped(log) then BREAKER_STEPS[Step(log)] else 0
  }

  function FirstFailAt(log: Log): Time {
    if log == [] then 0 else log[0].at
  }

  // No failure has landed for twice the capped step after one was due.
  predicate Stale(log: Log, now: Time) {
    NextAttempt(log) < now - 2 * STEP_CAP
  }

  // The breaker is open exactly when some failure was terminal, or was at least the third
  // and at least five minutes after the first.
  lemma TrippedIff(log: Log)
    ensures Tripped(log) <==>
            exists i :: 0 <= i < |log| &&
                        (log[i].terminal || (i >= 2 && log[i].at - log[0].at >= 5 * MINUTE))
  {
    if Tripped(log) {
      assert TripsAt(log, TripIndex(log));
    } else {
      forall i | 0 <= i < |log|
        ensures !(log[i].terminal || (i >= 2 && log[i].at - log[0].at >= 5 * MINUTE))
      {
        assert !TripsAt(log, i);
      }
    }
  }

  // One more failure: a closed breaker opens iff that failure trips it, an open one stays
  // open at the same trip and moves one step until the table ends.
  lemma AppendFailure(log: Log, f: Failure)
    ensures var after := log + [f];
            && (Tripped(log) ==> TripIndex(after) == TripIndex(log))
            && (!Tripped(log) ==> (Tripped(after) <==> TripsAt(after, |log|)))
            && (!Tripped(log) && Tripped(after) ==> TripIndex(after) == |log| && Step(after) == 0)
            && (Tripped(log) ==> Tripped(after) &&
                                 Step(after) == if Step(log) < 3 then Step(log) + 1 else 3)
  {
    var after := log + [f];
    assert after[..|after| - 1] == log;
  }

  // ----- The same in minutes -----

  // Failure number trip is the first that opens the breaker; none does if trip is the length.
  predicate OpensAt(log: Log, trip: nat) {
    && trip <= |log|
    && (forall i :: 0 <= i < trip ==> !log[i].terminal && (i < 2 || log[i].at - log[0].at < 5 * MINUTE))
    && (trip < |log| ==> log[trip].terminal || (trip >= 2 && log[trip].at - log[0].at >= 5 * MINUTE))
  }

  // The wait after the n-th failure since the trip; there is none before.
  function WaitAfter(n: int): Duration {
    if n < 0 then 0
    else if n == 0 then 10 * MINUTE
    else if n == 1 then 30 * MINUTE
    else if n == 2 then 60 * MINUTE
    else 120 * MINUTE
  }

  lemma OpensAtTheTrip(log: Log, trip: nat)
    requires OpensAt(log, trip)
    ensures TripIndex(log) == trip
  {
    if trip < |log| {
      assert TripsAt(log, trip);
    }
    assert forall i :: 0 <= i < trip ==> !TripsAt(log, i);
  }

  // When the next attempt is due and when a log has gone stale, in minutes: the last failure and
  // its wait of 0, 10, 30, 60 or 120 minutes lie more than 240 minutes back.
  lemma InMinutes(log: Log, trip: nat, now: Time)
    requires log != [] && trip <= |log|
    requires forall i :: 0 <= i < trip ==> !log[i].terminal && (i < 2 || log[i].at - log[0].at < 5 * MINUTE)
    requires trip < |log| ==> log[trip].terminal || (trip >= 2 && log[trip].at - log[0].at >= 5 * MINUTE)
    ensures OpensAt(log, trip) && (Tripped(log) <==> trip < |log|)
    ensures var n := |log| - 1 - trip;
            NextAttempt(log) - log[|log| - 1].at == WaitAfter(n) == MINUTE *
            (if n < 0 then 0 else if n == 0 then 10 else if n == 1 then 30 else if n == 2 then 60 else 120)
    ensures Stale(log, now) <==> log[|log| - 1].at + WaitAfter(|log| - 1 - trip) < now - 240 * MINUTE
  {
    OpensAtTheTrip(log, trip);
  }
}

module CircuitBreaker {
  import opened Clock
  import opened FailureLog

  datatype Decision = Full | ProbeOnly

  datatype BreakerKey = BreakerKey(volumeID: string, nodeID: string) {
    function String(): string {
      volumeID + nodeID
    }
  }

  // A log with the key that opened it; keys with one concatenation share an entry.
  datatype Tracked = Tracked(key: BreakerKey, log: Log)

  type Logs = map<string, Tracked>

  // The four transitions of the breaker, on logs.

  function Failed(logs: Logs, key: BreakerKey, f: Failure): Logs {
    var k := key.String();
    logs[k := if k in logs then Tracked(logs[k].key, logs[k].log + [f]) else Tracked(key, [f])]
  }

  function Cleared(logs: Logs, key: BreakerKey): Logs {
    logs - {key.String()}
  }

  function StaleKeys(logs: Logs, now: Time): set<string> {
    set k | k in logs && Stale(logs[k].log, now)
  }

  function Swept(logs: Logs, now: Time): Logs {
    logs - StaleKeys(logs, now)
  }

  function LogOf(logs: Logs, key: BreakerKey): seq<Failure> {
    if key.String() in logs then logs[key.String()].log else []
  }

  predicate Paused(logs: Logs, key: BreakerKey, now: Time) {
    var k := key.String();
    k in logs && Tripped(logs[k].log) && now < NextAttempt(logs[k].log)
  }

  // A pair is paused exactly while its breaker has opened and the wait of 10, 30, 60 or 120
  // minutes after its last failure is not over.
  lemma PausedInMinutes(logs: Logs, key: BreakerKey, now: Time, trip: nat)
    requires key.String() in logs && logs[key.String()].log != [] && OpensAt(logs[key.String()].log, trip)
    ensures var log := logs[key.String()].log;
            Paused(logs, key, now) <==> trip < |log| && now < log[|log| - 1].at + WaitAfter(|log| - 1 - trip)
  {
    InMinutes(logs[key.String()].log, trip, now);
  }

  // Exactly the logs are gone whose last failure, with its wait, lies more than 240 minutes back.
  ghost predicate GoneInMinutes(before: Logs, after: Logs, now: Time) {
    forall k, trip :: k in before && before[k].log != [] && OpensAt(before[k].log, trip) ==>
      var log := before[k].log;
      (k !in after <==> log[|log| - 1].at + WaitAfter(|log| - 1 - trip) < now - 240 * MINUTE)
  }

  // The same for one log, with every number in place.
  lemma SweptLog(logs: Logs, k: string, trip: nat, now: Time)
    requires NoEmptyLog(logs) && k in logs && OpensAt(logs[k].log, trip)
    ensures var log, n := logs[k].log, |logs[k].log| - 1 - trip;
            var wait := if n < 0 then 0 else if n == 0 then 10 else if n == 1 then 30 else if n == 2 then 60 else 120;
            && WaitAfter(n) == MINUTE * wait
            && (k !in Swept(logs, now) <==> log[|log| - 1].at + WaitAfter(n) < now - 240 * MINUTE)
            && (k in Swept(logs, now) ==> Swept(logs, now)[k] == logs[k])
  {
    InMinutes(logs[k].log, trip, now);
  }

  lemma SweepInMinutes(logs: Logs, now: Time)
    ensures GoneInMinutes(logs, Swept(logs, now), now)
  {
    forall k, trip | k in logs && logs[k].log != [] && OpensAt(logs[k].log, trip)
      ensures var log := logs[k].log;
              k !in Swept(logs, now) <==> log[|log| - 1].at + WaitAfter(|log| - 1 - trip) < now - 240 * MINUTE
    {
      InMinutes(logs[k].log, trip, now);
    }
  }

  // Two pairs whose volume IDs have one length never share a key ...
  lemma SameLengthKeysAreSeparate(a: BreakerKey, b: BreakerKey)
    requires |a.volumeID| == |b.volumeID|
    ensures a.String() == b.String() <==> a == b
  {
    if a.String() == b.String() {
      assert a.volumeID == a.String()[..|a.volumeID|] == b.volumeID;
      assert a.nodeID == a.String()[|a.volumeID|..] == b.nodeID;
    }
  }

  // ... but in general they can: the key is a plain concatenation.
  lemma KeysCanCollide()
    ensures BreakerKey("ab", "c") != BreakerKey("a", "bc")
    ensures BreakerKey("ab", "c").String() == BreakerKey("a", "bc").String()
  {
    assert BreakerKey("ab", "c").String() == "abc" == BreakerKey("a", "bc").String();
  }

  // What the breaker remembers of one key, however long its log.
  datatype BreakerEntry = BreakerEntry(
    key: BreakerKey, failures: int, firstFailAt: Time, step: int, nextAttempt: Time, tripped: bool)

  // The entry that digests a whole log.
  function EntryOf(t: Tracked): BreakerEntry {
    BreakerEntry(t.key, |t.log|, FirstFailAt(t.log), Step(t.log), NextAttempt(t.log), Tripped(t.log))
  }

  function EntriesOf(logs: Logs): map<string, BreakerEntry> {
    map k | k in logs :: EntryOf(logs[k])
  }

  ghost predicate NoEmptyLog(logs: Logs) {
    forall k :: k in logs ==> logs[k].log != []
  }

  // The digest of one more failure, from the digest so far.
  lemma DigestOfFailure(key: BreakerKey, log: Log, f: FailureLog.Failure)
    ensures var e, e' := EntryOf(Tracked(key, log)), EntryOf(Tracked(key, log + [f]));
            && e'.failures == e.failures + 1
            && e'.firstFailAt == (if log == [] then f.at else e.firstFailAt)
            && e'.tripped == (e.tripped || f.terminal ||
                              (e'.failures >= BREAKER_TRIP_AFTER && f.at - e'.firstFailAt >= BREAKER_TRIP_MIN_ELAPSED))
            && e'.step == (if e.tripped && e.step < 3 then e.step + 1 else e.step)
            && e'.nextAttempt == f.at + if e'.tripped then BREAKER_STEPS[e'.step] else 0
  {
    AppendFailure(log, f);
    var after := log + [f];
    var longEnough := |after| >= BREAKER_TRIP_AFTER && f.at - after[0].at >= BREAKER_TRIP_MIN_ELAPSED;
    assert TripsAt(after, |log|) <==> f.terminal || longEnough;
  }

  lemma FailedEntries(logs: Logs, key: BreakerKey, f: Failure)
    ensures EntriesOf(Failed(logs, key, f)) ==
            EntriesOf(logs)[key.String() := EntryOf(Failed(logs, key, f)[key.String()])]
  {
  }

  // What the sweep drops, by the entries, is what is stale, by the logs.
  lemma SweptEntries(logs: Logs, now: Time, gone: set<string>)
    requires gone <= logs.Keys
    requires forall k :: k in logs ==> (k in gone <==> EntryOf(logs[k]).nextAttempt < now - 2 * STEP_CAP)
    ensures gone == StaleKeys(logs, now) && EntriesOf(logs) - gone == EntriesOf(Swept(logs, now))
  {
  }

  // The sweep has dropped exactly gone, in this order, and reported each key once.
  ghost predicate Reports(
      order: seq<string>, evicted: seq<BreakerKey>, gone: set<string>, before: map<string, BreakerEntry>)
  {
    && |order| == |evicted| && gone <= before.Keys
    && (forall k :: k in order <==> k in gone)
    && (forall i, j :: 0 <= i < j < |order| ==> order[i] != order[j])
    && (forall i :: 0 <= i < |order| ==> order[i] in before && evicted[i] == before[order[i]].key)
  }

  lemma ReportOneMore(
      order: seq<string>, evicted: seq<BreakerKey>, gone: set<string>, before: map<string, BreakerEntry>, k: string)
    requires Reports(order, evicted, gone, before) && k in before && k !in gone
    ensures Reports(order + [k], evicted + [before[k].key], gone + {k}, before)
  {
  }

  class Breaker {
    var entries: map<string, BreakerEntry>
    ghost var logs: Logs

    // Every entry is the digest of the failures its key has had since it was last cleared.
    ghost predicate Valid()
      reads this
    {
      NoEmptyLog(logs) && entries == EntriesOf(logs)
    }

    constructor ()
      ensures Valid() && logs == map[]
    {
      entries, logs := map[], map[];
    }

    // May the caller issue a real command?
    method Allow(key: BreakerKey, now: Time) returns (d: Decision)
      requires Valid()
      ensures d == if Paused(logs, key, now) then ProbeOnly else Full
    {
      var k := key.String();
      if k !in entries || !entries[k].tripped {
        return Full;
      }
      if now < entries[k].nextAttempt {
        return ProbeOnly;
      }
      return Full;
    }

    // Records a real attempt that failed. Reports whether this failure opened the breaker,
    // and whether it moved an open breaker to a longer wait.
    method Failure(key: BreakerKey, terminal: bool, now: Time) returns (tripped: bool, stepped: bool)
      requires Valid()
      modifies this
      ensures Valid()
      ensures logs == Failed(old(logs), key, FailureLog.Failure(terminal, now))
      ensures tripped <==> !Tripped(old(LogOf(logs, key))) && Tripped(LogOf(logs, key))
      ensures stepped <==> Tripped(old(LogOf(logs, key))) &&
                           Step(LogOf(logs, key)) > Step(old(LogOf(logs, key)))
    {
      var k := key.String();
      ghost var f := FailureLog.Failure(terminal, now);
      DigestOfFailure(if k in logs then logs[k].key else key, LogOf(logs, key), f);
      FailedEntries(logs, key, f);
      var e := if k in entries then entries[k] else BreakerEntry(key, 0, now, 0, now, false);
      e := e.(failures := e.failures + 1, nextAttempt := now);
      tripped, stepped := false, false;
      if !e.tripped {
        if terminal || (e.failures >= BREAKER_TRIP_AFTER && now - e.firstFailAt >= BREAKER_TRIP_MIN_ELAPSED) {
          e := e.(tripped := true, step := 0, nextAttempt := now + BREAKER_STEPS[0]);
          tripped := true;
        }
      } else if e.step < |BREAKER_STEPS| - 1 {
        e := e.(step := e.step + 1, nextAttempt := now + BREAKER_STEPS[e.step + 1]);
        stepped := true;
      } else {
        e := e.(nextAttempt := now + BREAKER_STEPS[|BREAKER_STEPS| - 1]);
      }
      logs := Failed(logs, key, f);
      assert e == EntryOf(logs[k]);
      entries := entries[k := e];
    }

    // Forgets the key: its episode is over.
    method Success(key: BreakerKey)
      requires Valid()
      modifies this
      ensures Valid()
      ensures logs == Cleared(old(logs), key)
    {
      entries := entries - {key.String()};
      logs := Cleared(logs, key);
    }

    // How long the key has been failing, measured from the log's first entry.
    method Since(key: BreakerKey, now: Time) returns (stuck: Duration, tracked: bool, tripped: bool)
      requires Valid()
      ensures tracked <==> LogOf(logs, key) != []
      ensures tripped == Tripped(LogOf(logs, key))
      ensures stuck == if tracked then now - LogOf(logs, key)[0].at else 0
    {
      var k := key.String();
      if k !in entries {
        return 0, false, false;
      }
      return now - entries[k].firstFailAt, true, entries[k].tripped;
    }

    // Drops every key untouched for twice the capped step and reports each of them once.
    // The map is walked in an arbitrary order, which the ghost result names.
    method EvictStale(now: Time) returns (evicted: seq<BreakerKey>, ghost order: seq<string>)
      requires Valid()
      modifies this
      ensures Valid()
      ensures logs == Swept(old(logs), now)
      ensures GoneInMinutes(old(logs), logs, now)
      ensures |order| == |evicted| && (forall k :: k in order <==> k in StaleKeys(old(logs), now))
      ensures forall i, j :: 0 <= i < j < |order| ==> order[i] != order[j]
      ensures forall i :: 0 <= i < |order| ==> order[i] in old(logs) && evicted[i] == old(logs)[order[i]].key
    {
      var staleBefore := now - 2 * BREAKER_STEPS[|BREAKER_STEPS| - 1];
      ghost var before, gone := entries, {};
      evicted, order := [], [];
      var todo := entries.Keys;
      while todo != {}
        invariant todo <= entries.Keys && logs == old(logs)
        invariant entries == before - gone
        invariant forall k :: k in before && k !in todo ==> (k in gone <==> before[k].nextAttempt < staleBefore)
        invariant Reports(order, evicted, gone, before)
        decreases todo
      {
        var k :| k in todo;
        var e := entries[k];
        todo := todo - {k};
        if e.nextAttempt < staleBefore {
          ReportOneMore(order, evicted, gone, before, k);
          evicted := evicted + [e.key];
          order, gone := order + [k], gone + {k};
          entries := entries - {k};
        }
      }
      SweptEntries(logs, now, gone);
      SweepInMinutes(logs, now);
      logs := Swept(logs, now);
    }
  }
}
