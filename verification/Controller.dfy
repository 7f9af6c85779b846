/**
 * The handlers of pkg/driver/controller.go that drive the breakers, as the source writes
 * them. Each is proved against the transitions of the books; DetachProtocol.HandlerAlone says
 * that the steps of the protocol, taken in a row, do the same.
 */
module Controller {
  import opened Wrappers
  import opened Clock
  import opened FailureLog
  import opened CircuitBreaker
  import opened Bookkeeping
  import InFlight

  // The gRPC answer of a handler.
  datatype Code = OK | InvalidArgument | AlreadyExists | Paused | HasSnapshots | Failed

  // What a cloud operation answered. Whether an error is terminal is the classifier's word.
  datatype CloudAnswer = Accepted | Error(terminal: bool)

  // The snapshot listing in front of a delete.
  datatype Listing = Empty | HasSnapshots | ListError(terminal: bool)

  class ControllerService {
    const inFlight: InFlight.InFlight
    const detachBreaker: Breaker
    const deleteBreaker: Breaker
    var detachPending: map<BreakerKey, Duration>
    var deletePending: map<BreakerKey, Duration>
    // Ghost counts of the events emitted, per episode.
    ghost var detachWarned: map<string, nat>
    ghost var deleteWarned: map<string, nat>
    ghost var detachRecovered: nat
    ghost var deleteRecovered: nat

    ghost predicate Valid()
      reads this, detachBreaker, deleteBreaker
    {
      detachBreaker != deleteBreaker && detachBreaker.Valid() && deleteBreaker.Valid()
    }

    ghost function DetachBooks(): Books
      reads this, detachBreaker
    {
      Books(detachBreaker.logs, detachPending, detachWarned, detachRecovered)
    }

    ghost function DeleteBooks(): Books
      reads this, deleteBreaker
    {
      Books(deleteBreaker.logs, deletePending, deleteWarned, deleteRecovered)
    }

    constructor ()
      ensures Valid() && fresh(inFlight) && fresh(detachBreaker) && fresh(deleteBreaker)
      ensures inFlight.inFlight == map[] && DetachBooks() == NO_BOOKS && DeleteBooks() == NO_BOOKS
    {
      inFlight := new InFlight.InFlight();
      detachBreaker := new Breaker();
      deleteBreaker := new Breaker();
      detachPending, deletePending := map[], map[];
      detachWarned, deleteWarned, detachRecovered, deleteRecovered := map[], map[], 0, 0;
    }

    method EvictStaleDetachState(now: Time)
      requires Valid()
      modifies this`detachPending, this`detachWarned, detachBreaker
      ensures Valid() && DetachBooks() == AfterSweep(old(DetachBooks()), now)
    {
      ghost var b := DetachBooks();
      var evicted, order := detachBreaker.EvictStale(now);
      for i := 0 to |evicted|
        modifies this`detachPending
        invariant detachPending == b.gauge - (set j | 0 <= j < i :: evicted[j])
      {
        detachPending := detachPending - {evicted[i]};
      }
      EvictedSet(b, now, evicted, order);
      detachWarned := detachWarned - StaleKeys(b.logs, now);
    }

    method EvictStaleDeleteState(now: Time)
      requires Valid()
      modifies this`deletePending, this`deleteWarned, deleteBreaker
      ensures Valid() && DeleteBooks() == AfterSweep(old(DeleteBooks()), now)
    {
      ghost var b := DeleteBooks();
      var evicted, order := deleteBreaker.EvictStale(now);
      for i := 0 to |evicted|
        modifies this`deletePending
        invariant deletePending == b.gauge - (set j | 0 <= j < i :: evicted[j])
      {
        deletePending := deletePending - {evicted[i]};
      }
      EvictedSet(b, now, evicted, order);
      deleteWarned := deleteWarned - StaleKeys(b.logs, now);
    }

    method ClearDetachStateOnAttach(key: BreakerKey, now: Time)
      requires Valid()
      modifies this`detachPending, this`detachWarned, detachBreaker
      ensures Valid() && DetachBooks() == AfterClear(AfterSweep(old(DetachBooks()), now), key)
    {
      EvictStaleDetachState(now);
      detachBreaker.Success(key);
      detachPending := detachPending - {key};
      detachWarned := detachWarned - {key.String()};
    }

    ghost function Count(warned: map<string, nat>, key: BreakerKey): nat {
      if key.String() in warned then warned[key.String()] else 0
    }

    method OnDetachFailed(key: BreakerKey, now: Time, terminal: bool)
      requires Valid()
      modifies this`detachPending, this`detachWarned, detachBreaker
      ensures Valid()
      ensures DetachBooks() == AfterFailure(Detach, old(DetachBooks()), key, Failure(terminal, now))
    {
      var tripped, stepped := detachBreaker.Failure(key, terminal, now);
      var stuck, _, isTripped := detachBreaker.Since(key, now);
      if isTripped {
        detachPending := detachPending[key := stuck];
      }
      var emitted := tripped || stepped;
      detachWarned := detachWarned[key.String() := Count(detachWarned, key) + if emitted then 1 else 0];
    }

    method OnDetachSucceeded(key: BreakerKey, now: Time)
      requires Valid()
      modifies this`detachPending, this`detachWarned, this`detachRecovered, detachBreaker
      ensures Valid() && DetachBooks() == AfterSuccess(old(DetachBooks()), key)
      ensures key !in detachPending && LogOf(detachBreaker.logs, key) == []
      ensures detachRecovered == old(detachRecovered) + if Tripped(old(LogOf(detachBreaker.logs, key))) then 1 else 0
    {
      var _, _, wasTripped := detachBreaker.Since(key, now);
      detachBreaker.Success(key);
      detachPending := detachPending - {key};
      detachWarned := detachWarned - {key.String()};
      if !wasTripped {
        return;
      }
      detachRecovered := detachRecovered + 1;
    }

    // The breaker records a failed delete and the gauge follows; says whether it is the pair's
    // first, and whether the breaker opened or moved on.
    method RecordDeleteFailure(key: BreakerKey, now: Time, terminal: bool) returns (first: bool, stalled: bool)
      requires Valid()
      modifies this`deletePending, deleteBreaker
      ensures Valid()
      ensures deleteBreaker.logs == CircuitBreaker.Failed(old(deleteBreaker.logs), key, Failure(terminal, now))
      ensures deletePending == AfterFailure(Delete, old(DeleteBooks()), key, Failure(terminal, now)).gauge
      ensures var before, after := old(LogOf(deleteBreaker.logs, key)), LogOf(deleteBreaker.logs, key);
              (first <==> before == []) && (stalled <==> Trips(before, after) || Escalates(before, after))
    {
      var _, tracked, _ := deleteBreaker.Since(key, now);
      first := !tracked;
      var tripped, stepped := deleteBreaker.Failure(key, terminal, now);
      stalled := tripped || stepped;
      var stuck, _, isTripped := deleteBreaker.Since(key, now);
      if isTripped {
        deletePending := deletePending[key := stuck];
      }
    }

    method OnDeleteFailed(key: BreakerKey, now: Time, terminal: bool)
      requires Valid()
      modifies this`deletePending, this`deleteWarned, deleteBreaker
      ensures Valid()
      ensures DeleteBooks() == AfterFailure(Delete, old(DeleteBooks()), key, Failure(terminal, now))
    {
      var first, stalled := RecordDeleteFailure(key, now, terminal);
      // Either the first-failure event or the stalled event, never both.
      var emitted := first || stalled;
      deleteWarned := deleteWarned[key.String() := Count(deleteWarned, key) + if emitted then 1 else 0];
    }

    method OnDeleteSucceeded(key: BreakerKey, now: Time)
      requires Valid()
      modifies this`deletePending, this`deleteWarned, this`deleteRecovered, deleteBreaker
      ensures Valid() && DeleteBooks() == AfterSuccess(old(DeleteBooks()), key)
      ensures key !in deletePending && LogOf(deleteBreaker.logs, key) == []
      ensures deleteRecovered == old(deleteRecovered) + if Tripped(old(LogOf(deleteBreaker.logs, key))) then 1 else 0
    {
      var _, _, wasTripped := deleteBreaker.Since(key, now);
      deleteBreaker.Success(key);
      deletePending := deletePending - {key};
      deleteWarned := deleteWarned - {key.String()};
      if !wasTripped {
        return;
      }
      deleteRecovered := deleteRecovered + 1;
    }

    // The detach handler. now is the clock once the key is held, probe the answer of the
    // read-only state check (None if it failed), detach the answer of the real attempt.
    // commanded says whether that attempt was made.
    method ControllerUnpublishVolume(
        volumeID: string, nodeID: string, now: Time, probe: Option<bool>, detach: CloudAnswer)
      returns (code: Code, commanded: bool)
      requires Valid()
      modifies this, detachBreaker, inFlight
      ensures Valid() && inFlight.inFlight == old(inFlight.inFlight) && DeleteBooks() == old(DeleteBooks())
      ensures code == (
        var key := BreakerKey(volumeID, nodeID);
        if volumeID == "" || nodeID == "" then InvalidArgument
        else if old(inFlight.Holds(volumeID + nodeID)) then AlreadyExists
        else if CircuitBreaker.Paused(old(detachBreaker.logs), key, now) then
          if probe == Some(true) then OK else Code.Paused
        else if detach.Accepted? then OK else Code.Failed)
      // A command goes out only when the key is free and its breaker is not pausing it.
      ensures commanded <==>
              && code !in {InvalidArgument, AlreadyExists}
              && !CircuitBreaker.Paused(old(detachBreaker.logs), BreakerKey(volumeID, nodeID), now)
      ensures code == OK ==>
                DetachBooks() == AfterSuccess(AfterSweep(old(DetachBooks()), now), BreakerKey(volumeID, nodeID))
      ensures code == Code.Failed ==>
                DetachBooks() == AfterFailure(Detach, AfterSweep(old(DetachBooks()), now),
                                              BreakerKey(volumeID, nodeID), Failure(detach.terminal, now))
      // A probe that confirms nothing records nothing.
      ensures code == Code.Paused ==> DetachBooks() == AfterSweep(old(DetachBooks()), now)
      ensures code in {InvalidArgument, AlreadyExists} ==> DetachBooks() == old(DetachBooks())
    {
      if volumeID == "" || nodeID == "" {
        return InvalidArgument, false;
      }
      var key := BreakerKey(volumeID, nodeID);
      var ok := inFlight.Insert(volumeID + nodeID);
      if !ok {
        return AlreadyExists, false;
      }
      SweepKeepsPause(DetachBooks(), key, now);
      EvictStaleDetachState(now);
      var d := detachBreaker.Allow(key, now);
      if d == ProbeOnly {
        if probe == Some(true) {
          OnDetachSucceeded(key, now);
          code := OK;
        } else {
          code := Code.Paused;
        }
        commanded := false;
      } else {
        commanded := true;
        if detach.Error? {
          OnDetachFailed(key, now, detach.terminal);
          code := Code.Failed;
        } else {
          OnDetachSucceeded(key, now);
          code := OK;
        }
      }
      inFlight.Delete(volumeID + nodeID);
    }

    // The delete handler. A pause ends as soon as the probe finds the volume deletable, and
    // a volume held by a snapshot is left alone without blaming the IaaS.
    method DeleteVolume(
        volumeID: string, now: Time, deletable: Option<bool>, snapshots: Listing, delete: CloudAnswer)
      returns (code: Code, commanded: bool)
      requires Valid()
      modifies this, deleteBreaker, inFlight
      ensures Valid() && inFlight.inFlight == old(inFlight.inFlight) && DetachBooks() == old(DetachBooks())
      ensures code == (
        var key := BreakerKey(volumeID, "");
        if volumeID == "" then InvalidArgument
        else if old(inFlight.Holds(volumeID)) then AlreadyExists
        else if deletable != Some(true) &&
                CircuitBreaker.Paused(old(deleteBreaker.logs), key, now) then
          Code.Paused
        else if snapshots.ListError? then Code.Failed
        else if snapshots.HasSnapshots? then Code.HasSnapshots
        else if delete.Accepted? then OK else Code.Failed)
      ensures commanded <==> snapshots.Empty? && code in {OK, Code.Failed}
      ensures code == OK ==>
                && commanded
                && DeleteBooks() == AfterSuccess(AfterSweep(old(DeleteBooks()), now), BreakerKey(volumeID, ""))
      ensures code == Code.Failed ==>
                DeleteBooks() == AfterFailure(
                  Delete, AfterSweep(old(DeleteBooks()), now), BreakerKey(volumeID, ""),
                  Failure(if snapshots.ListError? then snapshots.terminal else delete.terminal, now))
      ensures code in {Code.Paused, Code.HasSnapshots} ==> DeleteBooks() == AfterSweep(old(DeleteBooks()), now)
      ensures code in {InvalidArgument, AlreadyExists} ==> DeleteBooks() == old(DeleteBooks())
    {
      commanded := false;
      if volumeID == "" {
        return InvalidArgument, false;
      }
      var ok := inFlight.Insert(volumeID);
      if !ok {
        return AlreadyExists, false;
      }
      var key := BreakerKey(volumeID, "");
      assert key.String() == volumeID;
      SweepKeepsPause(DeleteBooks(), key, now);
      EvictStaleDeleteState(now);
      var d := deleteBreaker.Allow(key, now);
      if d == ProbeOnly && deletable != Some(true) {
        code := Code.Paused;
      } else if snapshots.ListError? {
        OnDeleteFailed(key, now, snapshots.terminal);
        code := Code.Failed;
      } else if snapshots.HasSnapshots? {
        code := Code.HasSnapshots;
      } else {
        commanded := true;
        if delete.Error? {
          OnDeleteFailed(key, now, delete.terminal);
          code := Code.Failed;
        } else {
          OnDeleteSucceeded(key, now);
          code := OK;
        }
      }
      inFlight.Delete(volumeID);
    }

    // The attach handler, as far as it touches the detach state. capable says whether the volume
    // capability is there and supported, after is the clock when the attach and the device lookup
    // have succeeded.
    method ControllerPublishVolume(
        volumeID: string, nodeID: string, capable: bool, after: Time, attached: bool, device: bool)
      returns (code: Code)
      requires Valid()
      modifies this, detachBreaker, inFlight
      ensures Valid() && inFlight.inFlight == old(inFlight.inFlight) && DeleteBooks() == old(DeleteBooks())
      ensures code == (
        if volumeID == "" || nodeID == "" || !capable then InvalidArgument
        else if old(inFlight.Holds(volumeID + nodeID)) then AlreadyExists
        else if attached && device then OK else Code.Failed)
      // After a successful attach the next detach is not paused, whatever went before.
      ensures code == OK ==>
                && DetachBooks() == AfterClear(AfterSweep(old(DetachBooks()), after), BreakerKey(volumeID, nodeID))
                && forall t :: !CircuitBreaker.Paused(DetachBooks().logs, BreakerKey(volumeID, nodeID), t)
      ensures code != OK ==> DetachBooks() == old(DetachBooks())
    {
      if volumeID == "" || nodeID == "" || !capable {
        return InvalidArgument;
      }
      var ok := inFlight.Insert(volumeID + nodeID);
      if !ok {
        return AlreadyExists;
      }
      if !attached || !device {
        code := Code.Failed;
      } else {
        ClearDetachStateOnAttach(BreakerKey(volumeID, nodeID), after);
        code := OK;
      }
      inFlight.Delete(volumeID + nodeID);
    }
  }

  // Three detaches that fail, none of them for good, at most four hours apart and at least five
  // minutes from the first to the last: the fourth call within ten minutes commands nothing.
  method FourDetaches(
      s: ControllerService, volumeID: string, nodeID: string, t0: Time, t1: Time, t2: Time, now: Time,
      probes: (Option<bool>, Option<bool>, Option<bool>, Option<bool>), last: CloudAnswer)
    returns (code: Code, commanded: bool)
    requires s.Valid() && volumeID != "" && nodeID != "" && !s.inFlight.Holds(volumeID + nodeID)
    requires volumeID + nodeID !in s.detachBreaker.logs && t0 <= t1 <= t2
    requires t1 - t0 <= 240 * MINUTE && t2 - t1 <= 240 * MINUTE && t2 - t0 >= 5 * MINUTE && now < t2 + 10 * MINUTE
    modifies s, s.detachBreaker, s.inFlight
    ensures !commanded && code == if probes.3 == Some(true) then OK else Code.Paused
  {
    var key := BreakerKey(volumeID, nodeID);
    ThreeFailuresPause(Detach, s.DetachBooks(), key, t0, t1, t2, now);
    var failed := Error(false);
    ghost var b := s.DetachBooks();
    SweepKeepsPause(b, key, t0);
    code, commanded := s.ControllerUnpublishVolume(volumeID, nodeID, t0, probes.0, failed);
    assert s.DetachBooks() == Attempted(Detach, b, key, t0);
    b := s.DetachBooks();
    SweepKeepsPause(b, key, t1);
    code, commanded := s.ControllerUnpublishVolume(volumeID, nodeID, t1, probes.1, failed);
    assert s.DetachBooks() == Attempted(Detach, b, key, t1);
    b := s.DetachBooks();
    SweepKeepsPause(b, key, t2);
    code, commanded := s.ControllerUnpublishVolume(volumeID, nodeID, t2, probes.2, failed);
    assert s.DetachBooks() == Attempted(Detach, b, key, t2);
    SweepKeepsPause(s.DetachBooks(), key, now);
    code, commanded := s.ControllerUnpublishVolume(volumeID, nodeID, now, probes.3, last);
  }
}
