/**
 * pkg/cloud/cloud_private.go: volumes as the IaaS shows them, and the one polling loop behind
 * every wait, against an IaaS that answers every read and every command as it likes.
 */
module VolumeWaits {
  import opened Wrappers
  import opened SdkErrors
  import opened Backoff

  const IN_USE := "IN-USE"
  const AVAILABLE := "AVAILABLE"

  type Uint64 = n: int | 0 <= n < 0x1_0000_0000_0000_0000

  datatype Volume = Volume(
    status: string, vmId: string, attachedMachine: seq<string>, size: Uint64, volumeTypeID: string)
  {
    // The driver's own predicates on top of the SDK's volume.
    predicate IsMigration() {
      status == "MIGRATING"
    }

    predicate IsCreating() {
      status == "CREATING" || status == "CREATING-BILLING"
    }

    predicate IsAttached() {
      status == IN_USE || attachedMachine != [] || vmId != ""
    }
  }

  // The SDK's own predicates on volumes; their bodies are not in the repository.
  datatype Sdk = Sdk(
    isAvailable: Volume -> bool, isError: Volume -> bool, canDelete: Volume -> bool,
    attachedTo: (Volume, string) -> bool, equalFold: (string, string) -> bool)

  // What the driver's tests fix about them.
  ghost predicate Conforms(sdk: Sdk) {
    && (forall v :: sdk.isAvailable(v) <==> v.status == AVAILABLE)
    && (forall v, i :: sdk.attachedTo(v, i) <==> v.vmId == i || i in v.attachedMachine)
  }

  predicate IsDetachedFrom(sdk: Sdk, v: Volume, instanceID: string) {
    sdk.isAvailable(v) || !sdk.attachedTo(v, instanceID)
  }

  predicate Attachable(sdk: Sdk, v: Volume, instanceID: string) {
    if sdk.attachedTo(v, instanceID) then v.status == IN_USE else v.status == AVAILABLE
  }

  predicate IsSettled(v: Volume) {
    v.status == AVAILABLE || v.status == IN_USE
  }

  predicate IsMigratedToType(v: Volume, volumeType: string) {
    IsSettled(v) && v.volumeTypeID == volumeType
  }

  datatype ReadAnswer = Got(vol: Volume) | Failed(err: SdkError)

  datatype ZoneAnswer = Zone(id: string) | NoZone(err: SdkError)

  // The calls an operation makes, with their answers; no error means accepted.
  datatype Call =
    | Read(volumeID: string, answer: ReadAnswer)
    | ReadType(typeID: string, zone: ZoneAnswer)
    | Attach(instanceID: string, volumeID: string, err: Option<SdkError>)
    | Detach(instanceID: string, volumeID: string, err: Option<SdkError>)
    | Delete(volumeID: string, err: Option<SdkError>)
    | Migrate(volumeID: string, volumeType: string, err: Option<SdkError>)
    | Resize(volumeID: string, volumeType: string, size: int, err: Option<SdkError>)

  predicate Shows(c: Call, v: Volume) {
    c.Read? && c.answer == Got(v)
  }

  predicate ShowsNotFound(c: Call) {
    c.Read? && c.answer.Failed? && c.answer.err.code == EcVServerVolumeNotFound
  }

  // ----- What a wait waits for -----

  datatype Wait = Attached(instanceID: string) | ToAttach(instanceID: string) | Detached(instanceID: string)
    | Deletable | Migrated(volumeType: string) | Settled
  {
    function Budget(): Budget {
      match this
      case ToAttach(_) => VOLUME_BUSY
      case Migrated(_) => VOLUME_MIGRATION
      case _ => VOLUME_OPERATION
    }

    predicate NotFoundIsDone() {
      Detached? || Deletable?
    }

    predicate FailsOnErrorState() {
      !Deletable? && !Settled?
    }

    predicate Done(sdk: Sdk, v: Volume) {
      match this
      case Attached(i) => sdk.attachedTo(v, i) && v.status == IN_USE
      case ToAttach(i) => Attachable(sdk, v, i)
      case Detached(i) => IsDetachedFrom(sdk, v, i)
      case Deletable => sdk.canDelete(v)
      case Migrated(t) => IsMigratedToType(v, t)
      case Settled => IsSettled(v)
    }

    // Does an answer end the wait, one way or the other?
    predicate Ends(sdk: Sdk, a: ReadAnswer) {
      match a
      case Got(v) => Done(sdk, v) || (FailsOnErrorState() && sdk.isError(v))
      case Failed(e) => e.code == EcVServerVolumeNotFound && NotFoundIsDone()
    }

    // How it ends with the answer that ends it.
    function Verdict(sdk: Sdk, a: ReadAnswer): Waited {
      if a.Failed? then Vanished
      else if Done(sdk, a.vol) then Reached(a.vol)
      else ErrorState
    }
  }

  datatype Waited = Reached(vol: Volume) | Vanished | ErrorState | TimedOut | Canceled {
    predicate GaveUp() {
      !Reached? && !Vanished?
    }
  }

  // An error without an inner one: GetError() is nil.
  function ErrVolumeNotFound(): SdkError {
    SdkError(EcVServerVolumeNotFound, None, None)
  }

  function ErrVolumeIsInErrorState(): SdkError {
    SdkError(EcOther("VolumeIsInErrorState"), Some("volume is in error state"), None)
  }

  // The IaaS and the caller's context: arbitrary answers to the k-th call, whether the context
  // is done when k calls have been made, and which of two concurrent failures is noticed last.
  datatype World = World(
    sdk: Sdk, client: nat -> Option<SdkError>, shown: nat -> ReadAnswer, zones: nat -> ZoneAnswer,
    commands: nat -> Option<SdkError>, cancelled: nat -> bool, secondLast: nat -> bool)
  {
    // trace[from..to] is reads of the volume, in time, none of which ends the wait.
    predicate Polling(w: Wait, volumeID: string, trace: seq<Call>, from: nat, to: nat)
      requires to <= |trace|
    {
      forall i :: from <= i < to ==>
        trace[i].Read? && trace[i].volumeID == volumeID && !cancelled(i) && !w.Ends(sdk, trace[i].answer)
    }

    // The reads trace[from..] are a complete wait with that outcome: it ends at the first read
    // that ends it, at a done context, or when the budget's steps are used up.
    predicate Waits(w: Wait, volumeID: string, trace: seq<Call>, from: nat, r: Waited) {
      var n := |trace|;
      && from <= n <= from + w.Budget().steps
      && match r
         case Canceled => n < from + w.Budget().steps && cancelled(n) && Polling(w, volumeID, trace, from, n)
         case TimedOut => n == from + w.Budget().steps && Polling(w, volumeID, trace, from, n)
         case _ =>
           && from < n && Polling(w, volumeID, trace, from, n - 1) && !cancelled(n - 1)
           && trace[n - 1].Read? && trace[n - 1].volumeID == volumeID
           && w.Ends(sdk, trace[n - 1].answer) && r == w.Verdict(sdk, trace[n - 1].answer)
    }
  }

  // The description leaves a wait no choice: it fixes how long it goes on and how it ends.
  lemma WaitsIsDeterministic(
      world: World, w: Wait, id: string, a: seq<Call>, b: seq<Call>, from: nat, r: Waited, q: Waited)
    requires world.Waits(w, id, a, from, r) && world.Waits(w, id, b, from, q)
    requires forall i :: from <= i < |a| ==> a[i] == Read(id, world.shown(i))
    requires forall i :: from <= i < |b| ==> b[i] == Read(id, world.shown(i))
    ensures |a| == |b| && r == q
  {
    if |a| == |b| && from < |a| {
      assert a[|a| - 1] == b[|a| - 1];
    }
  }

  // Only an observed goal, or a volume that is gone where that is the goal, ends a wait well;
  // a wait that gives up has used its whole budget, or its context, or seen an ERROR.
  lemma WaitedForAReason(world: World, w: Wait, id: string, trace: seq<Call>, from: nat, r: Waited)
    requires world.Waits(w, id, trace, from, r)
    ensures r.Reached? ==> from < |trace| && Shows(trace[|trace| - 1], r.vol) && w.Done(world.sdk, r.vol)
    ensures r.Vanished? ==> from < |trace| && ShowsNotFound(trace[|trace| - 1]) && w.NotFoundIsDone()
    ensures r.GaveUp() ==> forall i, v :: from <= i < |trace| && Shows(trace[i], v) ==> !w.Done(world.sdk, v)
    ensures r.ErrorState? ==> w.FailsOnErrorState() && exists v :: Shows(trace[|trace| - 1], v) && world.sdk.isError(v)
  {
  }

  // A volume that has vanished is polled to the end of the budget exactly where its absence is
  // not the goal: the error made to abort the wait has no inner error, so it does not. Where its
  // absence is the goal, one read is enough.
  lemma AVanishedVolumeIsPolledToTheEnd(world: World, w: Wait, id: string, trace: seq<Call>, from: nat, r: Waited)
    requires world.Waits(w, id, trace, from, r)
    requires forall i :: from <= i < |trace| ==> ShowsNotFound(trace[i])
    requires forall i: nat :: !world.cancelled(i)
    ensures !w.NotFoundIsDone() <==> r == TimedOut && |trace| == from + w.Budget().steps
    ensures w.NotFoundIsDone() <==> r == Vanished && |trace| == from + 1
  {
    if from < |trace| {
      assert ShowsNotFound(trace[from]) && ShowsNotFound(trace[|trace| - 1]);
    }
  }

  // What the six waits wait for, spelled out for any volume under the predicates the tests fix.
  lemma GoalsInFull(sdk: Sdk, v: Volume, instanceID: string, volumeType: string)
    requires Conforms(sdk)
    ensures var here := v.vmId == instanceID || instanceID in v.attachedMachine;
            && (Detached(instanceID).Done(sdk, v) <==> v.status == "AVAILABLE" || !here)
            && (Attached(instanceID).Done(sdk, v) <==> v.status == "IN-USE" && here)
            && (ToAttach(instanceID).Done(sdk, v) <==>
                  if here then v.status == "IN-USE" else v.status == "AVAILABLE")
    ensures var settled := v.status == "AVAILABLE" || v.status == "IN-USE";
            && (Settled.Done(sdk, v) <==> settled)
            && (Migrated(volumeType).Done(sdk, v) <==> settled && v.volumeTypeID == volumeType)
    ensures Deletable.Done(sdk, v) <==> sdk.canDelete(v)
  {
  }

  // What keeps a volume from being migrated, spelled out.
  lemma StatusInFull(v: Volume)
    ensures v.IsAttached() <==> v.status == "IN-USE" || v.attachedMachine != [] || v.vmId != ""
    ensures v.IsMigration() || v.IsCreating() <==> v.status in {"MIGRATING", "CREATING", "CREATING-BILLING"}
  {
  }

  // Which answers end which wait: its goal; an ERROR, but for delete and settle; and not-found for
  // detach and delete alone. A wait makes up to 13 reads, 12 for a migration and 8 for a busy volume.
  lemma EndsInFull(sdk: Sdk, w: Wait, a: ReadAnswer)
    ensures a.Got? ==> (w.Ends(sdk, a) <==> w.Done(sdk, a.vol) || (sdk.isError(a.vol) && !w.Deletable? && !w.Settled?))
    ensures a.Failed? ==> (w.Ends(sdk, a) <==> a.err.code == EcVServerVolumeNotFound && (w.Detached? || w.Deletable?))
    ensures w.Budget().steps == if w.Migrated? then 12 else if w.ToAttach? then 8 else 13
    ensures w.Ends(sdk, a) ==>
              w.Verdict(sdk, a) ==
              if a.Failed? then Vanished else if w.Done(sdk, a.vol) then Reached(a.vol) else ErrorState
  {
  }

  // A volume that is on its way out but still attached here is not detached.
  lemma DetachingIsNotDetached(sdk: Sdk, v: Volume, instanceID: string)
    requires Conforms(sdk) && v.status == "DETACHING" && (v.vmId == instanceID || instanceID in v.attachedMachine)
    ensures !Detached(instanceID).Done(sdk, v)
  {
    assert "DETACHING"[0] != AVAILABLE[0];
  }

  // Attach and detach have opposite goals: no volume meets both.
  lemma AttachedIsNotDetached(sdk: Sdk, v: Volume, instanceID: string)
    requires Conforms(sdk)
    ensures !(Attached(instanceID).Done(sdk, v) && Detached(instanceID).Done(sdk, v))
    ensures Attached(instanceID).Done(sdk, v) ==> ToAttach(instanceID).Done(sdk, v) && Settled.Done(sdk, v)
    ensures ToAttach(instanceID).Done(sdk, v) ==> Attached(instanceID).Done(sdk, v) || Detached(instanceID).Done(sdk, v)
  {
    assert AVAILABLE[0] != IN_USE[0];
  }

  // ----- The loop -----

  class Cloud {
    const world: World
    var trace: seq<Call>

    constructor (world: World)
      ensures this.world == world && trace == []
    {
      this.world, trace := world, [];
    }

    method GetVolumeById(volumeID: string) returns (a: ReadAnswer)
      modifies this
      ensures trace == old(trace) + [Read(volumeID, a)] && a == world.shown(|old(trace)|)
    {
      a := world.shown(|trace|);
      trace := trace + [Read(volumeID, a)];
    }

    // What waitVolume's condition makes of one read: finished, or the error to give up with.
    method Condition(volumeID: string, w: Wait) returns (done: bool, res: Option<Volume>, err: Option<string>)
      modifies this
      ensures trace == old(trace) + [Read(volumeID, world.shown(|old(trace)|))]
      ensures var a := world.shown(|old(trace)|);
              && (done || err.Some? <==> w.Ends(world.sdk, a))
              && (done ==> w.Verdict(world.sdk, a) == if res.Some? then Reached(res.value) else Vanished)
              && (err.Some? ==> !done && w.Verdict(world.sdk, a) == ErrorState)
    {
      var a := GetVolumeById(volumeID);
      if a.Failed? {
        if a.err.code == EcVServerVolumeNotFound {
          if w.NotFoundIsDone() {
            return true, None, None;
          }
          return false, None, ErrVolumeNotFound().inner;
        }
        return false, None, None;
      }
      if w.Done(world.sdk, a.vol) {
        return true, Some(a.vol), None;
      }
      if w.FailsOnErrorState() && world.sdk.isError(a.vol) {
        return false, None, ErrVolumeIsInErrorState().inner;
      }
      return false, None, None;
    }

    // ExponentialBackoffWithContext around that condition; Backoff.WalkBackoff is the time the
    // same loop sleeps between the reads.
    method WaitVolume(volumeID: string, w: Wait) returns (r: Waited)
      modifies this
      ensures old(trace) <= trace
      ensures forall i :: |old(trace)| <= i < |trace| ==> trace[i] == Read(volumeID, world.shown(i))
      ensures world.Waits(w, volumeID, trace, |old(trace)|, r)
    {
      ghost var base := |trace|;
      var steps := w.Budget().steps;
      while steps > 0
        invariant 0 < steps && |trace| + steps == base + w.Budget().steps
        invariant old(trace) <= trace
        invariant forall i :: base <= i < |trace| ==> trace[i] == Read(volumeID, world.shown(i))
        invariant world.Polling(w, volumeID, trace, base, |trace|)
      {
        if world.cancelled(|trace|) {
          return Canceled;
        }
        var done, res, err := Condition(volumeID, w);
        if done {
          return if res.Some? then Reached(res.value) else Vanished;
        }
        if err.Some? {
          return ErrorState;
        }
        if steps == 1 {
          return TimedOut;
        }
        steps := steps - 1;
      }
    }
  }
}
