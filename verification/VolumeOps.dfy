/**
 * pkg/cloud/cloud.go: attach, detach and delete on top of the wait. An operation that succeeds
 * has seen its goal; each command is issued only where its precondition has just been read, and
 * so at most once (attach: twice); an operation that fails says what it failed on.
 */
module VolumeOps {
  import opened Wrappers
  import opened SdkErrors
  import opened VolumeWaits

  datatype Problem =
    | NoClient(err: SdkError)
    | VolumeNotFound
    | CannotGet(err: SdkError)
    | InErrorState
    | Rejected(err: SdkError)
    | GaveUp(why: Waited)

  datatype Result<T> = Ok(value: T) | Err(problem: Problem)

  // ----- Attach -----

  // When the i-th call may be an attach: right after the first read, which shows the volume not
  // attached here and not in ERROR; or once more, when that attach was refused because the
  // volume is busy, and the read just before shows it AVAILABLE and not attached here.
  ghost predicate AttachIsDue(sdk: Sdk, instanceID: string, trace: seq<Call>, from: nat, i: nat)
    requires from < i < |trace|
  {
    exists v :: Shows(trace[i - 1], v) && !sdk.attachedTo(v, instanceID) &&
      if i == from + 1 then !sdk.isError(v)
      else
        && v.status == AVAILABLE
        && trace[from + 1].Attach? && RefusedAsBusy(trace[from + 1].err)
        && forall j :: from + 1 < j < i ==> trace[j].Read?
  }

  predicate RefusedAsBusy(err: Option<SdkError>) {
    err.Some? && err.value.code == EcVServerVolumeInProcess
  }

  ghost predicate AttachTrace(sdk: Sdk, instanceID: string, volumeID: string, trace: seq<Call>, from: nat) {
    forall i :: from <= i < |trace| ==>
      || (trace[i].Read? && trace[i].volumeID == volumeID)
      || (trace[i].Attach? && trace[i].instanceID == instanceID && trace[i].volumeID == volumeID &&
          from < i && AttachIsDue(sdk, instanceID, trace, from, i))
  }

  // When an attach goes out, spelled out: the call before it is a read of the volume, not attached
  // here; not in ERROR for the first, and for a second AVAILABLE, after a first refused as busy.
  lemma AttachesAreDue(sdk: Sdk, instanceID: string, volumeID: string, trace: seq<Call>, from: nat, i: nat)
    requires AttachTrace(sdk, instanceID, volumeID, trace, from) && from <= i < |trace| && !trace[i].Read?
    ensures trace[i].Attach? && trace[i].instanceID == instanceID && trace[i].volumeID == volumeID && from < i
    ensures trace[i - 1].Read? && trace[i - 1].answer.Got?
    ensures var v := trace[i - 1].answer.vol;
            && !sdk.attachedTo(v, instanceID) && (i == from + 1 ==> !sdk.isError(v))
            && (i > from + 1 ==>
                  && v.status == "AVAILABLE" && trace[from + 1].Attach? && trace[from + 1].err.Some?
                  && trace[from + 1].err.value.code == EcVServerVolumeInProcess
                  && forall j :: from + 1 < j < i ==> trace[j].Read?)
  {
    assert AttachIsDue(sdk, instanceID, trace, from, i);
  }

  // Reads may follow at any time.
  lemma ReadsKeepAttachTrace(
      sdk: Sdk, instanceID: string, volumeID: string, trace: seq<Call>, later: seq<Call>, from: nat)
    requires AttachTrace(sdk, instanceID, volumeID, trace, from) && trace <= later
    requires forall i :: |trace| <= i < |later| ==> later[i].Read? && later[i].volumeID == volumeID
    ensures AttachTrace(sdk, instanceID, volumeID, later, from)
  {
    forall i | from < i < |trace| && trace[i].Attach?
      ensures AttachIsDue(sdk, instanceID, later, from, i)
    {
      assert AttachIsDue(sdk, instanceID, trace, from, i);
    }
  }

  // At most two attaches in one operation, and only the second of them after a refusal.
  lemma AtMostTwoAttaches(
      sdk: Sdk, instanceID: string, volumeID: string, trace: seq<Call>, from: nat, i: nat, j: nat, k: nat)
    requires AttachTrace(sdk, instanceID, volumeID, trace, from)
    requires from <= i < j < k < |trace| && trace[i].Attach? && trace[j].Attach?
    ensures i == from + 1 && RefusedAsBusy(trace[i].err) && trace[k].Read?
  {
    assert AttachIsDue(sdk, instanceID, trace, from, i) && AttachIsDue(sdk, instanceID, trace, from, j);
  }

  // Why an attach failed, read off its calls.
  ghost predicate AttachFailed(
      world: World, instanceID: string, volumeID: string, trace: seq<Call>, from: nat, p: Problem)
  {
    match p
    case NoClient(e) => |trace| == from && world.client(from) == Some(e)
    case VolumeNotFound => |trace| == from + 1 && ShowsNotFound(trace[from])
    case CannotGet(e) =>
      |trace| == from + 1 && trace[from] == Read(volumeID, Failed(e)) && e.code != EcVServerVolumeNotFound
    case InErrorState => |trace| == from + 1 && exists v :: Shows(trace[from], v) && world.sdk.isError(v)
    case Rejected(e) =>
      || (from + 1 < |trace| && trace[|trace| - 1] == Attach(instanceID, volumeID, Some(e)) &&
          e.code != EcVServerVolumeAlreadyAttachedThisServer &&
          (RefusedAsBusy(Some(e)) ==> from + 2 < |trace|))
      || (from + 1 < |trace| && trace[from + 1] == Attach(instanceID, volumeID, Some(e)) && RefusedAsBusy(Some(e)) &&
          exists why: Waited :: why.GaveUp() && world.Waits(ToAttach(instanceID), volumeID, trace, from + 2, why))
    case GaveUp(why) =>
      why.GaveUp() && exists k :: from < k <= |trace| && world.Waits(Attached(instanceID), volumeID, trace, k, why) &&
                                  AttachUnderWay(world.sdk, instanceID, trace, from, k)
  }

  // What makes a wait from call k on worth while: the first read showed the volume attached here
  // already, or the call just before is an attach that went through.
  ghost predicate AttachUnderWay(sdk: Sdk, instanceID: string, trace: seq<Call>, from: nat, k: nat)
    requires from < k <= |trace|
  {
    || (k == from + 1 && exists v :: Shows(trace[from], v) && sdk.attachedTo(v, instanceID))
    || (k > from + 1 && trace[k - 1].Attach? &&
        (trace[k - 1].err.None? || trace[k - 1].err.value.code == EcVServerVolumeAlreadyAttachedThisServer))
  }

  // A read that shows the volume free for another attach.
  ghost predicate Cleared(sdk: Sdk, instanceID: string, c: Call) {
    exists v :: Shows(c, v) && v.status == "AVAILABLE" && !sdk.attachedTo(v, instanceID)
  }

  // After a refusal as busy, the first read that shows the volume free is followed by an attach.
  ghost predicate AttachesWhenCleared(
      world: World, instanceID: string, volumeID: string, trace: seq<Call>, from: nat)
  {
    forall i :: from + 2 <= i < |trace| && (forall j :: from + 2 <= j < i ==> trace[j].Read?) &&
                Cleared(world.sdk, instanceID, trace[i]) ==>
      i + 1 < |trace| && trace[i + 1] == Attach(instanceID, volumeID, world.commands(i + 1))
  }

  // The last call is a read that shows the volume attached to the instance and IN-USE.
  predicate AttachSeen(c: Cloud, instanceID: string, from: nat, v: Volume)
    reads c
  {
    from < |c.trace| && Shows(c.trace[|c.trace| - 1], v) && c.world.sdk.attachedTo(v, instanceID) && v.status == IN_USE
  }

  method WaitDiskAttached(c: Cloud, instanceID: string, volumeID: string) returns (r: Result<Volume>)
    modifies c
    ensures old(c.trace) <= c.trace
    ensures forall i :: |old(c.trace)| <= i < |c.trace| ==> c.trace[i].Read? && c.trace[i].volumeID == volumeID
    ensures r.Err? ==> r.problem.GaveUp? && r.problem.why.GaveUp()
    ensures c.world.Waits(Attached(instanceID), volumeID, c.trace, |old(c.trace)|,
                          if r.Ok? then Reached(r.value) else r.problem.why)
    ensures r.Ok? ==> AttachSeen(c, instanceID, |old(c.trace)|, r.value)
  {
    var w := c.WaitVolume(volumeID, Attached(instanceID));
    WaitedForAReason(c.world, Attached(instanceID), volumeID, c.trace, |old(c.trace)|, w);
    r := if w.Reached? then Ok(w.vol) else Err(GaveUp(w));
  }

  method GetVolumeForAttach(c: Cloud, volumeID: string) returns (r: Result<Volume>)
    modifies c
    ensures c.trace == old(c.trace) + [Read(volumeID, c.world.shown(|old(c.trace)|))]
    ensures var a := c.world.shown(|old(c.trace)|);
            match a
            case Got(v) => r == if c.world.sdk.isError(v) then Err(InErrorState) else Ok(v)
            case Failed(e) => r == Err(if e.code == EcVServerVolumeNotFound then VolumeNotFound else CannotGet(e))
  {
    var a := c.GetVolumeById(volumeID);
    if a.Failed? {
      if a.err.code == EcVServerVolumeNotFound {
        return Err(VolumeNotFound);
      }
      return Err(CannotGet(a.err));
    }
    if c.world.sdk.isError(a.vol) {
      return Err(InErrorState);
    }
    return Ok(a.vol);
  }

  method AttachBlockVolume(c: Cloud, instanceID: string, volumeID: string) returns (err: Option<SdkError>)
    modifies c
    ensures c.trace == old(c.trace) + [Attach(instanceID, volumeID, err)] && err == c.world.commands(|old(c.trace)|)
  {
    err := c.world.commands(|c.trace|);
    c.trace := c.trace + [Attach(instanceID, volumeID, err)];
  }

  // The volume has cleared: exactly one more attach.
  method ReissueAttach(c: Cloud, instanceID: string, volumeID: string, cleared: Volume, ghost from: nat)
      returns (r: Result<Volume>)
    requires from + 2 < |c.trace| && Shows(c.trace[|c.trace| - 1], cleared)
    requires !c.world.sdk.attachedTo(cleared, instanceID) && cleared.status == AVAILABLE
    requires c.trace[from + 1].Attach? && RefusedAsBusy(c.trace[from + 1].err)
    requires forall j :: from + 1 < j < |c.trace| ==> c.trace[j].Read?
    requires AttachTrace(c.world.sdk, instanceID, volumeID, c.trace, from)
    modifies c
    ensures old(c.trace) <= c.trace && |old(c.trace)| < |c.trace| <= |old(c.trace)| + 14
    ensures c.trace[|old(c.trace)|] == Attach(instanceID, volumeID, c.world.commands(|old(c.trace)|))
    ensures AttachTrace(c.world.sdk, instanceID, volumeID, c.trace, from)
    ensures r.Ok? ==> AttachSeen(c, instanceID, |old(c.trace)|, r.value)
    ensures r.Err? ==> AttachFailed(c.world, instanceID, volumeID, c.trace, from, r.problem)
  {
    ghost var again := |c.trace|;
    var retryErr := AttachBlockVolume(c, instanceID, volumeID);
    assert AttachIsDue(c.world.sdk, instanceID, c.trace, from, again);
    assert AttachTrace(c.world.sdk, instanceID, volumeID, c.trace, from);
    if retryErr.Some? && retryErr.value.code != EcVServerVolumeAlreadyAttachedThisServer {
      return Err(Rejected(retryErr.value));
    }
    ghost var issued := c.trace;
    r := WaitDiskAttached(c, instanceID, volumeID);
    ReadsKeepAttachTrace(c.world.sdk, instanceID, volumeID, issued, c.trace, from);
  }

  // A wait for the volume to clear ends with the first read that shows it free.
  lemma NothingClearedBefore(
      world: World, instanceID: string, volumeID: string, trace: seq<Call>, start: nat, w: Waited)
    requires world.Waits(ToAttach(instanceID), volumeID, trace, start, w)
    ensures forall i :: start <= i < |trace| && Cleared(world.sdk, instanceID, trace[i]) ==>
              i == |trace| - 1 && w.Reached? && !world.sdk.attachedTo(w.vol, instanceID)
  {
  }

  // That read is the only one to look at: an attach right after it is all that is asked.
  lemma AttachedWhenCleared(
      world: World, instanceID: string, volumeID: string, waited: seq<Call>, after: seq<Call>, from: nat, w: Waited)
    requires from + 2 <= |waited| && world.Waits(ToAttach(instanceID), volumeID, waited, from + 2, w) && waited <= after
    requires if w.Reached? && !world.sdk.attachedTo(w.vol, instanceID) then
               |waited| < |after| && after[|waited|] == Attach(instanceID, volumeID, world.commands(|waited|))
             else after == waited
    ensures AttachesWhenCleared(world, instanceID, volumeID, after, from)
  {
    NothingClearedBefore(world, instanceID, volumeID, waited, from + 2, w);
  }

  // The IaaS has refused the attach because the volume is busy.
  method AttachOnceMore(c: Cloud, instanceID: string, volumeID: string, refusal: SdkError, ghost from: nat)
      returns (r: Result<Volume>)
    requires |c.trace| == from + 2 && c.trace[from + 1] == Attach(instanceID, volumeID, Some(refusal))
    requires RefusedAsBusy(Some(refusal))
    requires AttachTrace(c.world.sdk, instanceID, volumeID, c.trace, from)
    modifies c
    ensures old(c.trace) <= c.trace && |c.trace| <= |old(c.trace)| + 22
    ensures AttachesWhenCleared(c.world, instanceID, volumeID, c.trace, from)
    ensures AttachTrace(c.world.sdk, instanceID, volumeID, c.trace, from)
    ensures r.Ok? ==> AttachSeen(c, instanceID, |old(c.trace)|, r.value)
    ensures r.Err? ==> AttachFailed(c.world, instanceID, volumeID, c.trace, from, r.problem)
  {
    var w := c.WaitVolume(volumeID, ToAttach(instanceID));
    WaitedForAReason(c.world, ToAttach(instanceID), volumeID, c.trace, from + 2, w);
    ReadsKeepAttachTrace(c.world.sdk, instanceID, volumeID, old(c.trace), c.trace, from);
    ghost var waited := c.trace;
    if w.GaveUp() {
      AttachedWhenCleared(c.world, instanceID, volumeID, waited, c.trace, from, w);
      return Err(Rejected(refusal));
    }
    if c.world.sdk.attachedTo(w.vol, instanceID) {
      AttachedWhenCleared(c.world, instanceID, volumeID, waited, c.trace, from, w);
      return Ok(w.vol);
    }
    r := ReissueAttach(c, instanceID, volumeID, w.vol, from);
    AttachedWhenCleared(c.world, instanceID, volumeID, waited, c.trace, from, w);
  }

  method AttachVolume(c: Cloud, instanceID: string, volumeID: string) returns (r: Result<Volume>)
    modifies c
    ensures old(c.trace) <= c.trace && |c.trace| <= |old(c.trace)| + 24
    // The attach does go out when the first read shows a volume not attached here and not in ERROR,
    // and once more when it was refused as busy and the volume is seen to clear.
    ensures var from, world := |old(c.trace)|, c.world;
            world.client(from).None? ==>
              && |c.trace| > from && c.trace[from] == Read(volumeID, world.shown(from))
              && forall v :: world.shown(from) == Got(v) && !world.sdk.isError(v) &&
                             !world.sdk.attachedTo(v, instanceID) ==>
                   && |c.trace| >= from + 2
                   && c.trace[from + 1] == Attach(instanceID, volumeID, world.commands(from + 1))
                   && forall e :: world.commands(from + 1) == Some(e) && e.code == EcVServerVolumeInProcess ==>
                        AttachesWhenCleared(world, instanceID, volumeID, c.trace, from)
    // And nothing does when it shows the volume attached here and IN-USE.
    ensures var from, world := |old(c.trace)|, c.world;
            forall v :: world.client(from).None? && world.shown(from) == Got(v) && !world.sdk.isError(v) &&
                        world.sdk.attachedTo(v, instanceID) && v.status == "IN-USE" ==>
              r == Ok(v) && |c.trace| == from + 1
    ensures AttachTrace(c.world.sdk, instanceID, volumeID, c.trace, |old(c.trace)|)
    ensures r.Ok? ==> AttachSeen(c, instanceID, |old(c.trace)|, r.value)
    ensures r.Err? ==> AttachFailed(c.world, instanceID, volumeID, c.trace, |old(c.trace)|, r.problem)
  {
    ghost var from := |c.trace|;
    var client := c.world.client(|c.trace|);
    if client.Some? {
      return Err(NoClient(client.value));
    }
    r := GetVolumeForAttach(c, volumeID);
    if r.Err? {
      return;
    }
    var vol := r.value;
    assert Shows(c.trace[from], vol);
    if c.world.sdk.attachedTo(vol, instanceID) {
      if vol.status == IN_USE {
        return;
      }
      r := WaitDiskAttached(c, instanceID, volumeID);
      return;
    }
    var err := AttachBlockVolume(c, instanceID, volumeID);
    assert AttachIsDue(c.world.sdk, instanceID, c.trace, from, from + 1);
    if err.Some? {
      match err.value.code {
        case EcVServerVolumeAlreadyAttachedThisServer =>
        case EcVServerVolumeInProcess =>
          r := AttachOnceMore(c, instanceID, volumeID, err.value, from);
          return;
        case _ =>
          return Err(Rejected(err.value));
      }
    }
    r := WaitDiskAttached(c, instanceID, volumeID);
  }

  // ----- Detach -----

  // Codes of the detach command that mean there is nothing left to detach.
  predicate DetachDone(code: ErrorCode) {
    code == EcVServerVolumeNotFound || code == EcVServerVolumeAvailable || code == EcVServerServerNotFound
  }

  // Only reads, and at most one detach: right after the first read, which shows the volume
  // still attached to the instance and not in ERROR.
  ghost predicate DetachTrace(sdk: Sdk, instanceID: string, volumeID: string, trace: seq<Call>, from: nat) {
    forall i :: from <= i < |trace| ==>
      || (trace[i].Read? && trace[i].volumeID == volumeID)
      || (trace[i].Detach? && trace[i].instanceID == instanceID && trace[i].volumeID == volumeID && i == from + 1 &&
          exists v :: Shows(trace[from], v) && !sdk.isAvailable(v) && sdk.attachedTo(v, instanceID) && !sdk.isError(v))
  }

  // When a detach goes out, spelled out.
  lemma DetachesAreDue(sdk: Sdk, instanceID: string, volumeID: string, trace: seq<Call>, from: nat, i: nat)
    requires DetachTrace(sdk, instanceID, volumeID, trace, from) && from <= i < |trace| && !trace[i].Read?
    ensures trace[i].Detach? && trace[i].instanceID == instanceID && trace[i].volumeID == volumeID && i == from + 1
    ensures trace[from].Read? && trace[from].answer.Got?
    ensures var v := trace[from].answer.vol;
            !sdk.isAvailable(v) && sdk.attachedTo(v, instanceID) && !sdk.isError(v)
  {
  }

  // The last call shows that the volume is not attached to the instance, or not there at all.
  ghost predicate DetachSeen(sdk: Sdk, instanceID: string, trace: seq<Call>, from: nat) {
    from < |trace| && ShowsDetached(sdk, instanceID, trace[|trace| - 1])
  }

  ghost predicate ShowsDetached(sdk: Sdk, instanceID: string, c: Call) {
    || ShowsNotFound(c)
    || (exists v :: Shows(c, v) && (sdk.isAvailable(v) || !sdk.attachedTo(v, instanceID)))
    || (c.Detach? && c.err.Some? && DetachDone(c.err.value.code))
  }

  // Detached, spelled out: the volume is not there, is AVAILABLE or not attached here, or the
  // command said that it, its attachment or the instance is gone.
  lemma DetachedInFull(sdk: Sdk, instanceID: string, c: Call)
    requires Conforms(sdk)
    ensures ShowsDetached(sdk, instanceID, c) <==> match c
            case Read(_, Got(v)) =>
              v.status == "AVAILABLE" || (v.vmId != instanceID && instanceID !in v.attachedMachine)
            case Read(_, Failed(e)) => e.code == EcVServerVolumeNotFound
            case Detach(_, _, Some(e)) =>
              e.code in {EcVServerVolumeNotFound, EcVServerVolumeAvailable, EcVServerServerNotFound}
            case _ => false
  {
    if c.Read? && c.answer.Got? {
      assert Shows(c, c.answer.vol);
    }
  }

  ghost predicate DetachFailed(
      world: World, instanceID: string, volumeID: string, trace: seq<Call>, from: nat, p: Problem)
  {
    match p
    case NoClient(e) => |trace| == from && world.client(from) == Some(e)
    case VolumeNotFound => false
    case CannotGet(e) =>
      |trace| == from + 1 && trace[from] == Read(volumeID, Failed(e)) && e.code != EcVServerVolumeNotFound
    case InErrorState =>
      |trace| == from + 1 &&
      exists v :: Shows(trace[from], v) && world.sdk.isError(v) && !world.sdk.isAvailable(v) &&
                  world.sdk.attachedTo(v, instanceID)
    case Rejected(e) =>
      |trace| == from + 2 && trace[from + 1] == Detach(instanceID, volumeID, Some(e)) && !DetachDone(e.code)
    case GaveUp(why) =>
      && |trace| >= from + 2 && trace[from + 1] == Detach(instanceID, volumeID, None)
      && why.GaveUp() && world.Waits(Detached(instanceID), volumeID, trace, from + 2, why)
  }

  method DetachVolume(c: Cloud, instanceID: string, volumeID: string) returns (r: Option<Problem>)
    modifies c
    ensures old(c.trace) <= c.trace && |c.trace| <= |old(c.trace)| + 15
    // The detach does go out when the first read shows the volume attached here and not in ERROR.
    ensures var from, world := |old(c.trace)|, c.world;
            world.client(from).None? ==>
              && |c.trace| > from && c.trace[from] == Read(volumeID, world.shown(from))
              && forall v :: world.shown(from) == Got(v) && !world.sdk.isAvailable(v) &&
                             world.sdk.attachedTo(v, instanceID) && !world.sdk.isError(v) ==>
                   |c.trace| >= from + 2 && c.trace[from + 1] == Detach(instanceID, volumeID, world.commands(from + 1))
    ensures DetachTrace(c.world.sdk, instanceID, volumeID, c.trace, |old(c.trace)|)
    ensures r.None? ==> DetachSeen(c.world.sdk, instanceID, c.trace, |old(c.trace)|)
    ensures r.Some? ==> DetachFailed(c.world, instanceID, volumeID, c.trace, |old(c.trace)|, r.value)
  {
    ghost var from := |c.trace|;
    var client := c.world.client(|c.trace|);
    if client.Some? {
      return Some(NoClient(client.value));
    }
    var a := c.GetVolumeById(volumeID);
    if a.Failed? {
      if a.err.code == EcVServerVolumeNotFound {
        return None;
      }
      return Some(CannotGet(a.err));
    }
    assert Shows(c.trace[from], a.vol);
    if IsDetachedFrom(c.world.sdk, a.vol, instanceID) {
      return None;
    }
    if c.world.sdk.isError(a.vol) {
      return Some(InErrorState);
    }
    var err := c.world.commands(|c.trace|);
    c.trace := c.trace + [Detach(instanceID, volumeID, err)];
    if err.Some? {
      if DetachDone(err.value.code) {
        return None;
      }
      // Busy or not: the command was refused, and the caller retries.
      return Some(Rejected(err.value));
    }
    var w := c.WaitVolume(volumeID, Detached(instanceID));
    WaitedForAReason(c.world, Detached(instanceID), volumeID, c.trace, from + 2, w);
    r := if w.GaveUp() then Some(GaveUp(w)) else None;
  }

  // The probe: one read, no command.
  method IsDetachedFromProbe(c: Cloud, instanceID: string, volumeID: string)
      returns (detached: bool, err: Option<SdkError>)
    modifies c
    ensures c.trace == old(c.trace) + [Read(volumeID, c.world.shown(|old(c.trace)|))]
    ensures detached <==> DetachSeen(c.world.sdk, instanceID, c.trace, |old(c.trace)|)
    ensures var a := c.world.shown(|old(c.trace)|);
            detached <==> if a.Failed? then a.err.code == EcVServerVolumeNotFound
                          else c.world.sdk.isAvailable(a.vol) || !c.world.sdk.attachedTo(a.vol, instanceID)
    ensures err.Some? <==> c.world.shown(|old(c.trace)|).Failed? && !detached
  {
    var a := c.GetVolumeById(volumeID);
    if a.Failed? {
      if a.err.code == EcVServerVolumeNotFound {
        return true, None;
      }
      return false, Some(a.err);
    }
    assert Shows(c.trace[|c.trace| - 1], a.vol);
    return IsDetachedFrom(c.world.sdk, a.vol, instanceID), None;
  }

  // ----- Delete -----

  ghost predicate DeleteIsDue(sdk: Sdk, trace: seq<Call>, i: nat)
    requires 0 < i <= |trace|
  {
    ShowsNotFound(trace[i - 1]) || exists v :: Shows(trace[i - 1], v) && sdk.canDelete(v)
  }

  // Only reads, and at most one delete, right after a read that shows the volume deletable or
  // no longer there; nothing follows it.
  ghost predicate DeleteTrace(sdk: Sdk, volumeID: string, trace: seq<Call>, from: nat) {
    forall i :: from <= i < |trace| ==>
      || (trace[i].Read? && trace[i].volumeID == volumeID)
      || (trace[i].Delete? && trace[i].volumeID == volumeID && from < i == |trace| - 1 &&
          DeleteIsDue(sdk, trace, i))
  }

  // When a delete goes out, spelled out.
  lemma DeletesAreDue(sdk: Sdk, volumeID: string, trace: seq<Call>, from: nat, i: nat)
    requires DeleteTrace(sdk, volumeID, trace, from) && from <= i < |trace| && !trace[i].Read?
    ensures trace[i].Delete? && trace[i].volumeID == volumeID && from < i == |trace| - 1 && trace[i - 1].Read?
    ensures match trace[i - 1].answer
            case Got(v) => sdk.canDelete(v)
            case Failed(e) => e.code == EcVServerVolumeNotFound
  {
    assert DeleteIsDue(sdk, trace, i);
  }

  // The last call is a delete the IaaS accepted, or one that shows there is no such volume.
  predicate DeleteSeen(trace: seq<Call>, from: nat) {
    from < |trace| && ShowsDeleted(trace[|trace| - 1])
  }

  predicate ShowsDeleted(c: Call) {
    || ShowsNotFound(c)
    || (c.Delete? && (c.err.None? || c.err.value.code == EcVServerVolumeNotFound))
  }

  lemma DeletedInFull(c: Call)
    ensures ShowsDeleted(c) <==> match c
            case Read(_, Failed(e)) => e.code == EcVServerVolumeNotFound
            case Delete(_, err) => err.None? || err.value.code == EcVServerVolumeNotFound
            case _ => false
  {
  }

  ghost predicate DeleteFailed(world: World, volumeID: string, trace: seq<Call>, from: nat, p: Problem) {
    match p
    case NoClient(e) => |trace| == from && world.client(from) == Some(e)
    case CannotGet(e) =>
      |trace| == from + 1 && trace[from] == Read(volumeID, Failed(e)) && e.code != EcVServerVolumeNotFound
    case Rejected(e) =>
      from < |trace| && trace[|trace| - 1] == Delete(volumeID, Some(e)) && e.code != EcVServerVolumeNotFound
    case GaveUp(why) => why.GaveUp() && |trace| > from && world.Waits(Deletable, volumeID, trace, from + 1, why)
    case _ => false
  }

  method DeleteVolume(c: Cloud, volumeID: string) returns (r: Option<Problem>)
    modifies c
    ensures old(c.trace) <= c.trace && |c.trace| <= |old(c.trace)| + 15
    // The delete does go out: at once if the first read shows the volume deletable, and otherwise
    // unless the wait for that gives up.
    ensures var from, world := |old(c.trace)|, c.world;
            world.client(from).None? ==>
              && |c.trace| > from && c.trace[from] == Read(volumeID, world.shown(from))
              && (world.shown(from).Got? ==>
                    var at := |c.trace| - 1;
                    && (c.trace[at] == Delete(volumeID, world.commands(at)) || (r.Some? && r.value.GaveUp?))
                    && (world.sdk.canDelete(world.shown(from).vol) ==>
                          at == from + 1 && c.trace[at] == Delete(volumeID, world.commands(at))))
    ensures DeleteTrace(c.world.sdk, volumeID, c.trace, |old(c.trace)|)
    ensures r.None? ==> DeleteSeen(c.trace, |old(c.trace)|)
    ensures r.Some? ==> DeleteFailed(c.world, volumeID, c.trace, |old(c.trace)|, r.value)
  {
    ghost var from := |c.trace|;
    var client := c.world.client(|c.trace|);
    if client.Some? {
      return Some(NoClient(client.value));
    }
    var a := c.GetVolumeById(volumeID);
    if a.Failed? {
      if a.err.code == EcVServerVolumeNotFound {
        return None;
      }
      return Some(CannotGet(a.err));
    }
    assert Shows(c.trace[from], a.vol);
    if !c.world.sdk.canDelete(a.vol) {
      var w := c.WaitVolume(volumeID, Deletable);
      WaitedForAReason(c.world, Deletable, volumeID, c.trace, from + 1, w);
      if w.GaveUp() {
        return Some(GaveUp(w));
      }
    }
    ghost var at := |c.trace|;
    var err := c.world.commands(|c.trace|);
    c.trace := c.trace + [Delete(volumeID, err)];
    assert DeleteIsDue(c.world.sdk, c.trace, at);
    if err.Some? && err.value.code != EcVServerVolumeNotFound {
      return Some(Rejected(err.value));
    }
    return None;
  }
}
