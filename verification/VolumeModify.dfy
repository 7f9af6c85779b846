/**
 * pkg/cloud/cloud.go and cloud_private.go: resize, change of type and migration between zones.
 * These return plain errors taken out of SDK errors, and an SDK error without an inner one is
 * no error at all: a success is one only if the IaaS's errors all carry one.
 */
module VolumeModify {
  import opened Wrappers
  import opened SdkErrors
  import opened VolumeWaits
  import opened VolumeOps

  // ----- Sizes, with Go's int64 and uint64 -----

  const GIB := 1073741824
  const MAX_INT64 := 0x7fff_ffff_ffff_ffff

  type Int64 = n: int | -0x8000_0000_0000_0000 <= n <= 0x7fff_ffff_ffff_ffff

  function Wrap(n: int): Int64 {
    (n + 0x8000_0000_0000_0000) % 0x1_0000_0000_0000_0000 - 0x8000_0000_0000_0000
  }

  function ToUint64(n: Int64): Uint64 {
    if n < 0 then n + 0x1_0000_0000_0000_0000 else n
  }

  function ToInt64(n: Uint64): Int64 {
    if n > MAX_INT64 then n - 0x1_0000_0000_0000_0000 else n
  }

  // Go's division truncates toward zero.
  function RoundUpGiB(bytes: Int64): Int64 {
    var n: int := Wrap(bytes + GIB - 1);
    if n >= 0 then n / GIB else -((-n) / GIB)
  }

  predicate RoundsUp(bytes: Int64, gib: Int64) {
    (gib - 1) * GIB < bytes <= gib * GIB
  }

  // Rounding up is right exactly where the sum does not overflow and division toward zero does
  // round up. Above that, the size asked for becomes a number no volume reaches.
  lemma RoundUpIsRightBelowTheOverflow(bytes: Int64)
    ensures RoundsUp(bytes, RoundUpGiB(bytes)) <==>
            -GIB < bytes <= MAX_INT64 - GIB + 1 || (bytes <= -GIB && bytes % GIB == 1)
    ensures bytes > MAX_INT64 - GIB + 1 ==> ToUint64(RoundUpGiB(bytes)) > MAX_INT64
  {
    var n := bytes + GIB - 1;
    if n > MAX_INT64 {
      assert Wrap(n) == n - 0x1_0000_0000_0000_0000;
    } else {
      assert Wrap(n) == n;
      if n < 0 {
        NegativeSizes(bytes, n);
      }
    }
  }

  lemma NegativeSizes(bytes: Int64, n: int)
    requires n == bytes + GIB - 1 && n < 0
    ensures var r := -((-n) / GIB); ((r - 1) * GIB < bytes <= r * GIB) <==> bytes % GIB == 1
  {
    var q, m := (-n) / GIB, (-n) % GIB;
    assert -n == q * GIB + m && bytes == (-q - 1) * GIB + 1 - m;
  }

  lemma SizesRoundTrip(n: Uint64)
    ensures ToUint64(ToInt64(n)) == n
  {
  }

  // ----- Decisions -----

  class ModifyDiskOptions {
    var volumeType: string

    constructor (volumeType: string)
      ensures this.volumeType == volumeType
    {
      this.volumeType := volumeType;
    }
  }

  predicate TypeMatches(sdk: Sdk, v: Volume, volumeType: string) {
    volumeType == "" || sdk.equalFold(v.volumeTypeID, volumeType)
  }

  predicate NeedsVolumeModification(sdk: Sdk, v: Volume, size: Uint64, volumeType: string) {
    v.size < size || !TypeMatches(sdk, v, volumeType)
  }

  // None is success; the size is returned either way.
  function CheckDesiredState(sdk: Sdk, v: Volume, size: Uint64, volumeType: string): (r: (Int64, Option<string>))
    ensures r.0 == ToInt64(v.size) && (r.1.None? <==> !NeedsVolumeModification(sdk, v, size, volumeType))
  {
    var seen := ToInt64(v.size);
    if ToUint64(seen) < size then (seen, Some("volume is still being expanded"))
    else if volumeType != "" && !sdk.equalFold(v.volumeTypeID, volumeType) then
      (seen, Some("volume is still being modified"))
    else (seen, None)
  }

  datatype Zones = SameZone | OtherZone | ZoneError(err: SdkError)

  // Two concurrent catalogue reads: one that fails silently is not noticed, it only adds no zone.
  function CompareZones(a: ZoneAnswer, b: ZoneAnswer, secondLast: bool): Zones {
    if (a.NoZone? && a.err.inner.Some?) || (b.NoZone? && b.err.inner.Some?) then
      ZoneError(if b.NoZone? && (a.Zone? || secondLast) then b.err else a.err)
    else if a.NoZone? && b.NoZone? then OtherZone
    else if a.Zone? && b.Zone? && a.id != b.id then OtherZone
    else SameZone
  }

  // When the comparison is right about the zones that are: if nothing failed; if one read failed
  // unnoticed and the zones are the same; or if both did and they are not.
  lemma WhenZonesAreRight(a: ZoneAnswer, b: ZoneAnswer, secondLast: bool, za: string, zb: string)
    requires (a.Zone? ==> a.id == za) && (b.Zone? ==> b.id == zb)
    ensures CompareZones(a, b, secondLast) == (if za == zb then SameZone else OtherZone) <==>
            && (a.NoZone? ==> a.err.inner.None?) && (b.NoZone? ==> b.err.inner.None?)
            && (a.NoZone? != b.NoZone? ==> za == zb) && (a.NoZone? && b.NoZone? ==> za != zb)
  {
  }

  predicate MigrateInProgress(code: ErrorCode) {
    || code == EcVServerVolumeMigrateBeingProcess || code == EcVServerVolumeMigrateProcessingConfirm
    || code == EcVServerVolumeMigrateBeingMigrating || code == EcVServerVolumeMigrateBeingFinish
  }

  // ----- What a modify may do, and what its outcome says -----

  // The error of a call that the operation does not tolerate.
  function FatalError(c: Call): Option<SdkError> {
    match c
    case Read(_, Failed(e)) => Some(e)
    case ReadType(_, NoZone(e)) => Some(e)
    case Migrate(_, _, Some(e)) => if MigrateInProgress(e.code) then None else Some(e)
    case Resize(_, _, _, Some(e)) => if e.code == EcVServerVolumeUnchanged then None else Some(e)
    case _ => None
  }

  // The errors that are tolerated, spelled out: a migration that is running already, and a resize
  // with nothing to change.
  lemma ToleratedInFull(id: string, volumeType: string, size: int, e: SdkError)
    ensures FatalError(Migrate(id, volumeType, Some(e))).None? <==>
            e.code in {EcVServerVolumeMigrateBeingProcess, EcVServerVolumeMigrateProcessingConfirm,
                       EcVServerVolumeMigrateBeingMigrating, EcVServerVolumeMigrateBeingFinish}
    ensures FatalError(Resize(id, volumeType, size, Some(e))).None? <==> e.code == EcVServerVolumeUnchanged
    ensures FatalError(Read(id, Failed(e))) == FatalError(ReadType(id, NoZone(e))) == Some(e)
  {
  }

  // The two concurrent catalogue reads are the last calls.
  predicate EndsAtZones(trace: seq<Call>, from: nat) {
    && |trace| == from + 3 && trace[from].Read? && trace[from].answer.Got?
    && trace[from + 1].ReadType? && trace[from + 2].ReadType?
  }

  // The error the operation stopped on: at its client; at its first read; at the comparison of
  // the zones, or at the client it resolves once more for the migration they call for; or at a
  // command that was refused for good.
  predicate StoppedOn(world: World, trace: seq<Call>, from: nat, e: SdkError) {
    || (|trace| == from && world.client(from) == Some(e))
    || (|trace| == from + 1 && trace[from].Read? && trace[from].answer == Failed(e))
    || (EndsAtZones(trace, from) &&
        var zones := CompareZones(trace[from + 1].zone, trace[from + 2].zone, world.secondLast(from + 1));
        zones == ZoneError(e) ||
        (zones == OtherZone && !trace[from].answer.vol.IsAttached() && world.client(from + 3) == Some(e)))
    || (from < |trace| && (trace[|trace| - 1].Migrate? || trace[|trace| - 1].Resize?) &&
        FatalError(trace[|trace| - 1]) == Some(e))
  }

  // It stopped on an error with that inner error.
  ghost predicate StoppedWith(world: World, trace: seq<Call>, from: nat, inner: Option<string>) {
    exists e :: StoppedOn(world, trace, from, e) && e.inner == inner
  }

  lemma StoppedOnce(world: World, trace: seq<Call>, from: nat, e: SdkError, inner: Option<string>)
    requires StoppedOn(world, trace, from, e)
    ensures StoppedWith(world, trace, from, inner) <==> inner == e.inner
  {
  }

  // Nothing stopped an operation that has got past its first read and ends with a read or with a
  // command that went through.
  lemma NotStopped(world: World, trace: seq<Call>, from: nat, inner: Option<string>)
    requires from < |trace| && trace[from].Read? && trace[from].answer.Got? && !trace[|trace| - 1].ReadType?
    requires trace[|trace| - 1].Read? || FatalError(trace[|trace| - 1]).None?
    ensures !StoppedWith(world, trace, from, inner)
  {
  }

  function Wanted(bytes: Int64, v: Volume): Uint64 {
    var size := ToUint64(RoundUpGiB(bytes));
    if size < v.size then v.size else size
  }

  // An int64 that stands for a uint64, as the code reads it.
  function Unsigned(n: int): int {
    if n < 0 then n + 0x1_0000_0000_0000_0000 else n
  }

  // The size wanted covers what was asked for, and what is there; it is one of the two, the former
  // rounded up to GiB; and it is larger than what is there exactly if that is too small.
  lemma WantedCovers(bytes: Int64, v: Volume)
    requires 0 < bytes <= 0x7fff_ffff_ffff_ffff - 1073741823
    ensures var w := Wanted(bytes, v);
            && w * 1073741824 >= bytes && w >= v.size && Unsigned(ToInt64(w)) == w
            && (w == v.size || (w - 1) * 1073741824 < bytes)
            && (v.size < w <==> v.size * 1073741824 < bytes)
  {
    RoundUpIsRightBelowTheOverflow(bytes);
    var gib := RoundUpGiB(bytes);
    assert gib >= 0;
    if v.size < gib {
      assert v.size * GIB <= (gib - 1) * GIB;
    } else {
      assert v.size * GIB >= gib * GIB;
    }
  }

  ghost predicate MigrateIsDue(sdk: Sdk, volumeType: string, trace: seq<Call>, from: nat, i: nat)
    requires from < i < |trace|
  {
    && (exists v :: Shows(trace[from], v) && !v.IsAttached() && !v.IsMigration() && !v.IsCreating() &&
          !IsMigratedToType(v, volumeType) && v.volumeTypeID != volumeType)
    && (forall j :: from < j < i ==> trace[j].ReadType?)
    && i == from + 3 && CompareZones(trace[from + 1].zone, trace[from + 2].zone, true) == OtherZone
  }

  ghost predicate ResizeIsDue(sdk: Sdk, bytes: Int64, volumeType: string, trace: seq<Call>, from: nat, i: nat)
    requires from < i < |trace| && trace[i].Resize?
  {
    && (exists v :: Shows(trace[from], v) && trace[i].size == ToInt64(Wanted(bytes, v)) &&
          NeedsVolumeModification(sdk, v, Wanted(bytes, v), volumeType) &&
          ZonesAreDone(v, volumeType, trace, from, i))
    && (forall j :: from <= j < i ==> !trace[j].Resize?)
  }

  // The migration does go out when the first read shows the volume attached nowhere and neither
  // migrating nor being created, and the two catalogue reads show two zones.
  predicate MigratesWhenDue(world: World, volumeID: string, volumeType: string, trace: seq<Call>, from: nat) {
    && from + 3 <= |trace| && trace[from].Read? && trace[from].answer.Got?
    && trace[from + 1].ReadType? && trace[from + 2].ReadType?
    && CompareZones(trace[from + 1].zone, trace[from + 2].zone, true) == OtherZone && world.client(from + 3).None?
    && (var v := trace[from].answer.vol;
        && v.volumeTypeID != volumeType && v.status != "IN-USE" && v.attachedMachine == [] && v.vmId == ""
        && v.status != "MIGRATING" && v.status != "CREATING" && v.status != "CREATING-BILLING") ==>
      |trace| > from + 3 && trace[from + 3] == Migrate(volumeID, volumeType, world.commands(from + 3))
  }

  // What the calls keep to: each is due, and the migration that is due is made.
  ghost predicate Issuing(
      world: World, volumeID: string, bytes: Int64, volumeType: string, trace: seq<Call>, from: nat)
  {
    && ModifyTrace(world.sdk, volumeID, bytes, volumeType, trace, from)
    && MigratesWhenDue(world, volumeID, volumeType, trace, from)
  }

  predicate HasResize(trace: seq<Call>, from: nat) {
    exists i :: from < i < |trace| && trace[i].Resize?
  }

  // Call i comes after all that a change of type needs: nothing for the same type, otherwise two
  // catalogue reads; and if they call for it, and the volume is attached nowhere, a migration whose
  // end has just been read.
  predicate ZonesAreDone(v: Volume, volumeType: string, trace: seq<Call>, from: nat, i: nat)
    requires from < i <= |trace|
  {
    if volumeType == v.volumeTypeID then i == from + 1
    else
      && i >= from + 3 && trace[from + 1].ReadType? && trace[from + 2].ReadType?
      && if !v.IsAttached() && CompareZones(trace[from + 1].zone, trace[from + 2].zone, true) == OtherZone then
           i > from + 3 && ShowsMigrated(trace[i - 1], volumeType)
         else i == from + 3
  }

  predicate ShowsMigrated(c: Call, volumeType: string) {
    c.Read? && c.answer.Got? && IsMigratedToType(c.answer.vol, volumeType)
  }

  ghost predicate ModifyTrace(
    sdk: Sdk, volumeID: string, bytes: Int64, volumeType: string, trace: seq<Call>, from: nat)
  {
    forall i :: from <= i < |trace| ==>
      || (trace[i].Read? && trace[i].volumeID == volumeID)
      || (trace[i].ReadType? && from < i)
      || (trace[i].Migrate? && trace[i].volumeID == volumeID && trace[i].volumeType == volumeType && from < i &&
          MigrateIsDue(sdk, volumeType, trace, from, i))
      || (trace[i].Resize? && trace[i].volumeID == volumeID && trace[i].volumeType == volumeType && from < i &&
          ResizeIsDue(sdk, bytes, volumeType, trace, from, i))
  }

  // At most one migration and one resize, in that order.
  lemma OneOfEach(
      sdk: Sdk, volumeID: string, bytes: Int64, volumeType: string, trace: seq<Call>, from: nat, i: nat, j: nat)
    requires ModifyTrace(sdk, volumeID, bytes, volumeType, trace, from)
    requires from <= i < j < |trace| && (trace[i].Migrate? || trace[i].Resize?)
    ensures !trace[j].Migrate?
    ensures trace[j].Resize? ==> trace[i].Migrate?
  {
    assert trace[j].Resize? ==> ResizeIsDue(sdk, bytes, volumeType, trace, from, j);
  }

  // The last call is a later read than the first, and shows the volume settled, at least as
  // large as asked and of the type asked for; size is what it says.
  ghost predicate ModifySeen(sdk: Sdk, bytes: Int64, volumeType: string, trace: seq<Call>, from: nat, size: Int64) {
    from + 1 < |trace| && exists v, first ::
      && Shows(trace[from], first) && Shows(trace[|trace| - 1], v) && IsSettled(v)
      && v.size >= Wanted(bytes, first) && TypeMatches(sdk, v, volumeType) && size == ToInt64(v.size)
  }

  // The operation ended with a wait that had that outcome.
  ghost predicate SomeWait(world: World, w: Wait, volumeID: string, trace: seq<Call>, from: nat, r: Waited) {
    exists k :: from <= k <= |trace| && world.Waits(w, volumeID, trace, k, r)
  }

  // A wait for the volume gave up, or ended with a volume not yet as wanted.
  ghost predicate NotThereYet(
      world: World, volumeID: string, bytes: Int64, volumeType: string, trace: seq<Call>, from: nat)
  {
    || (exists why: Waited :: why.GaveUp() && SomeWait(world, Settled, volumeID, trace, from, why))
    || (exists why: Waited :: why.GaveUp() && SomeWait(world, Migrated(volumeType), volumeID, trace, from, why))
    || (from + 1 < |trace| && exists v, first ::
          && Shows(trace[from], first) && Shows(trace[|trace| - 1], v)
          && NeedsVolumeModification(world.sdk, v, Wanted(bytes, first), volumeType))
  }

  // It stopped before the resize: on an error, or because the wait for the migration gave up.
  ghost predicate StoppedShort(world: World, volumeID: string, volumeType: string, trace: seq<Call>, from: nat) {
    || (exists e :: StoppedOn(world, trace, from, e))
    || (from + 3 <= |trace| && exists why: Waited ::
          why.GaveUp() && SomeWait(world, Migrated(volumeType), volumeID, trace, from + 3, why))
  }

  // ----- The operations -----

  method CheckSameZone(c: Cloud, a: string, b: string) returns (r: Zones)
    modifies c
    ensures a == b ==> c.trace == old(c.trace) && r == SameZone
    ensures a != b ==> var n := |old(c.trace)|;
            && |c.trace| == n + 2 && old(c.trace) <= c.trace
            && c.trace[n..] == [ReadType(a, c.world.zones(n)), ReadType(b, c.world.zones(n + 1))]
            && c.trace[n].ReadType? && c.trace[n + 1].ReadType?
            && r == CompareZones(c.trace[n].zone, c.trace[n + 1].zone, c.world.secondLast(n))
  {
    if a == b {
      return SameZone;
    }
    var n := |c.trace|;
    var za, zb := c.world.zones(n), c.world.zones(n + 1);
    c.trace := c.trace + [ReadType(a, za)] + [ReadType(b, zb)];
    r := CompareZones(za, zb, c.world.secondLast(n));
  }

  // GetError() of the problems the modify path meets.
  function GetError(p: Problem): Option<string> {
    match p
    case NoClient(e) => e.inner
    case VolumeNotFound => ErrVolumeNotFound().inner
    case CannotGet(e) => e.inner
    case InErrorState => ErrVolumeIsInErrorState().inner
    case Rejected(e) => e.inner
    case GaveUp(_) => Some("gave up waiting")
  }

  method WaitVolumeMigrated(c: Cloud, volumeID: string, volumeType: string) returns (r: Option<Problem>)
    modifies c
    ensures old(c.trace) <= c.trace && |c.trace| <= |old(c.trace)| + 12
    ensures forall i :: |old(c.trace)| <= i < |c.trace| ==> c.trace[i].Read? && c.trace[i].volumeID == volumeID
    ensures r.None? ==> |old(c.trace)| < |c.trace| && ShowsMigrated(c.trace[|c.trace| - 1], volumeType)
    ensures r.Some? ==> r.value.GaveUp? && r.value.why.GaveUp()
    ensures r.Some? ==> c.world.Waits(Migrated(volumeType), volumeID, c.trace, |old(c.trace)|, r.value.why)
  {
    var w := c.WaitVolume(volumeID, Migrated(volumeType));
    WaitedForAReason(c.world, Migrated(volumeType), volumeID, c.trace, |old(c.trace)|, w);
    r := if w.Reached? then None else Some(GaveUp(w));
  }

  // One resize command, tolerated if there is nothing to change, then the wait for the type.
  method ModifyVolumeType(c: Cloud, volumeID: string, volumeType: string, size: int) returns (r: Option<Problem>)
    modifies c
    ensures old(c.trace) <= c.trace && |c.trace| <= |old(c.trace)| + 13
    ensures |c.trace| > |old(c.trace)| ==>
              c.trace[|old(c.trace)|] == Resize(volumeID, volumeType, size, c.world.commands(|old(c.trace)|))
    ensures forall i :: |old(c.trace)| < i < |c.trace| ==> c.trace[i].Read? && c.trace[i].volumeID == volumeID
    ensures r.None? ==> |c.trace| >= |old(c.trace)| + 2 && FatalError(c.trace[|old(c.trace)|]).None?
    ensures r.None? ==> ShowsMigrated(c.trace[|c.trace| - 1], volumeType)
    ensures r.Some? ==>
              match r.value
              case NoClient(e) => c.trace == old(c.trace) && c.world.client(|c.trace|) == Some(e)
              case Rejected(e) => |c.trace| == |old(c.trace)| + 1 && FatalError(c.trace[|c.trace| - 1]) == Some(e)
              case GaveUp(why) =>
                why.GaveUp() && c.world.Waits(Migrated(volumeType), volumeID, c.trace, |old(c.trace)| + 1, why)
              case _ => false
  {
    var client := c.world.client(|c.trace|);
    if client.Some? {
      return Some(NoClient(client.value));
    }
    var err := c.world.commands(|c.trace|);
    c.trace := c.trace + [Resize(volumeID, volumeType, size, err)];
    if err.Some? && err.value.code != EcVServerVolumeUnchanged {
      return Some(Rejected(err.value));
    }
    r := WaitVolumeMigrated(c, volumeID, volumeType);
  }

  // How a migration fails: without a client; refused for good; or by a wait that gave up, behind
  // reads and a command that went through.
  ghost predicate MigrationFails(
      world: World, volumeID: string, volumeType: string, before: seq<Call>, after: seq<Call>, p: Problem)
  {
    match p
    case NoClient(e) => after == before && world.client(|before|) == Some(e)
    case Rejected(e) => after == before + [Migrate(volumeID, volumeType, Some(e))] && !MigrateInProgress(e.code)
    case GaveUp(why) =>
      && why.GaveUp() && SomeWait(world, Migrated(volumeType), volumeID, after, |before|, why)
      && world.client(|before|).None? && before <= after
      && (|before| < |after| ==>
            var last := after[|after| - 1]; last.Read? || (last.Migrate? && FatalError(last).None?))
    case _ => false
  }

  // Moves the volume to a type in another zone.
  method MigrateVolumeToType(c: Cloud, vol: Volume, volumeID: string, volumeType: string) returns (r: Option<Problem>)
    modifies c
    ensures old(c.trace) <= c.trace && |c.trace| <= |old(c.trace)| + 13
    ensures forall i :: |old(c.trace)| <= i < |c.trace| ==>
              || (c.trace[i].Read? && c.trace[i].volumeID == volumeID)
              || (i == |old(c.trace)| && c.trace[i].Migrate? && c.trace[i].volumeID == volumeID &&
                  c.trace[i].volumeType == volumeType && !vol.IsMigration() && !vol.IsCreating() &&
                  !IsMigratedToType(vol, volumeType))
    ensures c.world.client(|old(c.trace)|).None? && !vol.IsMigration() && !vol.IsCreating() &&
            !IsMigratedToType(vol, volumeType) ==>
              && |c.trace| > |old(c.trace)|
              && c.trace[|old(c.trace)|] == Migrate(volumeID, volumeType, c.world.commands(|old(c.trace)|))
    ensures r.None? && !IsMigratedToType(vol, volumeType) ==>
              |old(c.trace)| < |c.trace| && ShowsMigrated(c.trace[|c.trace| - 1], volumeType)
    ensures r.Some? ==> MigrationFails(c.world, volumeID, volumeType, old(c.trace), c.trace, r.value)
  {
    var client := c.world.client(|c.trace|);
    if client.Some? {
      return Some(NoClient(client.value));
    }
    if IsMigratedToType(vol, volumeType) {
      return None;
    }
    if !vol.IsMigration() && !vol.IsCreating() {
      var err := c.world.commands(|c.trace|);
      c.trace := c.trace + [Migrate(volumeID, volumeType, err)];
      if err.Some? && !MigrateInProgress(err.value.code) {
        return Some(Rejected(err.value));
      }
    }
    r := WaitVolumeMigrated(c, volumeID, volumeType);
  }

  // What is left to do once every command is out, or none is needed: wait until the volume is
  // settled, and look at what it settled on.
  method WaitAndCheck(c: Cloud, volumeID: string, size: Uint64, volumeType: string, bytes: Int64, ghost from: nat)
      returns (newSize: Int64, waitErr: Option<string>, stateErr: Option<string>)
    requires from < |c.trace|
    requires exists v :: Shows(c.trace[from], v) && size == Wanted(bytes, v)
    modifies c
    ensures old(c.trace) <= c.trace && |c.trace| <= |old(c.trace)| + 13
    ensures forall i :: |old(c.trace)| <= i < |c.trace| ==> c.trace[i].Read? && c.trace[i].volumeID == volumeID
    ensures waitErr.None? && stateErr.None? ==> ModifySeen(c.world.sdk, bytes, volumeType, c.trace, from, newSize)
    ensures waitErr.Some? || stateErr.Some? ==> NotThereYet(c.world, volumeID, bytes, volumeType, c.trace, from)
    ensures waitErr.Some? ==> stateErr.None? && newSize == 0
  {
    ghost var start := |c.trace|;
    var w := c.WaitVolume(volumeID, Settled);
    WaitedForAReason(c.world, Settled, volumeID, c.trace, start, w);
    if w.GaveUp() {
      assert SomeWait(c.world, Settled, volumeID, c.trace, from, w);
      return 0, Some("gave up waiting"), None;
    }
    assert Shows(c.trace[|c.trace| - 1], w.vol);
    var checked := CheckDesiredState(c.world.sdk, w.vol, size, volumeType);
    return checked.0, None, checked.1;
  }

  // Nothing to modify: wait out whatever is still going on. Otherwise leave it to the caller.
  method ValidateModifyVolume(c: Cloud, vol: Volume, volumeID: string, size: Uint64, volumeType: string,
                              bytes: Int64, ghost from: nat)
      returns (needs: bool, newSize: Int64, err: Option<string>)
    requires |c.trace| == from + 1 && Shows(c.trace[from], vol) && size == Wanted(bytes, vol)
    modifies c
    ensures NeedsVolumeModification(c.world.sdk, vol, size, volumeType) ==>
              needs && newSize == 0 && err.None? && c.trace == old(c.trace)
    ensures !NeedsVolumeModification(c.world.sdk, vol, size, volumeType) ==>
              && (err.None? ==> !needs && ModifySeen(c.world.sdk, bytes, volumeType, c.trace, from, newSize))
              && (err.Some? ==> NotThereYet(c.world, volumeID, bytes, volumeType, c.trace, from))
    ensures old(c.trace) <= c.trace && |c.trace| <= |old(c.trace)| + 13
    ensures forall i :: from <= i < |c.trace| ==> i == from || (c.trace[i].Read? && c.trace[i].volumeID == volumeID)
  {
    if NeedsVolumeModification(c.world.sdk, vol, size, volumeType) {
      return true, 0, None;
    }
    var waitErr, stateErr;
    newSize, waitErr, stateErr := WaitAndCheck(c, volumeID, size, volumeType, bytes, from);
    if waitErr.Some? {
      return true, ToInt64(vol.size), waitErr;
    }
    return false, newSize, stateErr;
  }

  // ----- The same in bytes -----

  // The sizes for which the rounding up to GiB does not overflow.
  predicate InRange(bytes: Int64) {
    0 < bytes <= 0x7fff_ffff_ffff_ffff - 1073741823
  }

  predicate TooSmall(bytes: Int64, v: Volume) {
    InRange(bytes) && v.size * 1073741824 < bytes
  }

  predicate OtherType(sdk: Sdk, v: Volume, volumeType: string) {
    volumeType != "" && !sdk.equalFold(v.volumeTypeID, volumeType)
  }

  predicate DoneInBytes(sdk: Sdk, bytes: Int64, volumeType: string, trace: seq<Call>, from: nat, size: Int64) {
    && from + 1 < |trace| && trace[from].Read? && trace[from].answer.Got?
    && trace[|trace| - 1].Read? && trace[|trace| - 1].answer.Got?
    && var first, v := trace[from].answer.vol, trace[|trace| - 1].answer.vol;
       && v.size == Unsigned(size) >= first.size && (InRange(bytes) ==> v.size * 1073741824 >= bytes)
       && (volumeType == "" || sdk.equalFold(v.volumeTypeID, volumeType))
       && (v.status == "AVAILABLE" || v.status == "IN-USE")
  }

  predicate ResizesInBytes(bytes: Int64, trace: seq<Call>, from: nat) {
    forall i :: from <= i < |trace| && trace[i].Resize? && InRange(bytes) ==>
      && trace[from].Read? && trace[from].answer.Got?
      && var size, first := Unsigned(trace[i].size), trace[from].answer.vol;
         && size * 1073741824 >= bytes && size >= first.size
         && (size == first.size || (size - 1) * 1073741824 < bytes)
  }

  ghost predicate ResizesWhenAsked(
      world: World, volumeID: string, bytes: Int64, volumeType: string, trace: seq<Call>, from: nat)
  {
    && from < |trace| && trace[from] == Read(volumeID, world.shown(from)) && trace[from].answer.Got?
    && var asked := TooSmall(bytes, trace[from].answer.vol) || OtherType(world.sdk, trace[from].answer.vol, volumeType);
       && (asked ==> HasResize(trace, from) || StoppedShort(world, volumeID, volumeType, trace, from))
       && (!asked && InRange(bytes) ==> forall i :: from <= i < |trace| ==> trace[i].Read?)
  }

  lemma SeenInBytes(sdk: Sdk, bytes: Int64, volumeType: string, trace: seq<Call>, from: nat, size: Int64)
    ensures ModifySeen(sdk, bytes, volumeType, trace, from, size) ==>
              DoneInBytes(sdk, bytes, volumeType, trace, from, size)
  {
    if InRange(bytes) && ModifySeen(sdk, bytes, volumeType, trace, from, size) {
      WantedCovers(bytes, trace[from].answer.vol);
    }
  }

  lemma TraceInBytes(
      sdk: Sdk, volumeID: string, bytes: Int64, volumeType: string, trace: seq<Call>, from: nat)
    requires ModifyTrace(sdk, volumeID, bytes, volumeType, trace, from)
    ensures ResizesInBytes(bytes, trace, from)
  {
    forall i | from <= i < |trace| && trace[i].Resize? && InRange(bytes)
      ensures trace[from].Read? && trace[from].answer.Got?
      ensures var size, first := Unsigned(trace[i].size), trace[from].answer.vol;
              && size * 1073741824 >= bytes && size >= first.size
              && (size == first.size || (size - 1) * 1073741824 < bytes)
    {
      assert ResizeIsDue(sdk, bytes, volumeType, trace, from, i);
      WantedCovers(bytes, trace[from].answer.vol);
    }
  }

  lemma AskedMeansNeeded(sdk: Sdk, bytes: Int64, volumeType: string, v: Volume)
    ensures TooSmall(bytes, v) || OtherType(sdk, v, volumeType) ==>
              NeedsVolumeModification(sdk, v, Wanted(bytes, v), volumeType)
    ensures InRange(bytes) && NeedsVolumeModification(sdk, v, Wanted(bytes, v), volumeType) ==>
              TooSmall(bytes, v) || OtherType(sdk, v, volumeType)
  {
    if InRange(bytes) {
      WantedCovers(bytes, v);
    }
  }

  lemma NothingAsked(
      world: World, volumeID: string, bytes: Int64, volumeType: string, trace: seq<Call>, from: nat)
    requires from < |trace| && trace[from] == Read(volumeID, world.shown(from)) && trace[from].answer.Got?
    requires forall i :: from <= i < |trace| ==> trace[i].Read? && trace[i].volumeID == volumeID
    requires var v := trace[from].answer.vol; !NeedsVolumeModification(world.sdk, v, Wanted(bytes, v), volumeType)
    ensures Issuing(world, volumeID, bytes, volumeType, trace, from) && ResizesInBytes(bytes, trace, from)
    ensures ResizesWhenAsked(world, volumeID, bytes, volumeType, trace, from)
  {
    AskedMeansNeeded(world.sdk, bytes, volumeType, trace[from].answer.vol);
  }

  lemma IssuedAsAsked(
      world: World, volumeID: string, bytes: Int64, volumeType: string, trace: seq<Call>, from: nat)
    requires from < |trace| && trace[from] == Read(volumeID, world.shown(from)) && trace[from].answer.Got?
    requires Issuing(world, volumeID, bytes, volumeType, trace, from)
    requires HasResize(trace, from) || StoppedShort(world, volumeID, volumeType, trace, from)
    requires var v := trace[from].answer.vol; NeedsVolumeModification(world.sdk, v, Wanted(bytes, v), volumeType)
    ensures ResizesInBytes(bytes, trace, from) && ResizesWhenAsked(world, volumeID, bytes, volumeType, trace, from)
  {
    AskedMeansNeeded(world.sdk, bytes, volumeType, trace[from].answer.vol);
    TraceInBytes(world.sdk, volumeID, bytes, volumeType, trace, from);
  }

  // Success is a settled volume of sufficient size and the right type, seen by the last call.
  // It is anything else exactly if the operation stopped on an error without an inner one, which
  // it cannot tell from success.
  method ResizeOrModifyDisk(c: Cloud, volumeID: string, bytes: Int64, options: ModifyDiskOptions)
      returns (newSize: Int64, err: Option<string>)
    modifies c, options
    ensures old(c.trace) <= c.trace && |c.trace| <= |old(c.trace)| + 30
    // Success that does not come from an error without an inner one: a volume of at least the bytes
    // asked for, no smaller than it was, of the type, and AVAILABLE or IN-USE.
    ensures err.None? && !StoppedWith(c.world, c.trace, |old(c.trace)|, None) ==>
              DoneInBytes(c.world.sdk, bytes, options.volumeType, c.trace, |old(c.trace)|, newSize)
    // Every resize covers the bytes asked for and what is there, and asks for no GiB more. One goes
    // out when the first read shows too few bytes or another type, unless something stops it short;
    // and nothing but reads when it does not.
    ensures ResizesInBytes(bytes, c.trace, |old(c.trace)|)
    ensures c.world.client(|old(c.trace)|).None? && c.world.shown(|old(c.trace)|).Got? ==>
              ResizesWhenAsked(c.world, volumeID, bytes, options.volumeType, c.trace, |old(c.trace)|)
    ensures old(options.volumeType) != "" ==> options.volumeType == old(options.volumeType)
    ensures old(options.volumeType) == "" && |old(c.trace)| < |c.trace| ==>
              forall v :: Shows(c.trace[|old(c.trace)|], v) ==> options.volumeType == v.volumeTypeID
    ensures Issuing(c.world, volumeID, bytes, options.volumeType, c.trace, |old(c.trace)|)
    ensures err.None? && !ModifySeen(c.world.sdk, bytes, options.volumeType, c.trace, |old(c.trace)|, newSize) <==>
            StoppedWith(c.world, c.trace, |old(c.trace)|, None)
    ensures StoppedWith(c.world, c.trace, |old(c.trace)|, None) ==> newSize == 0
    ensures var from := |old(c.trace)|;
            && (forall e :: c.world.client(from) == Some(e) ==>
                  c.trace == old(c.trace) && newSize == 0 && err == e.inner)
            && (forall e :: c.world.client(from).None? && c.world.shown(from) == Failed(e) ==>
                  c.trace == old(c.trace) + [Read(volumeID, Failed(e))] && newSize == 0 && err == e.inner)
    ensures err.Some? ==>
              || StoppedWith(c.world, c.trace, |old(c.trace)|, err)
              || NotThereYet(c.world, volumeID, bytes, options.volumeType, c.trace, |old(c.trace)|)
  {
    ghost var from := |c.trace|;
    var client := c.world.client(|c.trace|);
    if client.Some? {
      StoppedOnce(c.world, c.trace, from, client.value, None);
      StoppedOnce(c.world, c.trace, from, client.value, client.value.inner);
      return 0, client.value.inner;
    }
    var size := ToUint64(RoundUpGiB(bytes));
    var a := c.GetVolumeById(volumeID);
    if a.Failed? {
      StoppedOnce(c.world, c.trace, from, a.err, None);
      StoppedOnce(c.world, c.trace, from, a.err, a.err.inner);
      return 0, a.err.inner;
    }
    var vol := a.vol;
    assert Shows(c.trace[from], vol);
    if size < vol.size {
      size := vol.size;
    }
    if options.volumeType == "" {
      options.volumeType := vol.volumeTypeID;
    }
    newSize, err := ModifyAsNeeded(c, vol, volumeID, size, options.volumeType, bytes, from);
  }

  // The volume has been read, and size and type are fixed.
  method ModifyAsNeeded(c: Cloud, vol: Volume, volumeID: string, size: Uint64, volumeType: string,
                        bytes: Int64, ghost from: nat)
      returns (newSize: Int64, err: Option<string>)
    requires |c.trace| == from + 1 && c.trace[from] == Read(volumeID, c.world.shown(from)) && Shows(c.trace[from], vol)
    requires size == Wanted(bytes, vol)
    modifies c
    ensures old(c.trace) <= c.trace && |c.trace| <= |old(c.trace)| + 29
    ensures Issuing(c.world, volumeID, bytes, volumeType, c.trace, from) && ResizesInBytes(bytes, c.trace, from)
    ensures ResizesWhenAsked(c.world, volumeID, bytes, volumeType, c.trace, from)
    ensures err.None? && !StoppedWith(c.world, c.trace, from, None) ==>
              DoneInBytes(c.world.sdk, bytes, volumeType, c.trace, from, newSize)
    ensures err.None? && !ModifySeen(c.world.sdk, bytes, volumeType, c.trace, from, newSize) <==>
            StoppedWith(c.world, c.trace, from, None)
    ensures StoppedWith(c.world, c.trace, from, None) ==> newSize == 0
    ensures err.Some? ==>
              || StoppedWith(c.world, c.trace, from, err)
              || NotThereYet(c.world, volumeID, bytes, volumeType, c.trace, from)
  {
    var needs;
    needs, newSize, err := ValidateModifyVolume(c, vol, volumeID, size, volumeType, bytes, from);
    if err.Some? || !needs {
      NotStopped(c.world, c.trace, from, None);
      NothingAsked(c.world, volumeID, bytes, volumeType, c.trace, from);
    } else {
      newSize, err := IssueModification(c, vol, volumeID, size, volumeType, bytes, from);
      IssuedAsAsked(c.world, volumeID, bytes, volumeType, c.trace, from);
    }
    SeenInBytes(c.world.sdk, bytes, volumeType, c.trace, from, newSize);
  }

  // The volume has to change: migrate first if the type lives in another zone, then resize.
  method IssueModification(c: Cloud, vol: Volume, volumeID: string, size: Uint64, volumeType: string,
                           bytes: Int64, ghost from: nat)
      returns (newSize: Int64, err: Option<string>)
    requires |c.trace| == from + 1 && Shows(c.trace[from], vol) && c.trace[from].volumeID == volumeID
    requires size == Wanted(bytes, vol) && NeedsVolumeModification(c.world.sdk, vol, size, volumeType)
    modifies c
    ensures old(c.trace) <= c.trace && |c.trace| <= |old(c.trace)| + 29
    ensures Issuing(c.world, volumeID, bytes, volumeType, c.trace, from)
    ensures err.None? && !ModifySeen(c.world.sdk, bytes, volumeType, c.trace, from, newSize) <==>
            StoppedWith(c.world, c.trace, from, None)
    ensures StoppedWith(c.world, c.trace, from, None) ==> newSize == 0
    ensures err.Some? ==>
              || StoppedWith(c.world, c.trace, from, err)
              || NotThereYet(c.world, volumeID, bytes, volumeType, c.trace, from)
    ensures HasResize(c.trace, from) || StoppedShort(c.world, volumeID, volumeType, c.trace, from)
  {
    var stop;
    stop, err := MoveToZone(c, vol, volumeID, volumeType, bytes, from);
    if stop {
      return 0, err;
    }
    var refused := ResizeBlockVolume(c, vol, volumeID, size, volumeType, bytes, from);
    if refused.Some? {
      RefusedResize(c.world, c.trace, from, refused.value);
      return 0, refused.value.inner;
    }
    newSize, err := CheckResized(c, volumeID, size, volumeType, bytes, from);
  }

  // The resize is out, or there was nothing to change.
  method CheckResized(c: Cloud, volumeID: string, size: Uint64, volumeType: string, bytes: Int64, ghost from: nat)
      returns (newSize: Int64, err: Option<string>)
    requires from < |c.trace| && exists v :: Shows(c.trace[from], v) && size == Wanted(bytes, v)
    requires Issuing(c.world, volumeID, bytes, volumeType, c.trace, from)
    requires HasResize(c.trace, from) && (c.trace[from + 1].Resize? || |c.trace| > from + 3)
    requires c.trace[|c.trace| - 1].Resize? && FatalError(c.trace[|c.trace| - 1]).None?
    modifies c
    ensures old(c.trace) <= c.trace && |c.trace| <= |old(c.trace)| + 13
    ensures Issuing(c.world, volumeID, bytes, volumeType, c.trace, from) && HasResize(c.trace, from)
    ensures !StoppedWith(c.world, c.trace, from, None)
    ensures err.None? ==> ModifySeen(c.world.sdk, bytes, volumeType, c.trace, from, newSize)
    ensures err.Some? ==> NotThereYet(c.world, volumeID, bytes, volumeType, c.trace, from)
  {
    ghost var issued := c.trace;
    ghost var first :| Shows(issued[from], first) && size == Wanted(bytes, first);
    assert issued[from].Read? && issued[from].answer.Got?;
    var waitErr, stateErr;
    newSize, waitErr, stateErr := WaitAndCheck(c, volumeID, size, volumeType, bytes, from);
    ReadsKeepTrace(c.world, volumeID, bytes, volumeType, issued, c.trace, from);
    NotStoppedByReads(c.world, volumeID, issued, c.trace, from);
    if waitErr.Some? {
      return 0, waitErr;
    }
    err := stateErr;
  }

  // One command; there being nothing to change is no refusal.
  method ResizeBlockVolume(c: Cloud, vol: Volume, volumeID: string, size: Uint64, volumeType: string,
                           bytes: Int64, ghost from: nat)
      returns (refused: Option<SdkError>)
    requires from < |c.trace| && Shows(c.trace[from], vol)
    requires size == Wanted(bytes, vol) && NeedsVolumeModification(c.world.sdk, vol, size, volumeType)
    requires Issuing(c.world, volumeID, bytes, volumeType, c.trace, from)
    requires forall i :: from <= i < |c.trace| ==> !c.trace[i].Resize?
    requires ZonesAreDone(vol, volumeType, c.trace, from, |c.trace|)
    modifies c
    ensures var err := c.world.commands(|old(c.trace)|);
            && c.trace == old(c.trace) + [Resize(volumeID, volumeType, ToInt64(size), err)]
            && refused == if err.Some? && err.value.code == EcVServerVolumeUnchanged then None else err
    ensures Issuing(c.world, volumeID, bytes, volumeType, c.trace, from)
    ensures HasResize(c.trace, from) && (c.trace[from + 1].Resize? || |c.trace| > from + 3)
  {
    ghost var before := c.trace;
    var err := c.world.commands(|c.trace|);
    c.trace := c.trace + [Resize(volumeID, volumeType, ToInt64(size), err)];
    ResizeKeepsTrace(c.world, volumeID, bytes, volumeType, vol, before, err, from);
    refused := if err.Some? && err.value.code == EcVServerVolumeUnchanged then None else err;
  }

  lemma NotStoppedByReads(world: World, volumeID: string, before: seq<Call>, after: seq<Call>, from: nat)
    requires from < |before| && before <= after && before[from].Read? && before[from].answer.Got?
    requires before[|before| - 1].Resize? && FatalError(before[|before| - 1]).None?
    requires forall i :: |before| <= i < |after| ==> after[i].Read? && after[i].volumeID == volumeID
    ensures !StoppedWith(world, after, from, None)
  {
    assert after[from] == before[from];
    if |after| == |before| {
      assert after == before;
    }
    NotStopped(world, after, from, None);
  }

  lemma RefusedResize(world: World, trace: seq<Call>, from: nat, e: SdkError)
    requires from < |trace| && trace[|trace| - 1].Resize? && trace[|trace| - 1].err == Some(e)
    requires e.code != EcVServerVolumeUnchanged
    ensures StoppedWith(world, trace, from, e.inner)
    ensures StoppedWith(world, trace, from, None) <==> e.inner.None?
  {
    StoppedOnce(world, trace, from, e, None);
    StoppedOnce(world, trace, from, e, e.inner);
  }

  lemma ResizeKeepsTrace(
      world: World, volumeID: string, bytes: Int64, volumeType: string, vol: Volume, before: seq<Call>,
      err: Option<SdkError>, from: nat)
    requires from < |before| && Shows(before[from], vol) && Issuing(world, volumeID, bytes, volumeType, before, from)
    requires forall i :: from <= i < |before| ==> !before[i].Resize?
    requires ZonesAreDone(vol, volumeType, before, from, |before|)
    requires NeedsVolumeModification(world.sdk, vol, Wanted(bytes, vol), volumeType)
    ensures var after := before + [Resize(volumeID, volumeType, ToInt64(Wanted(bytes, vol)), err)];
            && Issuing(world, volumeID, bytes, volumeType, after, from)
            && HasResize(after, from) && (after[from + 1].Resize? || |after| > from + 3)
  {
    var at, after := |before|, before + [Resize(volumeID, volumeType, ToInt64(Wanted(bytes, vol)), err)];
    assert ResizeIsDue(world.sdk, bytes, volumeType, after, from, at);
    forall i | from < i < at && before[i].Migrate?
      ensures MigrateIsDue(world.sdk, volumeType, after, from, i)
    {
      assert MigrateIsDue(world.sdk, volumeType, before, from, i);
    }
    assert after[at].Resize?;
  }

  lemma ReadsKeepTrace(
      world: World, volumeID: string, bytes: Int64, volumeType: string, before: seq<Call>, after: seq<Call>, from: nat)
    requires before <= after && Issuing(world, volumeID, bytes, volumeType, before, from)
    requires HasResize(before, from) && (before[from + 1].Resize? || |before| > from + 3)
    requires forall i :: |before| <= i < |after| ==> after[i].Read? && after[i].volumeID == volumeID
    ensures Issuing(world, volumeID, bytes, volumeType, after, from) && HasResize(after, from)
  {
    forall i | from < i < |before| && before[i].Migrate?
      ensures MigrateIsDue(world.sdk, volumeType, after, from, i)
    {
      assert MigrateIsDue(world.sdk, volumeType, before, from, i);
    }
    forall i | from < i < |before| && before[i].Resize?
      ensures ResizeIsDue(world.sdk, bytes, volumeType, after, from, i)
    {
      assert ResizeIsDue(world.sdk, bytes, volumeType, before, from, i);
    }
    var i :| from < i < |before| && before[i].Resize?;
    assert after[i].Resize?;
  }

  // stop says that the operation ends here, with err or with the silence of an error without one.
  method MoveToZone(c: Cloud, vol: Volume, volumeID: string, volumeType: string, bytes: Int64, ghost from: nat)
      returns (stop: bool, err: Option<string>)
    requires |c.trace| == from + 1 && Shows(c.trace[from], vol) && c.trace[from].volumeID == volumeID
    modifies c
    ensures old(c.trace) <= c.trace && |c.trace| <= |old(c.trace)| + 15
    ensures Issuing(c.world, volumeID, bytes, volumeType, c.trace, from)
    ensures forall i :: from <= i < |c.trace| ==> !c.trace[i].Resize?
    ensures stop ==> (err.None? <==> StoppedWith(c.world, c.trace, from, None))
    ensures stop && err.None? ==> !c.trace[|c.trace| - 1].Read?
    ensures stop && err.Some? ==>
              || StoppedWith(c.world, c.trace, from, err)
              || NotThereYet(c.world, volumeID, bytes, volumeType, c.trace, from)
    ensures !stop && |c.trace| > from + 3 ==> ShowsMigrated(c.trace[|c.trace| - 1], volumeType)
    ensures if stop then StoppedShort(c.world, volumeID, volumeType, c.trace, from)
            else ZonesAreDone(vol, volumeType, c.trace, from, |c.trace|)
  {
    var zones := CheckSameZone(c, volumeType, vol.volumeTypeID);
    if zones.ZoneError? {
      assert |c.trace| == from + 3 && c.trace[from + 2].ReadType?;
      StoppedOnce(c.world, c.trace, from, zones.err, None);
      StoppedOnce(c.world, c.trace, from, zones.err, zones.err.inner);
      return true, zones.err.inner;
    } else if zones.OtherZone? && !vol.IsAttached() {
      stop, err := MigrateFirst(c, vol, volumeID, volumeType, bytes, from);
      return;
    }
    return false, None;
  }

  // The comparison of the zones calls for a migration.
  predicate CallsForMigration(world: World, trace: seq<Call>, from: nat, vol: Volume, volumeType: string) {
    && |trace| == from + 3 && Shows(trace[from], vol) && trace[from + 1].ReadType? && trace[from + 2].ReadType?
    && !vol.IsAttached() && vol.volumeTypeID != volumeType
    && CompareZones(trace[from + 1].zone, trace[from + 2].zone, world.secondLast(from + 1)) == OtherZone
  }

  method MigrateFirst(c: Cloud, vol: Volume, volumeID: string, volumeType: string, bytes: Int64, ghost from: nat)
      returns (stop: bool, err: Option<string>)
    requires CallsForMigration(c.world, c.trace, from, vol, volumeType) && c.trace[from].volumeID == volumeID
    modifies c
    ensures old(c.trace) <= c.trace && |c.trace| <= |old(c.trace)| + 13
    ensures Issuing(c.world, volumeID, bytes, volumeType, c.trace, from)
    ensures forall i :: from <= i < |c.trace| ==> !c.trace[i].Resize?
    ensures stop ==> (err.None? <==> StoppedWith(c.world, c.trace, from, None))
    ensures stop && err.None? ==> !c.trace[|c.trace| - 1].Read?
    ensures stop && err.Some? ==>
              || StoppedWith(c.world, c.trace, from, err)
              || NotThereYet(c.world, volumeID, bytes, volumeType, c.trace, from)
    ensures !stop ==> |c.trace| > from + 3 && ShowsMigrated(c.trace[|c.trace| - 1], volumeType)
    ensures if stop then StoppedShort(c.world, volumeID, volumeType, c.trace, from)
            else ZonesAreDone(vol, volumeType, c.trace, from, |c.trace|)
  {
    ghost var before := c.trace;
    var problem := MigrateVolumeToType(c, vol, volumeID, volumeType);
    MigrationIsDue(c.world, before, c.trace, from, vol, volumeID, volumeType, bytes);
    if problem.None? {
      return false, None;
    }
    MigrationEnds(c.world, before, c.trace, from, vol, volumeID, volumeType, bytes, problem.value);
    return true, GetError(problem.value);
  }

  lemma MigrationEnds(world: World, before: seq<Call>, after: seq<Call>, from: nat, vol: Volume, volumeID: string,
                      volumeType: string, bytes: Int64, p: Problem)
    requires CallsForMigration(world, before, from, vol, volumeType)
    requires MigrationFails(world, volumeID, volumeType, before, after, p)
    ensures |after| > 0 && (GetError(p).None? ==> !after[|after| - 1].Read?)
    ensures GetError(p).None? <==> StoppedWith(world, after, from, None)
    ensures GetError(p).Some? ==>
              || StoppedWith(world, after, from, GetError(p))
              || NotThereYet(world, volumeID, bytes, volumeType, after, from)
    ensures StoppedShort(world, volumeID, volumeType, after, from)
  {
    if p.GaveUp? {
      assert SomeWait(world, Migrated(volumeType), volumeID, after, from, p.why);
      NotStoppedByMigration(world, before, after, from, vol, volumeType);
    } else {
      StoppedOnce(world, after, from, p.err, None);
      StoppedOnce(world, after, from, p.err, p.err.inner);
    }
  }

  lemma MigrationIsDue(world: World, before: seq<Call>, after: seq<Call>, from: nat, vol: Volume, volumeID: string,
                       volumeType: string, bytes: Int64)
    requires CallsForMigration(world, before, from, vol, volumeType) && before <= after
    requires before[from].volumeID == volumeID
    requires forall i :: |before| <= i < |after| ==>
               || (after[i].Read? && after[i].volumeID == volumeID)
               || (i == |before| && after[i].Migrate? && after[i].volumeID == volumeID &&
                   after[i].volumeType == volumeType && !vol.IsMigration() && !vol.IsCreating() &&
                   !IsMigratedToType(vol, volumeType))
    ensures ModifyTrace(world.sdk, volumeID, bytes, volumeType, after, from)
  {
    if |before| < |after| && after[|before|].Migrate? {
      assert Shows(after[from], vol);
      assert MigrateIsDue(world.sdk, volumeType, after, from, |before|);
    }
  }

  lemma NotStoppedByMigration(
      world: World, before: seq<Call>, after: seq<Call>, from: nat, vol: Volume, volumeType: string)
    requires CallsForMigration(world, before, from, vol, volumeType) && before <= after
    requires world.client(from + 3).None?
    requires |before| < |after| ==> !after[|after| - 1].ReadType?
    requires |before| < |after| && !after[|after| - 1].Read? ==> FatalError(after[|after| - 1]).None?
    ensures !StoppedWith(world, after, from, None)
  {
    if |before| < |after| {
      NotStopped(world, after, from, None);
    } else {
      assert after == before;
    }
  }

  // It does happen: one read that fails without an inner error, and the volume counts as resized.
  method ASilentReadIsSuccess(volumeID: string, bytes: Int64, volumeType: string, e: SdkError)
      returns (c: Cloud, newSize: Int64, err: Option<string>)
    requires e.inner.None?
    ensures err.None? && newSize == 0 && c.trace == [Read(volumeID, Failed(e))]
    ensures !ModifySeen(c.world.sdk, bytes, volumeType, c.trace, 0, newSize)
  {
    var sdk := Sdk(_ => false, _ => false, _ => false, (_, _) => false, (_, _) => false);
    var world := World(sdk, _ => None, _ => Failed(e), _ => NoZone(e), _ => Some(e), _ => false, _ => false);
    c := new Cloud(world);
    var options := new ModifyDiskOptions(volumeType);
    newSize, err := ResizeOrModifyDisk(c, volumeID, bytes, options);
  }
}
