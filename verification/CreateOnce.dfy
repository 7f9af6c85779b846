/**
 * CreateVolume and CreateSnapshot of pkg/driver/controller.go over pkg/cloud/cloud.go: look the
 * name up, create what is missing, and hold the name as an in-flight key meanwhile. Any number
 * of handlers and retries, one step at a time; a create may take effect and still fail, and
 * what was created may be deleted by anybody at any time.
 */
module CreateOnce {
  import opened Wrappers
  import opened SdkErrors
  import Snapshots = SnapshotLookup

  datatype Target = VolumeNamed(name: string) | SnapshotOf(volumeID: string, name: string)

  // What a handler works on; Other stands for every handler that takes some other key.
  datatype Job = Create(target: Target) | Other(key: string)

  function Key(job: Job): string {
    match job
    case Create(t) => t.name
    case Other(k) => k
  }

  datatype Phase = Arrived | Looking | Missing | Found | Settled | Returned

  datatype Handler = Handler(job: Job, phase: Phase)

  datatype Resource = Resource(id: int, target: Target)

  datatype State = State(handlers: seq<Handler>, inFlight: set<string>, resources: set<Resource>, nextID: int)

  const INIT := State([], {}, {}, 0)

  // The answer to a listing of the volumes of a name: how many, or an error, which may say by
  // its code that there are none.
  datatype VolumeList = Listed(len: int) | ListError(notFound: bool)

  datatype Event =
    | Arrive(job: Job)
    | Acquire(h: int)
    | FindVolume(h: int, answer: VolumeList)
    | FindSnapshot(h: int, server: Snapshots.Server)
    | CreateCall(h: int, takesEffect: bool)
    | Return(h: int)
    | Vanish(r: Resource)

  predicate Valid(job: Job) {
    job.Create? ==> job.target.name != "" && (job.target.SnapshotOf? ==> job.target.volumeID != "")
  }

  predicate At(s: State, h: int, phase: Phase) {
    0 <= h < |s.handlers| && s.handlers[h].phase == phase
  }

  function Move(s: State, h: int, phase: Phase): State
    requires 0 <= h < |s.handlers|
  {
    s.(handlers := s.handlers[h := s.handlers[h].(phase := phase)])
  }

  predicate Holds(x: Handler) {
    !x.phase.Arrived? && !x.phase.Returned?
  }

  function Next(s: State, e: Event): State {
    match e
    case Arrive(job) => if Valid(job) then s.(handlers := s.handlers + [Handler(job, Arrived)]) else s
    case Acquire(h) =>
      if !At(s, h, Arrived) then s
      else if Key(s.handlers[h].job) in s.inFlight then Move(s, h, Returned)
      else Move(s, h, Looking).(inFlight := s.inFlight + {Key(s.handlers[h].job)})
    // Anything but exactly one volume of the name reads as none.
    case FindVolume(h, answer) =>
      if At(s, h, Looking) && s.handlers[h].job.Create? && s.handlers[h].job.target.VolumeNamed? then
        Move(s, h, match answer
                   case Listed(len) => if len == 1 then Found else Missing
                   case ListError(notFound) => if notFound then Missing else Settled)
      else s
    // A failed lookup ends the handler; one that fails without an error goes on to create.
    case FindSnapshot(h, server) =>
      if At(s, h, Looking) && s.handlers[h].job.Create? && s.handlers[h].job.target.SnapshotOf? then
        var t := s.handlers[h].job.target;
        match Snapshots.Walk(server, t.volumeID, t.name, 1)
        case Found(_) => Move(s, h, Found)
        case NotFound => Move(s, h, Missing)
        case Nothing => Move(s, h, Missing)
        case _ => Move(s, h, Settled)
      else s
    case CreateCall(h, takesEffect) =>
      if At(s, h, Missing) && s.handlers[h].job.Create? then
        var s' := Move(s, h, Settled);
        if takesEffect then
          s'.(resources := s.resources + {Resource(s.nextID, s.handlers[h].job.target)}, nextID := s.nextID + 1)
        else s'
      else s
    // However a handler returns, it gives its key back on the way out.
    case Return(h) =>
      if 0 <= h < |s.handlers| && Holds(s.handlers[h]) then
        Move(s, h, Returned).(inFlight := s.inFlight - {Key(s.handlers[h].job)})
      else s
    case Vanish(r) => s.(resources := s.resources - {r})
  }

  // ----- Sound lookups -----

  function Named(s: State, t: Target): set<Resource> {
    set r | r in s.resources && r.target == t
  }

  predicate Exists(s: State, t: Target) {
    exists r :: r in s.resources && r.target == t
  }

  // The IaaS filters volumes by exact name and answers a page of up to ten.
  predicate SoundList(s: State, t: Target, answer: VolumeList) {
    match answer
    case Listed(len) => len == if |Named(s, t)| < 10 then |Named(s, t)| else 10
    case ListError(notFound) => notFound ==> !Exists(s, t)
  }

  // all lists the snapshots of a volume that there are.
  ghost predicate Lists(s: State, all: seq<Snapshots.Snapshot>, volumeID: string, name: string) {
    Exists(s, SnapshotOf(volumeID, name)) <==> exists x :: x in all && x.volumeID == volumeID && x.name == name
  }

  // The server shows all, which holds still, with an honest page count or in full pages, and
  // within the page cap.
  ghost predicate Shows(server: Snapshots.Server, all: seq<Snapshots.Snapshot>, size: nat, counted: bool) {
    && size > 0 && Snapshots.Serves(server, all, size, counted) && (counted || size >= 100)
    && |all| <= 50 * size
  }

  // The lookup fails with an error, or walks a complete listing.
  ghost predicate SoundWalk(s: State, volumeID: string, name: string, server: Snapshots.Server) {
    || Snapshots.Walk(server, volumeID, name, 1) == Snapshots.Failed
    || Snapshots.Walk(server, volumeID, name, 1) == Snapshots.Cancelled
    || exists all, size, counted :: Shows(server, all, size, counted) && Lists(s, all, volumeID, name)
  }

  ghost predicate Sound(s: State, e: Event) {
    match e
    case FindVolume(h, answer) =>
      0 <= h < |s.handlers| && s.handlers[h].job.Create? ==> SoundList(s, s.handlers[h].job.target, answer)
    case FindSnapshot(h, server) =>
      0 <= h < |s.handlers| && s.handlers[h].job.Create? && s.handlers[h].job.target.SnapshotOf? ==>
        SoundWalk(s, s.handlers[h].job.target.volumeID, s.handlers[h].job.target.name, server)
    case _ => true
  }

  function Run(events: seq<Event>): State {
    if events == [] then INIT else Next(Run(events[..|events| - 1]), events[|events| - 1])
  }

  ghost predicate SoundRun(events: seq<Event>) {
    events == [] ||
      (SoundRun(events[..|events| - 1]) && Sound(Run(events[..|events| - 1]), events[|events| - 1]))
  }

  // ----- The invariant -----

  ghost predicate Unique(s: State) {
    forall a, b :: a in s.resources && b in s.resources && a.target == b.target ==> a == b
  }

  // Who holds a key has it in the map, and nobody else holds it.
  predicate Exclusive(s: State) {
    && (forall h :: 0 <= h < |s.handlers| && Holds(s.handlers[h]) ==> Key(s.handlers[h].job) in s.inFlight)
    && (forall h, k :: 0 <= h < k < |s.handlers| && Holds(s.handlers[h]) && Holds(s.handlers[k]) ==>
          Key(s.handlers[h].job) != Key(s.handlers[k].job))
  }

  ghost predicate Inv(s: State) {
    && Exclusive(s)
    && Unique(s)
    && (forall r :: r in s.resources ==> r.id < s.nextID)
    && (forall h :: At(s, h, Missing) && s.handlers[h].job.Create? ==> !Exists(s, s.handlers[h].job.target))
  }

  // A handler that holds its key after a step held it before, or has just found it free.
  lemma HolderStep(s: State, e: Event, h: int)
    requires 0 <= h < |Next(s, e).handlers| && Holds(Next(s, e).handlers[h])
    ensures h < |s.handlers| && Next(s, e).handlers[h].job == s.handlers[h].job
    ensures Holds(s.handlers[h]) ||
            (e.Acquire? && e.h == h && Key(s.handlers[h].job) !in s.inFlight &&
             Key(s.handlers[h].job) in Next(s, e).inFlight)
  {
  }

  // A key leaves the map only with the handler that held it.
  lemma KeyStep(s: State, e: Event, k: string)
    requires k in s.inFlight && k !in Next(s, e).inFlight
    ensures e.Return? && 0 <= e.h < |s.handlers| && Holds(s.handlers[e.h]) && Key(s.handlers[e.h].job) == k
    ensures Next(s, e).handlers == s.handlers[e.h := s.handlers[e.h].(phase := Returned)]
  {
  }

  lemma HolderKeepsItsKey(s: State, e: Event, h: int)
    requires Exclusive(s) && 0 <= h < |Next(s, e).handlers| && Holds(Next(s, e).handlers[h])
    ensures Key(Next(s, e).handlers[h].job) in Next(s, e).inFlight
  {
    HolderStep(s, e, h);
    var k := Key(s.handlers[h].job);
    if k in s.inFlight && k !in Next(s, e).inFlight {
      KeyStep(s, e, k);
    }
  }

  // A map of keys is enough for mutual exclusion, whatever the lookups say: Return gives back
  // the key of the handler that returns, and no other handler holds it.
  lemma NextKeepsExclusion(s: State, e: Event)
    requires Exclusive(s)
    ensures Exclusive(Next(s, e))
  {
    var s' := Next(s, e);
    forall h | 0 <= h < |s'.handlers| && Holds(s'.handlers[h])
      ensures Key(s'.handlers[h].job) in s'.inFlight
    {
      HolderKeepsItsKey(s, e, h);
    }
    forall h, k | 0 <= h < k < |s'.handlers| && Holds(s'.handlers[h]) && Holds(s'.handlers[k])
      ensures Key(s'.handlers[h].job) != Key(s'.handlers[k].job)
    {
      HolderStep(s, e, h);
      HolderStep(s, e, k);
    }
  }

  lemma AtMostOneListed(s: State, t: Target)
    requires Unique(s)
    ensures |Named(s, t)| == if Exists(s, t) then 1 else 0
  {
    if Exists(s, t) {
      var r :| r in s.resources && r.target == t;
      assert Named(s, t) == {r};
    } else {
      assert Named(s, t) == {};
    }
  }

  // A sound lookup finds what there is and misses what there is not.
  lemma SoundLookupIsRight(s: State, e: Event)
    requires Unique(s) && Sound(s, e)
    requires (e.FindVolume? || e.FindSnapshot?) && At(s, e.h, Looking) && s.handlers[e.h].job.Create?
    requires e.FindVolume? <==> s.handlers[e.h].job.target.VolumeNamed?
    ensures var t, phase := s.handlers[e.h].job.target, Next(s, e).handlers[e.h].phase;
            (phase == Found ==> Exists(s, t)) && (phase == Missing ==> !Exists(s, t)) &&
            (phase == Found || phase == Missing || phase == Settled)
  {
    var t := s.handlers[e.h].job.target;
    if e.FindVolume? {
      AtMostOneListed(s, t);
    } else if all, size, counted :| Shows(e.server, all, size, counted) && Lists(s, all, t.volumeID, t.name) {
      SoundWalkIsRight(s, t.volumeID, t.name, e.server, all, size, counted);
    }
  }

  lemma SoundWalkIsRight(
      s: State, volumeID: string, name: string, server: Snapshots.Server, all: seq<Snapshots.Snapshot>, size: nat,
      counted: bool)
    requires Shows(server, all, size, counted) && Lists(s, all, volumeID, name)
    ensures var r := Snapshots.Walk(server, volumeID, name, 1);
            if Exists(s, SnapshotOf(volumeID, name)) then r.Found? else r.NotFound?
  {
    Snapshots.FirstMatchIsFirst(all, volumeID, name);
    if counted {
      Snapshots.CountedLookup(server, all, size, volumeID, name);
    } else {
      Snapshots.UncountedLookup(server, all, size, volumeID, name);
    }
  }

  lemma CreateKeepsUnique(s: State, h: int, takesEffect: bool)
    requires Inv(s) && At(s, h, Missing) && s.handlers[h].job.Create?
    ensures Inv(Next(s, CreateCall(h, takesEffect)))
  {
    var s' := Next(s, CreateCall(h, takesEffect));
    var t := s.handlers[h].job.target;
    NextKeepsExclusion(s, CreateCall(h, takesEffect));
    forall k | At(s', k, Missing) && s'.handlers[k].job.Create?
      ensures !Exists(s', s'.handlers[k].job.target)
    {
      assert At(s, k, Missing) && k != h;
      assert Holds(s.handlers[k]) && Holds(s.handlers[h]);
    }
  }

  // A handler looks up a target that exists and is sent on to create it.
  predicate Misses(s: State, e: Event) {
    && (e.FindVolume? || e.FindSnapshot?) && At(s, e.h, Looking) && s.handlers[e.h].job.Create?
    && At(Next(s, e), e.h, Missing) && Exists(s, s.handlers[e.h].job.target)
  }

  lemma SoundMissesNothing(s: State, e: Event)
    requires Unique(s) && Sound(s, e)
    ensures !Misses(s, e)
  {
    if Misses(s, e) {
      SoundLookupIsRight(s, e);
    }
  }

  // Which answers make a lookup miss: any number of volumes but one, or a not-found error; and
  // no match on the pages visited, which end in not-found or in an error without an inner one.
  lemma WhatMisses(s: State, e: Event)
    requires (e.FindVolume? || e.FindSnapshot?) && At(s, e.h, Looking) && s.handlers[e.h].job.Create?
    requires e.FindVolume? <==> s.handlers[e.h].job.target.VolumeNamed?
    ensures var t := s.handlers[e.h].job.target;
            Misses(s, e) <==> Exists(s, t) && match e
              case FindVolume(_, answer) => if answer.Listed? then answer.len != 1 else answer.notFound
              case FindSnapshot(_, server) =>
                && (forall x :: x in Snapshots.Visited(server, 1) ==> x.volumeID != t.volumeID || x.name != t.name)
                && Snapshots.Ending(server, 1) in {Snapshots.NotFound, Snapshots.Nothing}
  {
    if e.FindSnapshot? {
      var t := s.handlers[e.h].job.target;
      Snapshots.WalkSearchesVisited(e.server, t.volumeID, t.name, 1);
      Snapshots.FoundIffVisited(e.server, t.volumeID, t.name);
    }
  }

  lemma LookupKeepsInv(s: State, e: Event)
    requires Inv(s) && !Misses(s, e) && (e.FindVolume? || e.FindSnapshot?)
    ensures Inv(Next(s, e))
  {
    var s' := Next(s, e);
    NextKeepsExclusion(s, e);
    forall k | At(s', k, Missing) && s'.handlers[k].job.Create?
      ensures !Exists(s', s'.handlers[k].job.target)
    {
      if k != e.h || s' == s {
        assert At(s, k, Missing);
      }
    }
  }

  // Every step but a miss keeps targets unique, creates that take effect and fail included.
  lemma NextKeepsInv(s: State, e: Event)
    requires Inv(s) && !Misses(s, e)
    ensures Inv(Next(s, e))
  {
    if e.FindVolume? || e.FindSnapshot? {
      LookupKeepsInv(s, e);
    } else if e.CreateCall? && At(s, e.h, Missing) && s.handlers[e.h].job.Create? {
      CreateKeepsUnique(s, e.h, e.takesEffect);
    } else {
      var s' := Next(s, e);
      NextKeepsExclusion(s, e);
      forall k | At(s', k, Missing) && s'.handlers[k].job.Create?
        ensures !Exists(s', s'.handlers[k].job.target)
      {
        assert At(s, k, Missing);
      }
    }
  }

  ghost predicate MissFree(events: seq<Event>) {
    events == [] ||
      (MissFree(events[..|events| - 1]) && !Misses(Run(events[..|events| - 1]), events[|events| - 1]))
  }

  lemma {:induction false} RunKeepsInv(events: seq<Event>)
    requires MissFree(events)
    ensures Inv(Run(events))
  {
    if events != [] {
      RunKeepsInv(events[..|events| - 1]);
      NextKeepsInv(Run(events[..|events| - 1]), events[|events| - 1]);
    }
  }

  // Sound lookups never miss.
  lemma {:induction false} SoundRunsAreMissFree(events: seq<Event>)
    requires SoundRun(events)
    ensures MissFree(events)
  {
    if events != [] {
      SoundRunsAreMissFree(events[..|events| - 1]);
      RunKeepsInv(events[..|events| - 1]);
      SoundMissesNothing(Run(events[..|events| - 1]), events[|events| - 1]);
    }
  }

  // At most one volume per name and one snapshot per volume and name, in every run in which no
  // lookup misses, and so in every run whose lookups are sound - however the handlers
  // interleave, fail, and are retried.
  lemma NoDuplicates(events: seq<Event>, a: Resource, b: Resource)
    requires MissFree(events) || SoundRun(events)
    requires a in Run(events).resources && b in Run(events).resources
    ensures a.target == b.target ==> a == b
  {
    if SoundRun(events) {
      SoundRunsAreMissFree(events);
    }
    RunKeepsInv(events);
  }

  lemma AMissDuplicates(s: State, e: Event)
    requires Inv(s) && Misses(s, e)
    ensures !Unique(Next(Next(s, e), CreateCall(e.h, true)))
  {
    var t := s.handlers[e.h].job.target;
    var s2 := Next(Next(s, e), CreateCall(e.h, true));
    var second := Resource(s.nextID, t);
    assert s2.resources == s.resources + {second};
    var r :| r in s.resources && r.target == t;
    assert r in s2.resources && second in s2.resources && r.id != second.id;
  }

  lemma CreateAfterKeepsInv(s: State, h: int)
    requires Inv(s)
    ensures Inv(Next(s, CreateCall(h, true)))
  {
    assert !Misses(s, CreateCall(h, true));
    NextKeepsInv(s, CreateCall(h, true));
  }

  // And nothing less will do: as long as no lookup has missed, a step opens the way to a
  // duplicate, made by the next create that takes effect, exactly if it is a miss.
  lemma DuplicateIffMiss(events: seq<Event>, e: Event)
    requires MissFree(events)
    ensures (exists h :: !Unique(Next(Next(Run(events), e), CreateCall(h, true)))) <==> Misses(Run(events), e)
  {
    var s := Run(events);
    RunKeepsInv(events);
    if Misses(s, e) {
      AMissDuplicates(s, e);
    } else {
      NextKeepsInv(s, e);
      forall h
        ensures Unique(Next(Next(s, e), CreateCall(h, true)))
      {
        CreateAfterKeepsInv(Next(s, e), h);
      }
    }
  }

  // Two handlers are never between lookup and create of the same name at once, sound or not.
  lemma {:induction false} OneCreatorPerName(events: seq<Event>, h: int, k: int)
    requires 0 <= h < |Run(events).handlers| && Holds(Run(events).handlers[h])
    requires 0 <= k < |Run(events).handlers| && Holds(Run(events).handlers[k])
    requires var s := Run(events); Key(s.handlers[h].job) == Key(s.handlers[k].job)
    ensures h == k
  {
    RunIsExclusive(events);
  }

  lemma {:induction false} RunIsExclusive(events: seq<Event>)
    ensures Exclusive(Run(events))
  {
    if events != [] {
      RunIsExclusive(events[..|events| - 1]);
      NextKeepsExclusion(Run(events[..|events| - 1]), events[|events| - 1]);
    }
  }

  // Nobody works on an empty name, or on a snapshot of no volume.
  lemma {:induction false} NamesAreNotEmpty(events: seq<Event>, h: int)
    requires 0 <= h < |Run(events).handlers| && Run(events).handlers[h].job.Create?
    ensures var t := Run(events).handlers[h].job.target; t.name != "" && (t.SnapshotOf? ==> t.volumeID != "")
  {
    if events != [] {
      var before, e := Run(events[..|events| - 1]), events[|events| - 1];
      if h < |before.handlers| {
        JobStep(before, e, h);
        NamesAreNotEmpty(events[..|events| - 1], h);
      }
    }
  }

  lemma JobStep(s: State, e: Event, h: int)
    requires 0 <= h < |s.handlers|
    ensures h < |Next(s, e).handlers| && Next(s, e).handlers[h].job == s.handlers[h].job
  {
  }

  // ----- A handler that is not interleaved -----

  function Alone(s: State, t: Target, answer: VolumeList, server: Snapshots.Server): State {
    var h := |s.handlers|;
    var find := if t.VolumeNamed? then FindVolume(h, answer) else FindSnapshot(h, server);
    Next(Next(Next(Next(Next(s, Arrive(Create(t))), Acquire(h)), find), CreateCall(h, true)), Return(h))
  }

  // s with one more handler, in some phase.
  function Joined(s: State, t: Target, phase: Phase): State {
    s.(handlers := s.handlers + [Handler(Create(t), phase)])
  }

  lemma MovesAlone(s: State, t: Target, a: Phase, b: Phase)
    ensures Move(Joined(s, t, a), |s.handlers|, b) == Joined(s, t, b)
  {
  }

  // What sends a handler on to create.
  predicate ComesBackEmpty(t: Target, answer: VolumeList, server: Snapshots.Server) {
    if t.VolumeNamed? then (if answer.Listed? then answer.len != 1 else answer.notFound)
    else Snapshots.Walk(server, t.volumeID, t.name, 1) in {Snapshots.NotFound, Snapshots.Nothing}
  }

  lemma FindsAlone(s: State, t: Target, answer: VolumeList, server: Snapshots.Server) returns (phase: Phase)
    ensures var h := |s.handlers|;
            var find := if t.VolumeNamed? then FindVolume(h, answer) else FindSnapshot(h, server);
            Next(Joined(s, t, Looking), find) == Joined(s, t, phase)
    ensures phase == Missing <==> ComesBackEmpty(t, answer, server)
    ensures phase == Missing || phase == Found || phase == Settled
  {
    var h := |s.handlers|;
    var find := if t.VolumeNamed? then FindVolume(h, answer) else FindSnapshot(h, server);
    phase := Next(Joined(s, t, Looking), find).handlers[h].phase;
    MovesAlone(s, t, Looking, phase);
  }

  lemma StartsAlone(s: State, t: Target)
    requires t.name != "" && (t.SnapshotOf? ==> t.volumeID != "") && t.name !in s.inFlight
    ensures Next(Next(s, Arrive(Create(t))), Acquire(|s.handlers|)) ==
            Joined(s.(inFlight := s.inFlight + {t.name}), t, Looking)
  {
    MovesAlone(s, t, Arrived, Looking);
  }

  lemma EndsAlone(s: State, t: Target, phase: Phase)
    requires t.name !in s.inFlight && (phase == Settled || phase == Found)
    ensures Next(Joined(s.(inFlight := s.inFlight + {t.name}), t, phase), Return(|s.handlers|)) ==
            Joined(s, t, Returned)
  {
    MovesAlone(s.(inFlight := s.inFlight + {t.name}), t, phase, Returned);
    assert s.inFlight + {t.name} - {t.name} == s.inFlight;
  }

  function WithResource(s: State, t: Target): State {
    s.(resources := s.resources + {Resource(s.nextID, t)}, nextID := s.nextID + 1)
  }

  // It creates what its lookup does not find, and only that, and gives its key back.
  lemma CreatorAlone(s: State, t: Target, answer: VolumeList, server: Snapshots.Server)
    requires t.name != "" && (t.SnapshotOf? ==> t.volumeID != "") && t.name !in s.inFlight
    ensures Alone(s, t, answer, server) ==
            Joined(if ComesBackEmpty(t, answer, server) then WithResource(s, t) else s, t, Returned)
  {
    var s1 := s.(inFlight := s.inFlight + {t.name});
    StartsAlone(s, t);
    var phase := FindsAlone(s1, t, answer, server);
    if phase == Missing {
      MovesAlone(s1, t, Missing, Settled);
      EndsAlone(WithResource(s, t), t, Settled);
    } else {
      EndsAlone(s, t, phase);
    }
  }

  // ----- Lookups that miss -----

  // A snapshot lookup that errs without an inner error, on whatever page, is taken for "not
  // there": the handler goes on to create, and a create that takes effect is a duplicate exactly
  // if there was one.
  lemma ASilentLookupDuplicates(s: State, h: int, server: Snapshots.Server)
    requires Inv(s) && At(s, h, Looking) && s.handlers[h].job.Create? && s.handlers[h].job.target.SnapshotOf?
    requires var t := s.handlers[h].job.target; Snapshots.Walk(server, t.volumeID, t.name, 1) == Snapshots.Nothing
    ensures var after := Next(Next(s, FindSnapshot(h, server)), CreateCall(h, true));
            Unique(after) <==> !Exists(s, s.handlers[h].job.target)
  {
    if Exists(s, s.handlers[h].job.target) {
      AMissDuplicates(s, FindSnapshot(h, server));
    } else {
      NextKeepsInv(s, FindSnapshot(h, server));
      CreateAfterKeepsInv(Next(s, FindSnapshot(h, server)), h);
    }
  }

  // Two volumes of one name, made by somebody else, read as none: the driver makes a third.
  lemma TwoOfANameBecomeThree(s: State, h: int, answer: VolumeList)
    requires At(s, h, Looking) && s.handlers[h].job.Create? && s.handlers[h].job.target.VolumeNamed?
    requires answer.Listed? && SoundList(s, s.handlers[h].job.target, answer)
    requires forall r :: r in s.resources ==> r.id < s.nextID
    ensures var t := s.handlers[h].job.target;
            var after := Next(Next(s, FindVolume(h, answer)), CreateCall(h, true));
            |Named(after, t)| == if |Named(s, t)| == 1 then 1 else |Named(s, t)| + 1
  {
    var t := s.handlers[h].job.target;
    var after := Next(Next(s, FindVolume(h, answer)), CreateCall(h, true));
    if |Named(s, t)| == 1 {
      assert Named(after, t) == Named(s, t);
    } else {
      assert Named(after, t) == Named(s, t) + {Resource(s.nextID, t)};
    }
  }
}

/**
 * The two create handlers as the source writes them, up to what they look up, whether they
 * create, and what they do to the in-flight map.
 */
module CreateHandlers {
  import opened CreateOnce
  import InFlight
  import Snapshots = SnapshotLookup

  // NoAnswer is neither a response nor an error: what a handler returns that passes on the inner
  // error of an SDK error without one. Panic is the response built from a snapshot that is nil.
  datatype Code = OK | InvalidArgument | AlreadyExists | Failed | NoAnswer | Panic

  // A step that goes through, or fails with an error that has an inner one (loud) or has none.
  datatype Step = Done | Fails(loud: bool)

  method CreateSnapshot(
      inFlight: InFlight.InFlight, volumeID: string, name: string, server: Snapshots.Server, create: Step)
    returns (code: Code, commanded: bool)
    modifies inFlight
    ensures inFlight.inFlight == old(inFlight.inFlight)
    // Created only under the name's key, and only when the lookup has come back empty-handed.
    ensures commanded <==>
              && volumeID != "" && name != "" && !old(inFlight.Holds(name))
              && Snapshots.Walk(server, volumeID, name, 1) in {Snapshots.NotFound, Snapshots.Nothing}
    ensures code == (
      if volumeID == "" || name == "" then InvalidArgument
      else if old(inFlight.Holds(name)) then AlreadyExists
      else match Snapshots.Walk(server, volumeID, name, 1)
        case Found(_) => OK
        case Failed => Code.Failed
        case Cancelled => Code.Failed
        case _ => if create.Done? then OK else if create.loud then Code.Failed else Panic)
  {
    commanded := false;
    if name == "" || volumeID == "" {
      return InvalidArgument, false;
    }
    var ok := inFlight.Insert(name);
    if !ok {
      return AlreadyExists, false;
    }
    var r, _ := Snapshots.GetVolumeSnapshotByName(server, volumeID, name);
    if r.Failed? || r.Cancelled? {
      code := Code.Failed;
    } else if r.Found? {
      code := OK;
    } else {
      commanded := true;
      code := if create.Done? then OK else if create.loud then Code.Failed else Panic;
    }
    inFlight.Delete(name);
  }

  // getVolumeByName: a page of up to ten volumes of the name, of which exactly one is a hit.
  method GetVolumeByName(name: string, answer: VolumeList) returns (found: bool, notFound: bool)
    ensures found <==> name != "" && answer == Listed(1)
    ensures notFound <==> !found && (name == "" || answer.Listed? || answer.notFound)
  {
    if name == "" {
      return false, true;
    }
    if answer.ListError? {
      return false, answer.notFound;
    }
    if answer.len != 1 {
      return false, true;
    }
    return true, false;
  }

  function Outcome(s: Step): Code {
    if s.Done? then OK else if s.loud then Code.Failed else NoAnswer
  }

  lemma OutcomeInFull(s: Step)
    ensures s.Fails? ==> Outcome(s) == if s.loud then Code.Failed else NoAnswer
    ensures Outcome(s) == OK <==> s == Done
  {
  }

  // Before it takes the key the handler finds zone and size (locate); with the key it waits to
  // be admitted, looks the name up, builds the request from parameters, content source and PVC
  // (build), and looks the name up once more in EitherCreateResizeVolume. resize stands for the
  // answer of the resize branch, lookupLoud for the error of the second lookup, if it is one.
  method CreateVolume(
      inFlight: InFlight.InFlight, name: string, locate: Step, admitted: bool, first: VolumeList, build: Step,
      second: VolumeList, lookupLoud: bool, resize: Step, create: Step)
    returns (code: Code, commanded: bool)
    modifies inFlight
    ensures inFlight.inFlight == old(inFlight.inFlight)
    ensures commanded <==>
              && name != "" && locate.Done? && !old(inFlight.Holds(name)) && admitted && build.Done?
              && (first.Listed? || first.notFound)
              && (if second.Listed? then second.len != 1 else second.notFound)
    ensures code == (
      if name == "" then InvalidArgument
      else if locate.Fails? then Outcome(locate)
      else if old(inFlight.Holds(name)) then AlreadyExists
      else if !admitted || (first.ListError? && !first.notFound) then Code.Failed
      else if build.Fails? then Outcome(build)
      else if commanded then Outcome(create)
      else if second.Listed? then Outcome(resize)
      else Outcome(Fails(lookupLoud)))
  {
    commanded := false;
    if name == "" {
      return InvalidArgument, false;
    }
    if locate.Fails? {
      return Outcome(locate), false;
    }
    var ok := inFlight.Insert(name);
    if !ok {
      return AlreadyExists, false;
    }
    code := Code.Failed;
    if admitted {
      var found, notFound := GetVolumeByName(name, first);
      if found || notFound {
        if build.Fails? {
          code := Outcome(build);
        } else {
          found, notFound := GetVolumeByName(name, second);
          if found {
            code := Outcome(resize);
          } else if notFound {
            commanded := true;
            code := Outcome(create);
          } else {
            code := Outcome(Fails(lookupLoud));
          }
        }
      }
    }
    inFlight.Delete(name);
  }
}
