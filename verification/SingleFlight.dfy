/**
 * metaCache.get (pkg/cloud/metacache.go) run by any number of threads on any number of
 * caches, with loaders that call into a further cache: the zone list and the volume types
 * load through the project client, which is a permanent cache of its own
 * (pkg/cloud/project_scope.go). One step is one lock region, one answer of a loader, one
 * close of a channel or one wake-up.
 */
module SingleFlight {
  import opened Wrappers
  import opened Clock

  type Tid = int
  type CallId = int

  // A loaded value; nothing looks inside it.
  type Value = int

  // The caches of the driver. A catalog loader may ask for the project client; the loader
  // of the project client asks for nothing.
  datatype CacheId = Project | Catalog(key: string)

  function Rank(id: CacheId): nat {
    if id.Project? then 0 else 1
  }

  const CATALOG_TTL: Duration := 5 * MINUTE

  datatype Result = Ok(value: Value) | Err

  datatype Publication = Publication(value: Value, at: Time)

  // published is the history of successful loads.
  datatype Cache = Cache(
    value: Value, loaded: bool, expires: Time, loading: Option<CallId>, published: seq<Publication>)

  const EMPTY := Cache(0, false, 0, None, [])

  // One fetch that late callers wait on. depth is the frame of the owner that runs it; pub
  // the publication it ended in, if any.
  datatype Call = Call(cache: CacheId, owner: Tid, depth: nat, result: Option<Result>, pub: Option<nat>, done: bool)

  datatype Phase = Wanting | Waiting(c: CallId) | Loading(c: CallId) | Loaded(c: CallId) | Published(c: CallId) {
    predicate Owns(id: CallId) {
      (Loading? || Loaded? || Published?) && c == id
    }
  }

  // One activation of get; a loader that calls get puts a further frame on top.
  datatype Frame = Frame(cache: CacheId, phase: Phase)

  datatype Source = FromCache(pub: nat, at: Time) | Owner(c: CallId) | Waiter(c: CallId)

  datatype Return = Return(cache: CacheId, result: Result, source: Source)

  datatype State = State(
    clock: Time, caches: map<CacheId, Cache>, calls: seq<Call>, stacks: map<Tid, seq<Frame>>, history: seq<Return>)

  const INIT := State(0, map[], [], map[], [])

  datatype Event =
    | Tick(d: nat)
    | Ask(t: Tid, cache: CacheId)
    | Enter(t: Tid)
    | Answer(t: Tid, result: Result)
    | Publish(t: Tid)
    | Close(t: Tid)
    | Wake(t: Tid)

  // A keyed cache makes its entry on first use.
  function CacheOf(s: State, id: CacheId): Cache {
    if id in s.caches then s.caches[id] else EMPTY
  }

  function Stack(s: State, t: Tid): seq<Frame> {
    if t in s.stacks then s.stacks[t] else []
  }

  predicate Fresh(c: Cache, id: CacheId, now: Time) {
    c.loaded && (id.Project? || now < c.expires)
  }

  // The top frame of t moves to a phase, or returns.

  function Goto(s: State, t: Tid, phase: Phase): State
    requires Stack(s, t) != []
  {
    var st := Stack(s, t);
    s.(stacks := s.stacks[t := st[|st| - 1 := st[|st| - 1].(phase := phase)]])
  }

  function Returns(s: State, t: Tid, r: Result, source: Source): State
    requires Stack(s, t) != []
  {
    var st := Stack(s, t);
    s.(stacks := s.stacks[t := st[..|st| - 1]], history := s.history + [Return(st[|st| - 1].cache, r, source)])
  }

  // The first lock region of get.
  function EnterStep(s: State, t: Tid, id: CacheId): State
    requires Stack(s, t) != []
  {
    var cache := CacheOf(s, id);
    if Fresh(cache, id, s.clock) then
      Returns(s, t, Ok(cache.value), FromCache(if cache.published == [] then 0 else |cache.published| - 1, s.clock))
    else if cache.loading.Some? then Goto(s, t, Waiting(cache.loading.value))
    else
      var c := |s.calls|;
      Goto(s.(calls := s.calls + [Call(id, t, |Stack(s, t)| - 1, None, None, false)],
              caches := s.caches[id := cache.(loading := Some(c))]), t, Loading(c))
  }

  // The second lock region of get.
  function PublishStep(s: State, t: Tid, id: CacheId, c: CallId): State
    requires Stack(s, t) != [] && 0 <= c < |s.calls|
  {
    var cache, call := CacheOf(s, id), s.calls[c];
    if call.result.Some? && call.result.value.Ok? then
      var v := call.result.value.value;
      var next := Cache(v, true, s.clock + CATALOG_TTL, None, cache.published + [Publication(v, s.clock)]);
      var calls := s.calls[c := call.(pub := Some(|cache.published|))];
      Goto(s.(caches := s.caches[id := next], calls := calls), t, Published(c))
    else
      Goto(s.(caches := s.caches[id := cache.(loading := None)]), t, Published(c))
  }

  function Next(s: State, e: Event): State {
    if e.Tick? then s.(clock := s.clock + e.d)
    else
      var st := Stack(s, e.t);
      if e.Ask? then
        if st == [] || (st[|st| - 1].phase.Loading? && Rank(e.cache) < Rank(st[|st| - 1].cache)) then
          s.(stacks := s.stacks[e.t := st + [Frame(e.cache, Wanting)]])
        else s
      else if st == [] then s
      else
        var top := st[|st| - 1];
        match (e, top.phase)
        case (Enter(t), Wanting) => EnterStep(s, t, top.cache)
        case (Answer(t, r), Loading(c)) =>
          if 0 <= c < |s.calls| then
            Goto(s.(calls := s.calls[c := s.calls[c].(result := Some(r))]), t, Loaded(c))
          else s
        case (Publish(t), Loaded(c)) =>
          if 0 <= c < |s.calls| then PublishStep(s, t, top.cache, c) else s
        case (Close(t), Published(c)) =>
          if 0 <= c < |s.calls| && s.calls[c].result.Some? then
            Returns(s.(calls := s.calls[c := s.calls[c].(done := true)]), t, s.calls[c].result.value, Owner(c))
          else s
        case (Wake(t), Waiting(c)) =>
          if 0 <= c < |s.calls| && s.calls[c].done && s.calls[c].result.Some? then
            Returns(s, t, s.calls[c].result.value, Waiter(c))
          else s
        case _ => s
  }

  function Run(events: seq<Event>): State {
    if events == [] then INIT else Next(Run(events[..|events| - 1]), events[|events| - 1])
  }

  // ----- The invariant -----

  // Only the top frame of a thread can be anything but in its loader, and a loader only asks
  // caches of lower rank.
  predicate StackOk(st: seq<Frame>) {
    && (forall i :: 0 <= i < |st| - 1 ==> st[i].phase.Loading?)
    && (forall i, j :: 0 <= i < j < |st| ==> Rank(st[j].cache) < Rank(st[i].cache))
  }

  // A frame that runs or awaits a call agrees with the call's record.
  predicate FrameOk(s: State, t: Tid, i: nat, f: Frame) {
    match f.phase
    case Wanting => true
    case Waiting(c) => 0 <= c < |s.calls| && s.calls[c].cache == f.cache
    case _ =>
      var c := f.phase.c;
      && 0 <= c < |s.calls|
      && s.calls[c].cache == f.cache && s.calls[c].owner == t && s.calls[c].depth == i && !s.calls[c].done
      && (f.phase.Published? || CacheOf(s, f.cache).loading == Some(c))
      && (f.phase.Loading? <==> s.calls[c].result.None?)
      && (f.phase.Published? ==> CallPublished(s, c))
  }

  // A successful call that has been published is in its cache's history.
  predicate CallPublished(s: State, c: CallId)
    requires 0 <= c < |s.calls|
  {
    var call := s.calls[c];
    call.result.Some? && (call.result.value.Ok? ==>
      && call.pub.Some?
      && call.pub.value < |CacheOf(s, call.cache).published|
      && CacheOf(s, call.cache).published[call.pub.value].value == call.result.value.value)
  }

  // An open call has a live owner; a closed one has a result.
  predicate CallOk(s: State, c: CallId)
    requires 0 <= c < |s.calls|
  {
    var call := s.calls[c];
    if call.done then CallPublished(s, c)
    else call.depth < |Stack(s, call.owner)| && Stack(s, call.owner)[call.depth].phase.Owns(c)
  }

  predicate CacheOk(s: State, id: CacheId) {
    var cache := CacheOf(s, id);
    && cache.loaded == (cache.published != [])
    && (cache.loaded ==> var p := cache.published[|cache.published| - 1];
                         cache.value == p.value && cache.expires == p.at + CATALOG_TTL && p.at <= s.clock)
    && (cache.loading.Some? ==>
          && 0 <= cache.loading.value < |s.calls| && s.calls[cache.loading.value].cache == id)
    && (id.Project? ==> |cache.published| <= 1 && (cache.loading.Some? ==> !cache.loaded))
  }

  predicate ReturnOk(s: State, r: Return) {
    var cache := CacheOf(s, r.cache);
    match r.source
    case FromCache(p, at) =>
      && r.result.Ok? && p < |cache.published| && r.result.value == cache.published[p].value
      && cache.published[p].at <= at
      && (r.cache.Project? || at < cache.published[p].at + CATALOG_TTL)
    case _ =>
      var c := r.source.c;
      && 0 <= c < |s.calls| && s.calls[c].cache == r.cache && s.calls[c].done
      && s.calls[c].result == Some(r.result)
  }

  ghost predicate Inv(s: State) {
    && (forall t :: t in s.stacks ==> StackOk(s.stacks[t]))
    && (forall t, i :: t in s.stacks && 0 <= i < |s.stacks[t]| ==> FrameOk(s, t, i, s.stacks[t][i]))
    && (forall c :: 0 <= c < |s.calls| ==> CallOk(s, c))
    && (forall id :: CacheOk(s, id))
    && (forall i :: 0 <= i < |s.history| ==> ReturnOk(s, s.history[i]))
  }

  // ----- Every step keeps it -----

  // What the invariant says about the frame that acts.
  lemma TopFrame(s: State, t: Tid)
    requires Inv(s) && Stack(s, t) != []
    ensures var i := |Stack(s, t)| - 1; FrameOk(s, t, i, Stack(s, t)[i])
    ensures CacheOk(s, Stack(s, t)[|Stack(s, t)| - 1].cache)
  {
    assert t in s.stacks;
  }

  // A stack stays, loses its top, changes its top's phase, or gets one frame on a loading top.
  predicate StackMoves(st: seq<Frame>, st': seq<Frame>) {
    || st' == st
    || (st != [] && st' == st[..|st| - 1])
    || (st != [] && |st'| == |st| && st'[..|st| - 1] == st[..|st| - 1] && st'[|st| - 1].cache == st[|st| - 1].cache)
    || (|st'| == |st| + 1 && st'[..|st|] == st &&
        (st != [] ==> st[|st| - 1].phase.Loading? && Rank(st'[|st|].cache) < Rank(st[|st| - 1].cache)))
  }

  lemma StackChange(s: State, e: Event, t: Tid)
    ensures StackMoves(Stack(s, t), Stack(Next(s, e), t))
  {
  }

  lemma MovedStackOk(st: seq<Frame>, st': seq<Frame>)
    requires StackOk(st) && StackMoves(st, st')
    ensures StackOk(st')
  {
    assert forall i :: 0 <= i < |st'| - 1 && i < |st| - 1 ==> st'[i] == st[i];
  }

  lemma StackKept(s: State, e: Event, t: Tid)
    requires StackOk(Stack(s, t))
    ensures StackOk(Stack(Next(s, e), t))
  {
    StackChange(s, e, t);
    MovedStackOk(Stack(s, t), Stack(Next(s, e), t));
  }

  lemma StacksKept(s: State, e: Event)
    requires Inv(s)
    ensures forall t :: t in Next(s, e).stacks ==> StackOk(Next(s, e).stacks[t])
  {
    forall t | t in Next(s, e).stacks
      ensures StackOk(Next(s, e).stacks[t])
    {
      StackKept(s, e, t);
    }
  }

  // The frame on top of t's stack runs call c.
  predicate Runs(s: State, t: Tid, c: CallId) {
    Stack(s, t) != [] && Stack(s, t)[|Stack(s, t)| - 1].phase.Owns(c)
  }

  // A call's record is written by the frame that runs it and by no other.
  lemma CallStep(s: State, e: Event, c: CallId)
    requires 0 <= c < |s.calls|
    ensures c < |Next(s, e).calls|
    ensures Next(s, e).calls[c] == s.calls[c] || (!e.Tick? && Runs(s, e.t, c))
  {
  }

  // A cache's claim is made by a frame that finds none, and dropped by the frame that publishes.
  lemma LoadingStep(s: State, e: Event, id: CacheId)
    ensures CacheOf(Next(s, e), id).loading == CacheOf(s, id).loading ||
            (!e.Tick? && Stack(s, e.t) != [] && Stack(s, e.t)[|Stack(s, e.t)| - 1].cache == id &&
             (CacheOf(s, id).loading.None? || Stack(s, e.t)[|Stack(s, e.t)| - 1].phase.Loaded?))
  {
  }

  lemma PublishedStep(s: State, e: Event, id: CacheId)
    ensures CacheOf(s, id).published <= CacheOf(Next(s, e), id).published
  {
  }

  lemma StackStep(s: State, e: Event, t: Tid)
    ensures Stack(Next(s, e), t) == Stack(s, t) || (!e.Tick? && e.t == t)
  {
  }

  // Nobody else runs a call that has an owner.
  lemma OwnerRuns(s: State, t: Tid, c: CallId)
    requires Inv(s) && Runs(s, t, c)
    ensures 0 <= c < |s.calls| && s.calls[c].owner == t && s.calls[c].depth == |Stack(s, t)| - 1 && !s.calls[c].done
    ensures Stack(s, t)[|Stack(s, t)| - 1].phase.Loaded? ==> CacheOf(s, s.calls[c].cache).loading == Some(c)
  {
    TopFrame(s, t);
  }

  // The record behind a frame of another thread, or further down the stack, is not touched.
  lemma OtherFrameKept(s: State, e: Event, t: Tid, i: nat)
    requires Inv(s) && t in s.stacks && i < |s.stacks[t]|
    requires e.Tick? || e.Ask? || t != e.t || i < |s.stacks[t]| - 1
    ensures FrameOk(Next(s, e), t, i, s.stacks[t][i])
  {
    var f := s.stacks[t][i];
    assert FrameOk(s, t, i, f);
    match f.phase
    case Wanting =>
    case Waiting(c) => CachesChange(s, e, f.cache);
    case _ => OwnedCallKept(s, e, t, i, f, f.phase.c);
  }

  lemma OwnedCallKept(s: State, e: Event, t: Tid, i: nat, f: Frame, c: CallId)
    requires Inv(s) && t in s.stacks && i < |s.stacks[t]| && f == s.stacks[t][i] && f.phase.Owns(c)
    requires e.Tick? || e.Ask? || t != e.t || i < |s.stacks[t]| - 1
    ensures FrameOk(Next(s, e), t, i, f)
  {
    assert FrameOk(s, t, i, f);
    CallStep(s, e, c);
    LoadingStep(s, e, f.cache);
    PublishedStep(s, e, f.cache);
    if e.Ask? {
      AskOnlyAsks(s, e);
    } else if !e.Tick? && Stack(s, e.t) != [] {
      var top := Stack(s, e.t)[|Stack(s, e.t)| - 1];
      TopFrame(s, e.t);
      if top.phase.Loaded? {
        OwnerRuns(s, e.t, top.phase.c);
      }
      if Runs(s, e.t, c) {
        OwnerRuns(s, e.t, c);
      }
    }
  }

  lemma AskOnlyAsks(s: State, e: Event)
    requires e.Ask?
    ensures Next(s, e).calls == s.calls && Next(s, e).caches == s.caches
  {
  }

  lemma OwnFrameKept(s: State, e: Event)
    requires Inv(s) && !e.Tick? && e.t in Next(s, e).stacks
    ensures var st := Next(s, e).stacks[e.t];
            |st| > 0 && |st| >= |Stack(s, e.t)| ==> FrameOk(Next(s, e), e.t, |st| - 1, st[|st| - 1])
  {
    if Stack(s, e.t) != [] {
      TopFrame(s, e.t);
    }
  }

  // Below the top, and in other threads, the frames are the old ones.
  lemma FramesChange(s: State, e: Event, t: Tid, i: nat)
    requires t in Next(s, e).stacks && i < |Next(s, e).stacks[t]|
    ensures var st := Next(s, e).stacks[t];
            || (!e.Tick? && t == e.t && i == |st| - 1 && |st| >= |Stack(s, t)|)
            || (t in s.stacks && i < |s.stacks[t]| && st[i] == s.stacks[t][i] &&
                (e.Tick? || e.Ask? || t != e.t || i < |s.stacks[t]| - 1))
  {
  }

  lemma FrameKept(s: State, e: Event, t: Tid, i: nat)
    requires Inv(s) && t in Next(s, e).stacks && i < |Next(s, e).stacks[t]|
    ensures FrameOk(Next(s, e), t, i, Next(s, e).stacks[t][i])
  {
    FramesChange(s, e, t, i);
    if !e.Tick? && t == e.t && i == |Next(s, e).stacks[t]| - 1 && |Next(s, e).stacks[t]| >= |Stack(s, t)| {
      OwnFrameKept(s, e);
    } else {
      OtherFrameKept(s, e, t, i);
    }
  }

  lemma ClosedCallKept(s: State, e: Event, c: CallId)
    requires Inv(s) && 0 <= c < |s.calls| && s.calls[c].done
    ensures CallOk(Next(s, e), c) && Next(s, e).calls[c] == s.calls[c]
  {
    assert CallOk(s, c);
    CallStep(s, e, c);
    PublishedStep(s, e, s.calls[c].cache);
    if !e.Tick? && Runs(s, e.t, c) {
      OwnerRuns(s, e.t, c);
    }
  }

  lemma OpenCallOfAnother(s: State, e: Event, c: CallId)
    requires Inv(s) && 0 <= c < |s.calls| && !s.calls[c].done
    requires e.Tick? || e.t != s.calls[c].owner
    ensures CallOk(Next(s, e), c)
  {
    assert CallOk(s, c);
    CallStep(s, e, c);
    StackStep(s, e, s.calls[c].owner);
    if !e.Tick? && Runs(s, e.t, c) {
      OwnerRuns(s, e.t, c);
    }
  }

  lemma MovedStackKeepsFrame(st: seq<Frame>, st': seq<Frame>, i: nat)
    requires StackMoves(st, st') && i < |st| - 1
    ensures i < |st'| && st'[i] == st[i]
  {
    assert st[..|st| - 1][i] == st[i];
    if |st'| == |st| && st'[..|st| - 1] == st[..|st| - 1] {
      assert st'[i] == st'[..|st| - 1][i];
    } else if |st'| == |st| + 1 {
      assert st' != st && st' != st[..|st| - 1] && st'[i] == st'[..|st|][i];
    }
  }

  // A call further down the stack is left alone ...
  lemma OpenCallBelow(s: State, e: Event, c: CallId)
    requires Inv(s) && 0 <= c < |s.calls| && !s.calls[c].done
    requires !e.Tick? && e.t == s.calls[c].owner && !Runs(s, e.t, c)
    ensures CallOk(Next(s, e), c)
  {
    assert CallOk(s, c);
    CallStep(s, e, c);
    StackChange(s, e, e.t);
    MovedStackKeepsFrame(Stack(s, e.t), Stack(Next(s, e), e.t), s.calls[c].depth);
  }

  // ... and the one on top goes on to its close.
  lemma OpenCallOnTop(s: State, e: Event, c: CallId)
    requires Inv(s) && 0 <= c < |s.calls| && !s.calls[c].done && !e.Tick? && Runs(s, e.t, c)
    ensures CallOk(Next(s, e), c)
  {
    OwnerRuns(s, e.t, c);
    TopFrame(s, e.t);
  }

  lemma OpenCallOfItsOwn(s: State, e: Event, c: CallId)
    requires Inv(s) && 0 <= c < |s.calls| && !s.calls[c].done
    requires !e.Tick? && e.t == s.calls[c].owner
    ensures CallOk(Next(s, e), c)
  {
    if Runs(s, e.t, c) {
      OpenCallOnTop(s, e, c);
    } else {
      OpenCallBelow(s, e, c);
    }
  }

  lemma OpenCallKept(s: State, e: Event, c: CallId)
    requires Inv(s) && 0 <= c < |s.calls| && !s.calls[c].done
    ensures CallOk(Next(s, e), c)
  {
    if e.Tick? || e.t != s.calls[c].owner {
      OpenCallOfAnother(s, e, c);
    } else {
      OpenCallOfItsOwn(s, e, c);
    }
  }

  lemma CallKept(s: State, e: Event, c: CallId)
    requires Inv(s) && 0 <= c < |Next(s, e).calls|
    ensures CallOk(Next(s, e), c)
  {
    if c < |s.calls| && s.calls[c].done {
      ClosedCallKept(s, e, c);
    } else if c < |s.calls| {
      OpenCallKept(s, e, c);
    }
  }

  lemma CachesChange(s: State, e: Event, id: CacheId)
    ensures CacheOf(Next(s, e), id) == CacheOf(s, id) ||
            (!e.Tick? && Stack(s, e.t) != [] && Stack(s, e.t)[|Stack(s, e.t)| - 1].cache == id &&
             (e.Enter? || e.Publish?))
    ensures |Next(s, e).calls| >= |s.calls| && Next(s, e).clock >= s.clock
    ensures forall c :: 0 <= c < |s.calls| ==> Next(s, e).calls[c].cache == s.calls[c].cache
  {
  }

  lemma UntouchedCacheKept(s: State, e: Event, id: CacheId)
    requires CacheOk(s, id) && CacheOf(Next(s, e), id) == CacheOf(s, id)
    ensures CacheOk(Next(s, e), id)
  {
    CachesChange(s, e, id);
  }

  lemma CacheAfterEnter(s: State, t: Tid, id: CacheId)
    requires Inv(s) && Stack(s, t) != [] && CacheOf(Next(s, Enter(t)), id) != CacheOf(s, id)
    ensures CacheOk(Next(s, Enter(t)), id)
  {
    assert CacheOk(s, id);
  }

  lemma CacheAfterPublish(s: State, t: Tid, id: CacheId)
    requires Inv(s) && Stack(s, t) != [] && CacheOf(Next(s, Publish(t)), id) != CacheOf(s, id)
    ensures CacheOk(Next(s, Publish(t)), id)
  {
    assert CacheOk(s, id);
    TopFrame(s, t);
  }

  lemma CacheKept(s: State, e: Event, id: CacheId)
    requires Inv(s)
    ensures CacheOk(Next(s, e), id)
  {
    assert CacheOk(s, id);
    if CacheOf(Next(s, e), id) == CacheOf(s, id) {
      UntouchedCacheKept(s, e, id);
    } else {
      CachesChange(s, e, id);
      if e.Enter? {
        CacheAfterEnter(s, e.t, id);
      } else {
        CacheAfterPublish(s, e.t, id);
      }
    }
  }

  // A return that has been made stays right.
  lemma OldReturnKept(s: State, e: Event, r: Return)
    requires Inv(s) && ReturnOk(s, r)
    ensures ReturnOk(Next(s, e), r)
  {
    if r.source.FromCache? {
      PublishedStep(s, e, r.cache);
    } else {
      ClosedCallKept(s, e, r.source.c);
    }
  }

  // A step returns at most once, for the frame that acts.
  lemma HistoryStep(s: State, e: Event)
    ensures |s.history| <= |Next(s, e).history| <= |s.history| + 1
    ensures s.history <= Next(s, e).history
    ensures |Next(s, e).history| > |s.history| ==> !e.Tick? && !e.Ask? && Stack(s, e.t) != []
  {
  }

  lemma NewReturnOk(s: State, e: Event)
    requires Inv(s) && |Next(s, e).history| == |s.history| + 1 && !e.Tick? && Stack(s, e.t) != []
    ensures ReturnOk(Next(s, e), Next(s, e).history[|s.history|])
  {
    TopFrame(s, e.t);
  }

  lemma ReturnKept(s: State, e: Event, i: nat)
    requires Inv(s) && i < |Next(s, e).history|
    ensures ReturnOk(Next(s, e), Next(s, e).history[i])
  {
    HistoryStep(s, e);
    if i < |s.history| {
      assert ReturnOk(s, s.history[i]);
      OldReturnKept(s, e, s.history[i]);
    } else {
      NewReturnOk(s, e);
    }
  }

  lemma NextKeepsInv(s: State, e: Event)
    requires Inv(s)
    ensures Inv(Next(s, e))
  {
    var s' := Next(s, e);
    StacksKept(s, e);
    forall t, i | t in s'.stacks && 0 <= i < |s'.stacks[t]|
      ensures FrameOk(s', t, i, s'.stacks[t][i])
    {
      FrameKept(s, e, t, i);
    }
    forall c | 0 <= c < |s'.calls|
      ensures CallOk(s', c)
    {
      CallKept(s, e, c);
    }
    forall id
      ensures CacheOk(s', id)
    {
      CacheKept(s, e, id);
    }
    forall i | 0 <= i < |s'.history|
      ensures ReturnOk(s', s'.history[i])
    {
      ReturnKept(s, e, i);
    }
  }

  lemma {:induction false} RunKeepsInv(events: seq<Event>)
    ensures Inv(Run(events))
  {
    if events != [] {
      RunKeepsInv(events[..|events| - 1]);
      NextKeepsInv(Run(events[..|events| - 1]), events[|events| - 1]);
    }
  }

  // ----- What every interleaving guarantees -----

  // Thread t is between claiming and clearing loading, in frame i.
  predicate Fetching(s: State, t: Tid, i: nat, id: CacheId) {
    i < |Stack(s, t)| && Stack(s, t)[i].cache == id && (Stack(s, t)[i].phase.Loading? || Stack(s, t)[i].phase.Loaded?)
  }

  // From claiming until its publication a thread fetches.
  lemma ClaimingIsFetching(s: State, t: Tid, c: CallId, r: Result)
    requires var st := Stack(s, t); st != [] && 0 <= c < |s.calls|
    ensures var i := |Stack(s, t)| - 1;
            var top := Stack(s, t)[i];
            && (top.phase.Wanting? && CacheOf(s, top.cache) == EMPTY ==>
                  Fetching(Next(s, Enter(t)), t, i, top.cache) && CacheOf(Next(s, Enter(t)), top.cache).loading.Some?)
            && (top.phase == Loading(c) ==> Fetching(Next(s, Answer(t, r)), t, i, top.cache))
            && (top.phase == Loaded(c) ==> !Fetching(Next(s, Publish(t)), t, i, top.cache))
  {
  }

  // The loader of a catalog cache may ask for the project client, and waits for it; the loader of
  // the project client asks for nothing.
  lemma CatalogLoadersAskForTheProject(s: State, t: Tid, id: CacheId)
    requires Stack(s, t) != [] && Stack(s, t)[|Stack(s, t)| - 1].phase.Loading?
    ensures Stack(Next(s, Ask(t, id)), t) ==
            if id == Project && Stack(s, t)[|Stack(s, t)| - 1].cache.Catalog? then
              Stack(s, t) + [Frame(Project, Wanting)]
            else Stack(s, t)
  {
  }

  // Single flight: at most one thread fetches for a cache at any time.
  lemma OneFetchPerCache(events: seq<Event>, t: Tid, i: nat, u: Tid, j: nat, id: CacheId)
    requires var s := Run(events); Fetching(s, t, i, id) && Fetching(s, u, j, id)
    ensures t == u && i == j
  {
    RunKeepsInv(events);
    var s := Run(events);
    assert FrameOk(s, t, i, s.stacks[t][i]) && FrameOk(s, u, j, s.stacks[u][j]);
  }

  // No waiter is stranded: its call is closed, or a live thread still has to close it.
  lemma WaiterHasAnOwner(events: seq<Event>, t: Tid)
    requires var st := Stack(Run(events), t); st != [] && st[|st| - 1].phase.Waiting?
    ensures var s := Run(events);
            var c := Stack(s, t)[|Stack(s, t)| - 1].phase.c;
            && 0 <= c < |s.calls|
            && (s.calls[c].done ||
                exists u, i :: u in s.stacks && 0 <= i < |s.stacks[u]| && s.stacks[u][i].phase.Owns(c))
  {
    RunKeepsInv(events);
    var s := Run(events);
    TopFrame(s, t);
    var c := Stack(s, t)[|Stack(s, t)| - 1].phase.c;
    if !s.calls[c].done {
      OpenCallHasAnOwner(s, c);
    }
  }

  lemma OpenCallHasAnOwner(s: State, c: CallId)
    requires 0 <= c < |s.calls| && CallOk(s, c) && !s.calls[c].done
    ensures exists u, i :: u in s.stacks && 0 <= i < |s.stacks[u]| && s.stacks[u][i].phase.Owns(c)
  {
    var u, i := s.calls[c].owner, s.calls[c].depth;
    assert u in s.stacks && s.stacks[u][i].phase.Owns(c);
  }

  // Everyone who waited for a call is given what its owner was given.
  lemma WaitersGetTheOwnersResult(events: seq<Event>, i: nat, j: nat)
    requires var h := Run(events).history;
             i < |h| && j < |h| && h[i].source.Owner? && h[j].source.Waiter? && h[i].source.c == h[j].source.c
    ensures Run(events).history[i].result == Run(events).history[j].result
    ensures Run(events).history[i].cache == Run(events).history[j].cache
  {
    RunKeepsInv(events);
    var s := Run(events);
    assert ReturnOk(s, s.history[i]) && ReturnOk(s, s.history[j]);
  }

  // A result served from a cache is one the cache was given, by a load that was published
  // before it was served, and less than one TTL before; only the project client may be older. Failures are never
  // served from a cache.
  lemma CachedResultsAreFresh(events: seq<Event>, i: nat)
    requires i < |Run(events).history| && Run(events).history[i].source.FromCache?
    ensures var s := Run(events);
            var r := s.history[i];
            && r.result.Ok?
            && exists p :: p in CacheOf(s, r.cache).published && p.value == r.result.value && p.at <= r.source.at &&
                           (r.cache.Catalog? ==> r.source.at < p.at + 5 * MINUTE)
  {
    RunKeepsInv(events);
    var s := Run(events);
    assert ReturnOk(s, s.history[i]);
    var r := s.history[i];
    assert CacheOf(s, r.cache).published[r.source.pub] in CacheOf(s, r.cache).published;
  }

  // The project is looked up successfully at most once in the life of the process, and every
  // caller that gets a client gets that one.
  lemma OneProjectClient(events: seq<Event>)
    ensures |CacheOf(Run(events), Project).published| <= 1
    ensures forall i, j :: 0 <= i < |Run(events).history| && 0 <= j < |Run(events).history| ==>
              var a, b := Run(events).history[i], Run(events).history[j];
              a.cache == b.cache == Project && a.result.Ok? && b.result.Ok? ==> a.result == b.result
  {
    RunKeepsInv(events);
    var s := Run(events);
    assert CacheOk(s, Project);
    forall i | 0 <= i < |s.history| && s.history[i].cache == Project && s.history[i].result.Ok?
      ensures CacheOf(s, Project).published != []
      ensures s.history[i].result.value == CacheOf(s, Project).published[0].value
    {
      assert ReturnOk(s, s.history[i]);
      if !s.history[i].source.FromCache? {
        assert CallOk(s, s.history[i].source.c);
      }
    }
  }

  // A load that fails leaves the cache as it was, but for the claim.
  lemma FailureIsNotCached(s: State, t: Tid)
    requires Inv(s) && Stack(s, t) != [] && Stack(s, t)[|Stack(s, t)| - 1].phase.Loaded?
    ensures var top := Stack(s, t)[|Stack(s, t)| - 1];
            s.calls[top.phase.c].result == Some(Err) ==>
              CacheOf(Next(s, Publish(t)), top.cache) == CacheOf(s, top.cache).(loading := None)
  {
    TopFrame(s, t);
  }

  // ----- Nested single flights do not deadlock -----

  // t is inside get and nothing keeps it from taking its next step.
  predicate CanMove(s: State, t: Tid) {
    var st := Stack(s, t);
    st != [] && (st[|st| - 1].phase.Waiting? ==>
                   0 <= st[|st| - 1].phase.c < |s.calls| && s.calls[st[|st| - 1].phase.c].done)
  }

  // The step it can take: loaders answer.
  function StepOf(s: State, t: Tid): Event
    requires Stack(s, t) != []
  {
    match Stack(s, t)[|Stack(s, t)| - 1].phase
    case Wanting => Enter(t)
    case Waiting(_) => Wake(t)
    case Loading(_) => Answer(t, Err)
    case Loaded(_) => Publish(t)
    case Published(_) => Close(t)
  }

  lemma GotoChanges(s: State, t: Tid, phase: Phase)
    requires Stack(s, t) != [] && Stack(s, t)[|Stack(s, t)| - 1].phase != phase
    ensures Stack(Goto(s, t, phase), t) != Stack(s, t)
  {
    var st := Stack(s, t);
    assert Stack(Goto(s, t, phase), t)[|st| - 1].phase == phase;
  }

  lemma ReturnsChanges(s: State, t: Tid, r: Result, source: Source)
    requires Stack(s, t) != []
    ensures Stack(Returns(s, t, r, source), t) != Stack(s, t)
  {
    assert |Stack(Returns(s, t, r, source), t)| == |Stack(s, t)| - 1;
  }

  lemma EnterChanges(s: State, t: Tid, id: CacheId)
    requires Stack(s, t) != [] && Stack(s, t)[|Stack(s, t)| - 1].phase.Wanting?
    ensures Stack(EnterStep(s, t, id), t) != Stack(s, t)
  {
    var cache, c := CacheOf(s, id), |s.calls|;
    if Fresh(cache, id, s.clock) {
      ReturnsChanges(
        s, t, Ok(cache.value), FromCache(if cache.published == [] then 0 else |cache.published| - 1, s.clock));
    } else if cache.loading.Some? {
      GotoChanges(s, t, Waiting(cache.loading.value));
    } else {
      GotoChanges(s.(calls := s.calls + [Call(id, t, |Stack(s, t)| - 1, None, None, false)],
                     caches := s.caches[id := cache.(loading := Some(c))]), t, Loading(c));
    }
  }

  lemma MovingChangesTheThread(s: State, t: Tid)
    requires Inv(s) && CanMove(s, t)
    ensures Stack(Next(s, StepOf(s, t)), t) != Stack(s, t)
  {
    TopFrame(s, t);
    var st := Stack(s, t);
    var top := st[|st| - 1];
    match top.phase
    case Wanting => EnterChanges(s, t, top.cache);
    case Waiting(c) =>
      assert CallOk(s, c);
      ReturnsChanges(s, t, s.calls[c].result.value, Waiter(c));
    case Loading(c) =>
      GotoChanges(s.(calls := s.calls[c := s.calls[c].(result := Some(Err))]), t, Loaded(c));
    case Loaded(c) => PublishChanges(s, t, top.cache, c);
    case Published(c) =>
      ReturnsChanges(s.(calls := s.calls[c := s.calls[c].(done := true)]), t, s.calls[c].result.value, Owner(c));
  }

  lemma PublishChanges(s: State, t: Tid, id: CacheId, c: CallId)
    requires Stack(s, t) != [] && Stack(s, t)[|Stack(s, t)| - 1].phase.Loaded? && 0 <= c < |s.calls|
    ensures Stack(PublishStep(s, t, id, c), t) != Stack(s, t)
  {
    var st := Stack(s, t);
    assert Stack(PublishStep(s, t, id, c), t)[|st| - 1].phase == Published(c);
  }

  // Whoever a thread waits for, following the chain of waits descends from the catalog
  // caches to the project cache and ends at a thread that can move.
  lemma {:induction false} SomebodyCanMove(s: State, t: Tid) returns (u: Tid)
    requires Inv(s) && Stack(s, t) != []
    ensures CanMove(s, u)
    decreases Rank(Stack(s, t)[|Stack(s, t)| - 1].cache)
  {
    u := t;
    if !CanMove(s, t) {
      var top := Stack(s, t)[|Stack(s, t)| - 1];
      TopFrame(s, t);
      var call := s.calls[top.phase.c];
      assert CallOk(s, top.phase.c);
      u := call.owner;
      var st := Stack(s, u);
      assert FrameOk(s, u, call.depth, s.stacks[u][call.depth]);
      if call.depth < |st| - 1 {
        assert StackOk(s.stacks[u]);
        u := SomebodyCanMove(s, u);
      }
    }
  }

  // In every reachable state with a thread inside get, some thread inside get can move.
  lemma NestedFlightsNeverDeadlock(events: seq<Event>, t: Tid)
    requires Stack(Run(events), t) != []
    ensures exists u :: CanMove(Run(events), u) &&
                        Stack(Next(Run(events), StepOf(Run(events), u)), u) != Stack(Run(events), u)
  {
    RunKeepsInv(events);
    var u := SomebodyCanMove(Run(events), t);
    MovingChangesTheThread(Run(events), u);
  }

  // ----- A get that is not interleaved -----

  function Enters(s: State, t: Tid, id: CacheId): State {
    Next(Next(s, Ask(t, id)), Enter(t))
  }

  function Fetches(s: State, t: Tid, r: Result): State {
    Next(Next(Next(s, Answer(t, r)), Publish(t)), Close(t))
  }

  // t is in one get, of cache id.
  predicate In(s: State, t: Tid, id: CacheId, phase: Phase) {
    Stack(s, t) == [Frame(id, phase)]
  }

  lemma EntersAlone(s: State, t: Tid, id: CacheId)
    requires Stack(s, t) == [] && CacheOf(s, id).loading.None?
    ensures var cache, s' := CacheOf(s, id), Enters(s, t, id);
            && s'.clock == s.clock
            && if Fresh(cache, id, s.clock) then
                 && Stack(s', t) == [] && CacheOf(s', id) == cache && |s'.history| == |s.history| + 1
                 && s'.history[|s.history|].cache == id && s'.history[|s.history|].result == Ok(cache.value)
               else
                 && In(s', t, id, Loading(|s.calls|)) && |s'.calls| == |s.calls| + 1
                 && CacheOf(s', id) == cache.(loading := Some(|s.calls|)) && s'.history == s.history
  {
    assert In(Next(s, Ask(t, id)), t, id, Wanting);
  }

  lemma AnswersAlone(s: State, t: Tid, id: CacheId, c: CallId, r: Result)
    requires In(s, t, id, Loading(c)) && 0 <= c < |s.calls|
    ensures var s' := Next(s, Answer(t, r));
            && In(s', t, id, Loaded(c)) && c < |s'.calls| && s'.calls[c].result == Some(r)
            && s'.caches == s.caches && s'.history == s.history && s'.clock == s.clock
  {
  }

  lemma PublishesAlone(s: State, t: Tid, id: CacheId, c: CallId, r: Result)
    requires In(s, t, id, Loaded(c)) && 0 <= c < |s.calls| && s.calls[c].result == Some(r)
    ensures var s', cache := Next(s, Publish(t)), CacheOf(s, id);
            && In(s', t, id, Published(c)) && c < |s'.calls| && s'.calls[c].result == Some(r) && s'.history == s.history
            && CacheOf(s', id) ==
               if r.Err? then cache.(loading := None)
               else Cache(r.value, true, s.clock + CATALOG_TTL, None, cache.published + [Publication(r.value, s.clock)])
  {
  }

  lemma ClosesAlone(s: State, t: Tid, id: CacheId, c: CallId, r: Result)
    requires In(s, t, id, Published(c)) && 0 <= c < |s.calls| && s.calls[c].result == Some(r)
    ensures var s' := Next(s, Close(t));
            && Stack(s', t) == [] && s'.caches == s.caches && s'.history == s.history + [Return(id, r, Owner(c))]
  {
  }

  // Run alone, the steps do what MetaCache.Get does: a fresh value is served, and otherwise the
  // loader's answer is returned, kept if it is a success, and forgotten if it is not.
  lemma GetAlone(s: State, t: Tid, id: CacheId, r: Result)
    requires Stack(s, t) == [] && CacheOf(s, id).loading.None?
    ensures var cache, entered := CacheOf(s, id), Enters(s, t, id);
            if cache.loaded && (id.Project? || s.clock < cache.expires) then
              && Stack(entered, t) == [] && CacheOf(entered, id) == cache && |entered.history| == |s.history| + 1
              && entered.history[|s.history|].cache == id && entered.history[|s.history|].result == Ok(cache.value)
            else
              var done := Fetches(entered, t, r);
              && Stack(done, t) == [] && done.history == s.history + [Return(id, r, Owner(|s.calls|))]
              && CacheOf(done, id) ==
                 if r.Err? then cache
                 else
                   Cache(r.value, true, s.clock + 5 * MINUTE, None,
                         cache.published + [Publication(r.value, s.clock)])
  {
    EntersAlone(s, t, id);
    if !Fresh(CacheOf(s, id), id, s.clock) {
      var c, s2 := |s.calls|, Enters(s, t, id);
      AnswersAlone(s2, t, id, c, r);
      var s3 := Next(s2, Answer(t, r));
      PublishesAlone(s3, t, id, c, r);
      ClosesAlone(Next(s3, Publish(t)), t, id, c, r);
    }
  }
}
