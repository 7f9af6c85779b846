/**
 * pkg/cloud/ratelimit.go: the adaptive (AIMD) limiter every request to the service passes.
 * Rates are reals; the zero time is None.
 */
module RateLimiter {
  import opened Wrappers
  import opened Clock
  import opened SdkErrors

  const MAX_QPS := 20.0
  const MIN_QPS := 1.0
  const DECREASE_FACTOR := 0.5
  const SERVER_ERROR_FACTOR := 0.9
  const INCREASE_QPS := 1.0
  const DECREASE_COOLDOWN: Duration := 1 * SECOND
  const RECOVER_EVERY: Duration := 5 * SECOND
  const SERVER_ERROR_QUIET: Duration := 10 * SECOND
  const SERVER_ERROR_HOLD_MAX: Duration := 90 * SECOND

  // What a completed request tells the limiter.
  datatype Outcome = Throttled | ServerError | Other

  datatype Event = Event(outcome: Outcome, now: Time)

  datatype Limiter = Limiter(
    qps: real, lastAdj: Option<Time>, lastSrvErr: Option<Time>, srvSpellStart: Option<Time>)

  const INIT := Limiter(MAX_QPS, None, None, None)

  // now - t < d, where the zero time is longer ago than any d.
  predicate Within(t: Option<Time>, now: Time, d: Duration) {
    t.Some? && now - t.value < d
  }

  function Max(a: real, b: real): real { if a < b then b else a }

  function Min(a: real, b: real): real { if a < b then a else b }

  function Abs(x: real): real { if x < 0.0 then -x else x }

  // One multiplicative decrease, at most once per cooldown.
  function Decrease(s: Limiter, factor: real, now: Time): Limiter {
    if Within(s.lastAdj, now, DECREASE_COOLDOWN) then s
    else s.(qps := Max(MIN_QPS, s.qps * factor), lastAdj := Some(now))
  }

  function OnOutcome(s: Limiter, e: Event): Limiter {
    match e.outcome
    case Throttled => Decrease(s, DECREASE_FACTOR, e.now)
    case ServerError =>
      var spell := if Within(s.lastSrvErr, e.now, SERVER_ERROR_QUIET) then s.srvSpellStart else Some(e.now);
      Decrease(s.(lastSrvErr := Some(e.now), srvSpellStart := spell), SERVER_ERROR_FACTOR, e.now)
    case Other =>
      if s.qps >= MAX_QPS || Within(s.lastAdj, e.now, RECOVER_EVERY) then s
      else if Within(s.lastSrvErr, e.now, SERVER_ERROR_QUIET) &&
              Within(s.srvSpellStart, e.now, SERVER_ERROR_HOLD_MAX) then s
      else s.(qps := Min(MAX_QPS, s.qps + INCREASE_QPS), lastAdj := Some(e.now))
  }

  function Run(s: Limiter, events: seq<Event>): Limiter {
    if events == [] then s
    else OnOutcome(Run(s, events[..|events| - 1]), events[|events| - 1])
  }

  // How DoRequest reads an answer: a 429 first, then the two 5xx codes, then anything else,
  // failures included.
  function Classify(err: Option<SdkError>): Outcome {
    if err.Some? && err.value.status == Some(429) then Throttled
    else if err.Some? && err.value.code in {EcInternalServerError, EcServiceMaintenance} then ServerError
    else Other
  }

  class AdaptiveRateLimiter {
    // The bucket of golang.org/x/time/rate: the rate and burst it is set to.
    var limit: real
    var burst: int
    var qps: real
    var lastAdj: Option<Time>
    var lastSrvErr: Option<Time>
    var srvSpellStart: Option<Time>

    ghost function View(): Limiter
      reads this
    {
      Limiter(qps, lastAdj, lastSrvErr, srvSpellStart)
    }

    // The bucket follows the rate, and the rate stays between floor and ceiling.
    ghost predicate Valid()
      reads this
    {
      && MIN_QPS <= qps <= MAX_QPS
      && limit == qps
      && burst == (if qps.Floor < 1 then 1 else qps.Floor)
      && (lastAdj.None? ==> qps == MAX_QPS)
    }

    constructor ()
      ensures Valid() && View() == INIT && qps == limit == 20.0 && burst == 20
    {
      limit, burst, qps := MAX_QPS, MAX_QPS.Floor, MAX_QPS;
      lastAdj, lastSrvErr, srvSpellStart := None, None, None;
    }

    method SetRateLocked(pqps: real)
      modifies this`limit, this`burst, this`qps
      ensures qps == limit == pqps && burst == if pqps.Floor < 1 then 1 else pqps.Floor
    {
      var b := pqps.Floor;
      if b < 1 {
        b := 1;
      }
      qps, limit, burst := pqps, pqps, b;
    }

    method OnThrottled(now: Time)
      requires Valid()
      modifies this
      ensures Valid() && View() == OnOutcome(old(View()), Event(Throttled, now))
    {
      if lastAdj.Some? && now - lastAdj.value < DECREASE_COOLDOWN {
        return;
      }
      var next := qps * DECREASE_FACTOR;
      if next < MIN_QPS {
        next := MIN_QPS;
      }
      lastAdj := Some(now);
      if next == qps {
        return;
      }
      SetRateLocked(next);
    }

    method OnServerError(now: Time)
      requires Valid()
      modifies this
      ensures Valid() && View() == OnOutcome(old(View()), Event(ServerError, now))
    {
      if lastSrvErr.None? || now - lastSrvErr.value >= SERVER_ERROR_QUIET {
        srvSpellStart := Some(now);
      }
      lastSrvErr := Some(now);
      if lastAdj.Some? && now - lastAdj.value < DECREASE_COOLDOWN {
        return;
      }
      var next := qps * SERVER_ERROR_FACTOR;
      if next < MIN_QPS {
        next := MIN_QPS;
      }
      lastAdj := Some(now);
      if next == qps {
        return;
      }
      SetRateLocked(next);
    }

    method OnSuccess(now: Time)
      requires Valid()
      modifies this
      ensures Valid() && View() == OnOutcome(old(View()), Event(Other, now))
    {
      if qps >= MAX_QPS {
        return;
      }
      if lastAdj.Some? && now - lastAdj.value < RECOVER_EVERY {
        return;
      }
      if lastSrvErr.Some? && now - lastSrvErr.value < SERVER_ERROR_QUIET &&
         srvSpellStart.Some? && now - srvSpellStart.value < SERVER_ERROR_HOLD_MAX {
        return;
      }
      var next := qps + INCREASE_QPS;
      if next > MAX_QPS {
        next := MAX_QPS;
      }
      lastAdj := Some(now);
      SetRateLocked(next);
    }

    // One request: admitted says whether a token came in time; a shed request never leaves
    // the process and leaves the limiter alone.
    method DoRequest(admitted: bool, err: Option<SdkError>, now: Time)
      requires Valid()
      modifies this
      ensures Valid() && 1.0 <= qps <= 20.0 && limit == qps && burst == if qps < 1.0 then 1 else qps.Floor
      ensures View() == if admitted then OnOutcome(old(View()), Event(Classify(err), now)) else old(View())
      ensures !admitted ==> qps == old(qps) && lastAdj == old(lastAdj) && lastSrvErr == old(lastSrvErr)
      // A 429 halves the rate, down to 1, and is no server error.
      ensures admitted && err.Some? && err.value.status == Some(429) ==>
                && lastSrvErr == old(lastSrvErr) && srvSpellStart == old(srvSpellStart)
                && if old(lastAdj).Some? && now - old(lastAdj).value < 1 * SECOND then
                     qps == old(qps) && lastAdj == old(lastAdj)
                   else qps == (if old(qps) < 2.0 then 1.0 else old(qps) / 2.0) && lastAdj == Some(now)
      // One of the two 5xx codes takes a tenth of it, down to 1; a spell ends ten seconds after
      // its last error.
      ensures admitted && err.Some? && err.value.status != Some(429) &&
              (err.value.code == EcInternalServerError || err.value.code == EcServiceMaintenance) ==>
                && lastSrvErr == Some(now)
                && srvSpellStart == (if old(lastSrvErr).Some? && now - old(lastSrvErr).value < 10 * SECOND then
                                       old(srvSpellStart) else Some(now))
                && if old(lastAdj).Some? && now - old(lastAdj).value < 1 * SECOND then
                     qps == old(qps) && lastAdj == old(lastAdj)
                   else qps == (if old(qps) * 0.9 < 1.0 then 1.0 else old(qps) * 0.9) && lastAdj == Some(now)
      // Anything else adds 1, up to 20, five seconds after the last change, unless it is within
      // ten seconds of a server error of a spell younger than ninety.
      ensures admitted && (err.None? || (err.value.status != Some(429) &&
              err.value.code != EcInternalServerError && err.value.code != EcServiceMaintenance)) ==>
                && lastSrvErr == old(lastSrvErr) && srvSpellStart == old(srvSpellStart)
                && if || old(qps) == 20.0 || (old(lastAdj).Some? && now - old(lastAdj).value < 5 * SECOND)
                      || (old(lastSrvErr).Some? && now - old(lastSrvErr).value < 10 * SECOND &&
                          old(srvSpellStart).Some? && now - old(srvSpellStart).value < 90 * SECOND) then
                     qps == old(qps) && lastAdj == old(lastAdj)
                   else qps == (if old(qps) > 19.0 then 20.0 else old(qps) + 1.0) && lastAdj == Some(now)
    {
      if !admitted {
        return;
      }
      if err.Some? && err.value.status == Some(429) {
        OnThrottled(now);
      } else if err.Some? && err.value.code in {EcInternalServerError, EcServiceMaintenance} {
        OnServerError(now);
      } else {
        OnSuccess(now);
      }
    }
  }

  // ----- Invariants over all runs, timestamps in any order -----

  predicate InBounds(s: Limiter) {
    MIN_QPS <= s.qps <= MAX_QPS && (s.lastAdj.None? ==> s.qps == MAX_QPS)
  }

  // Every change of the rate moves lastAdj forward: by a second or more when it falls, by
  // five or more when it rises; lastAdj never moves back.
  predicate AdjustsForward(s: Limiter, s': Limiter) {
    && (s.lastAdj.Some? ==> s'.lastAdj.Some? && s'.lastAdj.value >= s.lastAdj.value)
    && (s'.qps < s.qps ==> s'.lastAdj.Some? && !Within(s.lastAdj, s'.lastAdj.value, DECREASE_COOLDOWN))
    && (s'.qps > s.qps ==> s'.lastAdj.Some? && !Within(s.lastAdj, s'.lastAdj.value, RECOVER_EVERY))
    && (s'.lastAdj == s.lastAdj ==> s'.qps == s.qps)
  }

  lemma {:induction false} RunStaysInBounds(events: seq<Event>)
    ensures InBounds(Run(INIT, events))
    ensures forall i :: 0 <= i < |events| ==>
              AdjustsForward(Run(INIT, events[..i]), Run(INIT, events[..i + 1]))
  {
    if events != [] {
      var before := events[..|events| - 1];
      RunStaysInBounds(before);
      forall i | 0 <= i < |events|
        ensures AdjustsForward(Run(INIT, events[..i]), Run(INIT, events[..i + 1]))
      {
        if i < |before| {
          assert events[..i] == before[..i] && events[..i + 1] == before[..i + 1];
        } else {
          assert events[..i] == before && events[..i + 1] == events;
        }
      }
    }
  }

  // ----- Closed forms -----

  // x after n decreases of one kind, unclamped: x times the kind's factor to the n.
  function Decayed(x: real, kind: Outcome, n: nat): real {
    if n == 0 then x
    else if kind == Throttled then DECREASE_FACTOR * Decayed(x, kind, n - 1)
    else SERVER_ERROR_FACTOR * Decayed(x, kind, n - 1)
  }

  function Pow(x: real, n: nat): real {
    if n == 0 then 1.0 else x * Pow(x, n - 1)
  }

  lemma {:induction false} DecayedIsAPower(x: real, kind: Outcome, n: nat)
    ensures kind == Throttled ==> Decayed(x, kind, n) == Pow(0.5, n) * x
    ensures kind != Throttled ==> Decayed(x, kind, n) == Pow(0.9, n) * x
  {
    if n > 0 {
      DecayedIsAPower(x, kind, n - 1);
      var p, q := Pow(0.5, n - 1), Pow(0.9, n - 1);
      assert (0.5 * p) * x == 0.5 * (p * x);
      assert (0.9 * q) * x == 0.9 * (q * x);
    }
  }

  // Decay moves towards zero and never reaches or crosses it.
  lemma {:induction false} DecayKeepsSign(x: real, kind: Outcome, n: nat)
    ensures x > 0.0 ==> 0.0 < Decayed(x, kind, n) <= x
    ensures x > 0.0 && n > 0 ==> Decayed(x, kind, n) < x
    ensures Abs(Decayed(x, kind, n)) == Decayed(Abs(x), kind, n)
  {
    if n > 0 {
      DecayKeepsSign(x, kind, n - 1);
    }
  }

  // Events of one kind, each at least gap after the one before, the first after lastAdj.
  predicate Paced(s: Limiter, events: seq<Event>, kind: Outcome, gap: Duration) {
    && (forall i :: 0 <= i < |events| ==> events[i].outcome == kind)
    && (|events| > 0 ==> !Within(s.lastAdj, events[0].now, gap))
    && (forall i :: 0 < i < |events| ==> events[i].now - events[i - 1].now >= gap)
  }

  // n errors of one kind a second apart: the rate is q·factor^n, down to the floor.
  lemma {:induction false} ErrorsClosedForm(s: Limiter, events: seq<Event>, kind: Outcome)
    requires kind != Other && s.qps >= MIN_QPS && Paced(s, events, kind, DECREASE_COOLDOWN)
    ensures var s' := Run(s, events);
            && s'.qps == Max(MIN_QPS, Decayed(s.qps, kind, |events|))
            && (|events| > 0 ==> s'.lastAdj == Some(events[|events| - 1].now))
            && (events == [] ==> s' == s)
  {
    if events != [] {
      ErrorsClosedForm(s, events[..|events| - 1], kind);
    }
  }

  // However many errors arrive within a second of a decrease, none of them costs anything.
  lemma {:induction false} BurstCostsOneStep(s: Limiter, events: seq<Event>)
    requires s.lastAdj.Some?
    requires forall e :: e in events ==> e.outcome != Other && e.now < s.lastAdj.value + DECREASE_COOLDOWN
    ensures Run(s, events).qps == s.qps && Run(s, events).lastAdj == s.lastAdj
  {
    if events != [] {
      BurstCostsOneStep(s, events[..|events| - 1]);
      assert events[|events| - 1] in events;
    }
  }

  // So a whole burst, of errors of either kind and any number of them within a second of the
  // first, costs the one step the first one takes.
  lemma {:induction false} WholeBurstCostsOneStep(s: Limiter, events: seq<Event>)
    requires events != [] && events[0].outcome != Other && !Within(s.lastAdj, events[0].now, DECREASE_COOLDOWN)
    requires forall e :: e in events ==> e.outcome != Other && e.now < events[0].now + DECREASE_COOLDOWN
    ensures var factor := if events[0].outcome == Throttled then DECREASE_FACTOR else SERVER_ERROR_FACTOR;
            Run(s, events).qps == Max(MIN_QPS, s.qps * factor) && Run(s, events).lastAdj == Some(events[0].now)
  {
    var before := events[..|events| - 1];
    if before == [] {
      assert Run(s, before) == s;
    } else {
      WholeBurstCostsOneStep(s, before);
      assert events[|events| - 1] in events;
    }
  }

  // k successes five seconds apart, with no server error in the ten seconds before any of
  // them: the rate is q + k, up to the ceiling.
  lemma {:induction false} RecoveryClosedForm(s: Limiter, events: seq<Event>)
    requires InBounds(s) && Paced(s, events, Other, RECOVER_EVERY)
    requires forall i :: 0 <= i < |events| ==> !Within(s.lastSrvErr, events[i].now, SERVER_ERROR_QUIET)
    ensures var s' := Run(s, events);
            && s'.qps == Min(MAX_QPS, s.qps + |events| as real)
            && s'.lastSrvErr == s.lastSrvErr
            && (s'.lastAdj == s.lastAdj || exists i :: 0 <= i < |events| && s'.lastAdj == Some(events[i].now))
            && (s'.qps < MAX_QPS && |events| > 0 ==> s'.lastAdj == Some(events[|events| - 1].now))
            && (events == [] ==> s' == s)
  {
    if events != [] {
      RecoveryClosedForm(s, events[..|events| - 1]);
    }
  }

  // From the floor the ceiling is 19 successes away, and no fewer.
  lemma {:induction false} NineteenStepsFromFloorToCeiling(s: Limiter, events: seq<Event>)
    requires InBounds(s) && s.qps == MIN_QPS && Paced(s, events, Other, RECOVER_EVERY)
    requires forall i :: 0 <= i < |events| ==> !Within(s.lastSrvErr, events[i].now, SERVER_ERROR_QUIET)
    ensures Run(s, events).qps == MAX_QPS <==> |events| >= 19
  {
    RecoveryClosedForm(s, events);
  }

  // ----- Anti-starvation -----

  // One round of a spell of server errors that never ends: a success, then the next error.
  datatype Round = Round(success: Time, error: Time)

  predicate Scheduled(prevError: Time, r: Round) {
    && r.success - prevError >= RECOVER_EVERY
    && r.error - r.success >= DECREASE_COOLDOWN
    && r.error - prevError < SERVER_ERROR_QUIET
  }

  function ErrorBefore(t: Time, rounds: seq<Round>, i: nat): Time
    requires i <= |rounds|
  {
    if i == 0 then t else rounds[i - 1].error
  }

  predicate AllScheduled(t: Time, rounds: seq<Round>) {
    forall i :: 0 <= i < |rounds| ==> Scheduled(ErrorBefore(t, rounds, i), rounds[i])
  }

  function EventsOf(rounds: seq<Round>): seq<Event> {
    if rounds == [] then []
    else EventsOf(rounds[..|rounds| - 1]) +
         [Event(Other, rounds[|rounds| - 1].success), Event(ServerError, rounds[|rounds| - 1].error)]
  }

  // A server error at t has just cost a step, and its spell is 90 seconds old by the first
  // success that can follow.
  predicate InOldSpell(s: Limiter, t: Time) {
    && s.lastAdj == Some(t) && s.lastSrvErr == Some(t) && s.srvSpellStart.Some?
    && t + RECOVER_EVERY - s.srvSpellStart.value >= SERVER_ERROR_HOLD_MAX
    && MIN_QPS <= s.qps <= 19.0
  }

  lemma {:induction false} OneRound(s: Limiter, t: Time, r: Round)
    requires InOldSpell(s, t) && Scheduled(t, r)
    ensures var s' := OnOutcome(OnOutcome(s, Event(Other, r.success)), Event(ServerError, r.error));
            s'.qps == 0.9 * (s.qps + 1.0) && InOldSpell(s', r.error)
  {
  }

  lemma ScheduleOfAPrefix(t: Time, rounds: seq<Round>)
    requires AllScheduled(t, rounds) && rounds != []
    ensures var before := rounds[..|rounds| - 1];
            && AllScheduled(t, before) && ErrorBefore(t, before, |before|) == ErrorBefore(t, rounds, |before|)
            && Scheduled(ErrorBefore(t, rounds, |before|), rounds[|before|])
  {
    var before := rounds[..|rounds| - 1];
    forall i | 0 <= i < |before|
      ensures Scheduled(ErrorBefore(t, before, i), before[i])
    {
      assert Scheduled(ErrorBefore(t, rounds, i), rounds[i]);
    }
  }

  lemma NearerToNine(x: real, q: real, n: nat)
    requires 9.0 - q == Decayed(x, ServerError, n)
    ensures 9.0 - 0.9 * (q + 1.0) == Decayed(x, ServerError, n + 1)
  {
  }

  // In a spell past the hold cap the rate no longer sticks: on this schedule every round maps
  // q to 0.9(q + 1), so 9 - q shrinks by a tenth each time.
  lemma {:induction false} SpellConvergesToNine(s: Limiter, t: Time, rounds: seq<Round>)
    requires InOldSpell(s, t) && AllScheduled(t, rounds)
    ensures var s' := Run(s, EventsOf(rounds));
            && InOldSpell(s', ErrorBefore(t, rounds, |rounds|))
            && 9.0 - s'.qps == Decayed(9.0 - s.qps, ServerError, |rounds|)
  {
    if rounds == [] {
      assert EventsOf(rounds) == [];
    } else {
      var before, r := rounds[..|rounds| - 1], rounds[|rounds| - 1];
      ScheduleOfAPrefix(t, rounds);
      SpellConvergesToNine(s, t, before);
      OneRound(Run(s, EventsOf(before)), ErrorBefore(t, rounds, |before|), r);
      RunOfRounds(s, rounds);
      NearerToNine(9.0 - s.qps, Run(s, EventsOf(before)).qps, |before|);
    }
  }

  // The distance to 9 shrinks by a tenth each round, from either side: by DecayedIsAPower it
  // is 0.9^n times what it was.
  lemma DistanceToNine(s: Limiter, t: Time, rounds: seq<Round>)
    requires InOldSpell(s, t) && AllScheduled(t, rounds)
    ensures Abs(9.0 - Run(s, EventsOf(rounds)).qps) == Decayed(Abs(9.0 - s.qps), ServerError, |rounds|)
  {
    SpellConvergesToNine(s, t, rounds);
    DecayKeepsSign(9.0 - s.qps, ServerError, |rounds|);
  }

  lemma {:induction false} RunOfRounds(s: Limiter, rounds: seq<Round>)
    requires rounds != []
    ensures var r, mid := rounds[|rounds| - 1], Run(s, EventsOf(rounds[..|rounds| - 1]));
            Run(s, EventsOf(rounds)) ==
            OnOutcome(OnOutcome(mid, Event(Other, r.success)), Event(ServerError, r.error))
  {
    var before, r := EventsOf(rounds[..|rounds| - 1]), rounds[|rounds| - 1];
    var events := EventsOf(rounds);
    assert events[..|events| - 1] == before + [Event(Other, r.success)];
    assert events[..|events| - 1][..|before|] == before;
  }

  // Below 9, and so from the floor, the schedule raises the rate.
  lemma RoundsLeaveTheFloor(s: Limiter, t: Time, rounds: seq<Round>)
    requires InOldSpell(s, t) && AllScheduled(t, rounds) && s.qps < 9.0 && rounds != []
    ensures s.qps < Run(s, EventsOf(rounds)).qps < 9.0
  {
    SpellConvergesToNine(s, t, rounds);
    DecayKeepsSign(9.0 - s.qps, ServerError, |rounds|);
  }

  // ----- The floor -----

  // At the floor every error a second after the anchor moves it, though the rate cannot fall;
  // anything else leaves it.
  function Anchor(t: Time, events: seq<Event>): Time {
    if events == [] then t
    else
      var before, e := Anchor(t, events[..|events| - 1]), events[|events| - 1];
      if e.outcome != Other && e.now - before >= DECREASE_COOLDOWN then e.now else before
  }

  // When the last server error came and when its spell began, whatever the rate does.
  function LastError(last: Option<Time>, events: seq<Event>): Option<Time> {
    if events == [] then last
    else
      var e := events[|events| - 1];
      if e.outcome == ServerError then Some(e.now) else LastError(last, events[..|events| - 1])
  }

  function SpellStart(last: Option<Time>, start: Option<Time>, events: seq<Event>): Option<Time> {
    if events == [] then start
    else
      var before, e := events[..|events| - 1], events[|events| - 1];
      if e.outcome == ServerError && !Within(LastError(last, before), e.now, SERVER_ERROR_QUIET) then Some(e.now)
      else SpellStart(last, start, before)
  }

  // A success is held back while the spell is young and has not gone quiet.
  predicate Held(s: Limiter, before: seq<Event>, now: Time) {
    && Within(LastError(s.lastSrvErr, before), now, SERVER_ERROR_QUIET)
    && Within(SpellStart(s.lastSrvErr, s.srvSpellStart, before), now, SERVER_ERROR_HOLD_MAX)
  }

  // Success i comes too early to raise the rate, or is held back.
  predicate Wasted(s: Limiter, t: Time, events: seq<Event>, i: nat)
    requires i < |events|
  {
    events[i].now < Anchor(t, events[..i]) + RECOVER_EVERY || Held(s, events[..i], events[i].now)
  }

  predicate AllWasted(s: Limiter, t: Time, events: seq<Event>) {
    forall i :: 0 <= i < |events| && events[i].outcome == Other ==> Wasted(s, t, events, i)
  }

  predicate StaysAtFloor(s: Limiter, events: seq<Event>) {
    forall i :: 0 <= i <= |events| ==> Run(s, events[..i]).qps == MIN_QPS
  }

  // The spell is tracked alike whatever the rate, and so is the anchor while at the floor.
  lemma {:induction false} SpellOfRun(s: Limiter, events: seq<Event>)
    ensures Run(s, events).lastSrvErr == LastError(s.lastSrvErr, events)
    ensures Run(s, events).srvSpellStart == SpellStart(s.lastSrvErr, s.srvSpellStart, events)
  {
    if events != [] {
      SpellOfRun(s, events[..|events| - 1]);
    }
  }

  lemma FloorStep(s: Limiter, t: Time, e: Event)
    requires s.qps == MIN_QPS && s.lastAdj == Some(t)
    ensures var s' := OnOutcome(s, e);
            && (e.outcome != Other ==>
                  s'.qps == MIN_QPS && s'.lastAdj == Some(if e.now - t >= DECREASE_COOLDOWN then e.now else t))
            && (e.outcome == Other ==>
                  var wasted := e.now < t + RECOVER_EVERY ||
                                (Within(s.lastSrvErr, e.now, SERVER_ERROR_QUIET) &&
                                 Within(s.srvSpellStart, e.now, SERVER_ERROR_HOLD_MAX));
                  (s'.qps == MIN_QPS <==> wasted) && (wasted ==> s' == s))
  {
  }

  lemma PrefixFacts(s: Limiter, t: Time, events: seq<Event>)
    requires events != []
    ensures var before, n := events[..|events| - 1], |events| - 1;
            && (StaysAtFloor(s, events) <==> StaysAtFloor(s, before) && Run(s, events).qps == MIN_QPS)
            && (AllWasted(s, t, events) <==>
                  AllWasted(s, t, before) && (events[n].outcome == Other ==> Wasted(s, t, events, n)))
  {
    var before := events[..|events| - 1];
    assert events[..|events|] == events;
    assert forall i :: 0 <= i < |events| ==> before[..i] == events[..i];
    assert forall i :: 0 <= i < |before| ==> Wasted(s, t, before, i) == Wasted(s, t, events, i);
  }

  // From the floor, whatever follows in whatever order: the rate stays there through every step
  // exactly if every success is wasted.
  lemma {:induction false} FloorIff(s: Limiter, t: Time, events: seq<Event>)
    requires s.qps == MIN_QPS && s.lastAdj == Some(t)
    ensures StaysAtFloor(s, events) <==> AllWasted(s, t, events)
    ensures StaysAtFloor(s, events) ==> Run(s, events).lastAdj == Some(Anchor(t, events))
  {
    if events == [] {
      assert events[..0] == [];
    } else {
      var before := events[..|events| - 1];
      FloorIff(s, t, before);
      PrefixFacts(s, t, events);
      if StaysAtFloor(s, before) {
        assert before[..|before|] == before;
        SpellOfRun(s, before);
        FloorStep(Run(s, before), Anchor(t, before), events[|events| - 1]);
      }
    }
  }

  // A spell that began 90 seconds before every event and in which no error comes ten seconds
  // after the one before.
  predicate InOneOldSpell(s: Limiter, events: seq<Event>) {
    && s.srvSpellStart.Some?
    && (forall i :: 0 <= i < |events| ==> events[i].now - s.srvSpellStart.value >= SERVER_ERROR_HOLD_MAX)
    && (forall i :: 0 <= i < |events| && events[i].outcome == ServerError ==>
          Within(LastError(s.lastSrvErr, events[..i]), events[i].now, SERVER_ERROR_QUIET))
  }

  lemma {:induction false} OneSpell(s: Limiter, events: seq<Event>, i: nat)
    requires InOneOldSpell(s, events) && i <= |events|
    ensures SpellStart(s.lastSrvErr, s.srvSpellStart, events[..i]) == s.srvSpellStart
  {
    if i > 0 {
      OneSpell(s, events, i - 1);
      assert events[..i][..i - 1] == events[..i - 1];
    }
  }

  // Once a spell of server errors is 90 seconds old nothing is held back any more: the rate
  // stays at the floor exactly if every success comes less than five seconds after the anchor.
  // So the climb resumes although the errors go on, unless they are that dense.
  lemma OldSpellFloorIff(s: Limiter, t: Time, events: seq<Event>)
    requires s.qps == MIN_QPS && s.lastAdj == Some(t) && InOneOldSpell(s, events)
    ensures StaysAtFloor(s, events) <==>
            forall i :: 0 <= i < |events| && events[i].outcome == Other ==>
              events[i].now < Anchor(t, events[..i]) + RECOVER_EVERY
  {
    FloorIff(s, t, events);
    forall i | 0 <= i < |events|
      ensures !Held(s, events[..i], events[i].now)
    {
      OneSpell(s, events, i);
    }
    assert AllWasted(s, t, events) ==>
      forall i :: 0 <= i < |events| && events[i].outcome == Other ==> Wasted(s, t, events, i);
  }

  // One such pattern, whatever the age of the spell: server errors between one and five seconds
  // apart, and successes in between.
  predicate Crowded(t: Time, events: seq<Event>)
    decreases |events|
  {
    events == [] ||
    (var e := events[0];
     if e.outcome == Other then t <= e.now < t + RECOVER_EVERY && Crowded(t, events[1..])
     else e.outcome == ServerError && t + DECREASE_COOLDOWN <= e.now < t + RECOVER_EVERY && Crowded(e.now, events[1..]))
  }

  lemma {:induction false} AnchorFrom(t: Time, events: seq<Event>)
    requires events != []
    ensures Anchor(t, events) == Anchor(Anchor(t, [events[0]]), events[1..])
    decreases |events|
  {
    if |events| == 1 {
      assert events == [events[0]];
    } else {
      var before := events[..|events| - 1];
      AnchorFrom(t, before);
      assert before[1..] == events[1..][..|events| - 2];
    }
  }

  lemma {:induction false} CrowdedIsClose(t: Time, events: seq<Event>, i: nat)
    requires Crowded(t, events) && i < |events|
    ensures events[i].now < Anchor(t, events[..i]) + RECOVER_EVERY
    decreases |events|
  {
    if i > 0 {
      var e := events[0];
      assert [e][..0] == [];
      assert Anchor(t, [e]) == if e.outcome == Other then t else e.now;
      CrowdedIsClose(Anchor(t, [e]), events[1..], i - 1);
      AnchorFrom(t, events[..i]);
      assert events[..i][1..] == events[1..][..i - 1];
    }
  }

  lemma CrowdedErrorsPinTheFloor(s: Limiter, t: Time, events: seq<Event>)
    requires s.qps == MIN_QPS && s.lastAdj == Some(t) && Crowded(t, events)
    ensures Run(s, events).qps == MIN_QPS
  {
    forall i | 0 <= i < |events| && events[i].outcome == Other
      ensures Wasted(s, t, events, i)
    {
      CrowdedIsClose(t, events, i);
    }
    FloorIff(s, t, events);
    assert events[..|events|] == events;
  }
}
