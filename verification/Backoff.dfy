/**
 * The wait budgets of pkg/cloud/consts.go and the time a full wait sleeps. Durations are
 * seconds and exact: the rounding of float64 is not part of this model.
 */
module Backoff {
  datatype Budget = Budget(duration: real, factor: real, steps: nat) {
    // The next sleep is factor times longer, and there is one step less.
    function Step(): Budget
      requires steps > 0
    {
      Budget(duration * factor, factor, steps - 1)
    }
  }

  const VOLUME_OPERATION := Budget(1.0, 1.6, 13)
  const VOLUME_MIGRATION := Budget(2.0, 1.6, 12)
  const VOLUME_BUSY := Budget(1.0, 1.4, 8)

  // n sleeps, the first of length d, each f times the one before.
  function Slept(d: real, f: real, n: nat): real
    decreases n
  {
    if n == 0 then 0.0 else d + Slept(d * f, f, n - 1)
  }

  function Power(f: real, n: nat): real {
    if n == 0 then 1.0 else f * Power(f, n - 1)
  }

  lemma Distribute(d: real, f: real, p: real)
    ensures (d * f) * (p - 1.0) == d * (f * p) - d * f
    ensures d * (f - 1.0) == d * f - d
  {
  }

  // The closed form d (f^n - 1) / (f - 1), for every duration, every factor but 1 and every n.
  lemma {:induction false} SleptClosedForm(d: real, f: real, n: nat)
    requires f != 1.0
    ensures Slept(d, f, n) == d * (Power(f, n) - 1.0) / (f - 1.0)
  {
    SleptTimes(d, f, n);
    Divide(Slept(d, f, n), f - 1.0, d * (Power(f, n) - 1.0));
  }

  lemma Divide(x: real, y: real, z: real)
    requires y != 0.0 && x * y == z
    ensures x == z / y
  {
  }

  lemma {:induction false} SleptTimes(d: real, f: real, n: nat)
    ensures Slept(d, f, n) * (f - 1.0) == d * (Power(f, n) - 1.0)
    decreases n
  {
    if n > 0 {
      SleptTimes(d * f, f, n - 1);
      Distribute(d, f, Power(f, n - 1));
      Split(d, Slept(d * f, f, n - 1), f - 1.0);
    }
  }

  lemma Split(a: real, b: real, c: real)
    ensures (a + b) * c == a * c + b * c
  {
  }

  // What a wait sleeps that uses up its steps: there is no sleep after the last poll.
  function FullWait(b: Budget): real
    requires b.steps > 0
  {
    Slept(b.duration, b.factor, b.steps - 1)
  }

  lemma Unroll(d: real, f: real, n: nat)
    requires n > 0
    ensures Slept(d, f, n) == d + Slept(d * f, f, n - 1)
  {
  }

  lemma OneSleep(b: Budget)
    requires b.steps > 1
    ensures FullWait(b) == b.duration + FullWait(b.Step())
  {
    var d, f, next := b.duration, b.factor, b.Step();
    assert next.duration == d * f;
    assert FullWait(next) == Slept(next.duration, f, b.steps - 2);
    Unroll(d, f, b.steps - 1);
  }

  // The loop of ExponentialBackoffWithContext for a wait that nothing ends early.
  method WalkBackoff(b: Budget) returns (polls: nat, total: real)
    requires b.duration >= 0.0 && b.factor >= 0.0
    ensures polls == b.steps
    ensures total == if b.steps == 0 then 0.0 else FullWait(b)
  {
    polls, total := 0, 0.0;
    var backoff := b;
    while backoff.steps > 0
      invariant polls + backoff.steps == b.steps && backoff.factor == b.factor
      invariant 0 < b.steps ==> 0 < backoff.steps
      invariant 0 < b.steps ==> total + FullWait(backoff) == FullWait(b)
      invariant b.steps == 0 ==> total == 0.0
      decreases backoff.steps
    {
      polls := polls + 1;
      if backoff.steps == 1 {
        break;
      }
      OneSleep(backoff);
      total := total + backoff.duration;
      backoff := backoff.Step();
    }
  }

  // The budgets: 7m47s for an operation, 9m43s for a migration, 24s while a volume is busy.
  lemma BudgetsInSeconds()
    ensures 467.0 < FullWait(VOLUME_OPERATION) < 468.0
    ensures 582.0 < FullWait(VOLUME_MIGRATION) < 584.0
    ensures 23.8 < FullWait(VOLUME_BUSY) < 23.9
  {
    assert Power(1.6, 2) == 2.56 && Power(1.6, 4) == 6.5536;
    assert Power(1.4, 2) == 1.96 && Power(1.4, 4) == 3.8416;
    SleptClosedForm(1.0, 1.6, 12);
    SleptClosedForm(2.0, 1.6, 11);
    SleptClosedForm(1.0, 1.4, 7);
  }
}
