/** What the convergence theorem says about the two loops with the constants
    they are written with, and where its resolution condition is needed. */
module LoopTuning {
  import opened Common
  import opened Arithmetic
  import opened RateControl
  import opened FeedbackLoop

  /** Ten-millisecond ticks, a 200 ms window. */
  function MediumSetup(target: int): (u: Setup)
    requires target >= 1
    ensures u.Valid()
  {
    Setup(MEDIUM, if target / 100 < 1 then 1 else target / 100, target, 5)
  }

  /** The batch of the performance loop, with its 6.4 percent head start. */
  function PerformanceBatch(target: int, intervalMs: int): int {
    var logs := Trunc((target * intervalMs) as real / 1000.0 * 1.064);
    if logs < 1 then 1 else logs
  }

  /** A 100 ms window. */
  function PerformanceSetup(target: int, intervalMs: int): (u: Setup)
    requires target >= 1
    ensures u.Valid()
  {
    Setup(PERFORMANCE, PerformanceBatch(target, intervalMs), target, 10)
  }

  /** Bounds on the ideal rate of a loop from bounds on its batch. */
  lemma IdealBetween(u: Setup, m: nat, f: real, less: real, more: real)
    requires u.Valid() && m >= 1 && f > 0.0
    requires less * u.target as real <= u.logs as real <= more * u.target as real
    ensures var sends := m as real * u.scale as real;
            sends * less * f <= u.Plant(m).Ideal(f) <= sends * more * f
  {
    var q, t, sends := u.Plant(m).quantum, u.target as real, m as real * u.scale as real;
    QuotientPositive(sends, t);
    assert q * t == sends;
    BetweenProducts(q, t, sends, u.logs as real, less, more, f, u.Plant(m).Ideal(f));
  }

  lemma BetweenProducts(q: real, t: real, sends: real, logs: real, less: real, more: real, f: real, ideal: real)
    requires 0.0 < q && 0.0 < f && q * t == sends && less * t <= logs <= more * t && ideal == (q * logs) * f
    ensures sends * less * f <= ideal <= sends * more * f
  {
    Scale(q, less * t, logs);
    Scale(q, logs, more * t);
    assert q * (less * t) == sends * less;
    assert q * (more * t) == sends * more;
    Scale(f, sends * less, q * logs);
    Scale(f, q * logs, sends * more);
  }

  /** `m` batches of `b` logs in a window come within the tolerance of the target,
      counted in logs per second. */
  predicate NearTarget(target: int, tolerance: real, m: nat, scale: int, b: int) {
    Abs((m * b * scale - target) as real) <= tolerance * target as real
  }

  /** A batch size between the smallest and the largest the factor allows is near the target. */
  ghost predicate SomeBatchNear(u: Setup, m: nat) {
    exists b :: BatchSize(u.logs, u.law.lo) <= b <= BatchSize(u.logs, u.law.hi)
                && NearTarget(u.target, u.law.d, m, u.scale, b)
  }

  lemma OnTargetIsNear(u: Setup, m: nat, b: int)
    requires u.Valid() && m >= 1 && b >= 1
    ensures OnTarget(u.law, u.Plant(m), b) <==> NearTarget(u.target, u.law.d, m, u.scale, b)
  {
    hide Plant.RateOf, OnTarget;
    OnTargetInLogs(u, m, b);
  }

  lemma ReachableIsNear(u: Setup, m: nat)
    requires u.Valid() && m >= 1
    ensures TargetReachable(u.law, u.Plant(m)) <==> SomeBatchNear(u, m)
  {
    var low, high, p := BatchSize(u.logs, u.law.lo), BatchSize(u.logs, u.law.hi), u.Plant(m);
    hide OnTarget, NearTarget, BatchSize, Setup.Plant;
    forall b | low <= b <= high
      ensures OnTarget(u.law, p, b) <==> NearTarget(u.target, u.law.d, m, u.scale, b)
    {
      OnTargetIsNear(u, m, b);
    }
    assert p.logs == u.logs;
  }

  /** For every target and every number of successful sends per window: a run of
      at least 108 windows of the medium loop ends inside its two percent
      deadband if and only if some batch size between the smallest and the largest
      the factor allows sends within two percent of the target. */
  lemma MediumEndsOnTargetIff(target: int, f: real, windows: seq<seq<Tick>>, m: nat)
    requires target >= 1 && m >= 1 && InRange(MEDIUM, f)
    requires |windows| >= 108 && forall i | 0 <= i < |windows| :: IsWindow(windows[i], m)
    ensures var u := MediumSetup(target);
            u.Plant(m).InBand(MEDIUM, Run(u, LoopState(f, 0), Concat(windows)).factor) <==> SomeBatchNear(u, m)
  {
    hide Run, Concat, Plant.InBand, TargetReachable, SomeBatchNear, Law.Progress, IsWindow;
    LawsOfTheLoops();
    LoopConverges(MediumSetup(target), f, windows, m, 108);
    ReachableIsNear(MediumSetup(target), m);
  }

  /** The same for the performance loop, for every ticker interval: after 600
      windows, and within one percent. */
  lemma PerformanceEndsOnTargetIff(target: int, intervalMs: int, f: real, windows: seq<seq<Tick>>, m: nat)
    requires target >= 1 && m >= 1 && InRange(PERFORMANCE, f)
    requires |windows| >= 600 && forall i | 0 <= i < |windows| :: IsWindow(windows[i], m)
    ensures var u := PerformanceSetup(target, intervalMs);
            u.Plant(m).InBand(PERFORMANCE, Run(u, LoopState(f, 0), Concat(windows)).factor) <==> SomeBatchNear(u, m)
  {
    hide Run, Concat, Plant.InBand, TargetReachable, SomeBatchNear, Law.Progress, IsWindow;
    LawsOfTheLoops();
    LoopConverges(PerformanceSetup(target, intervalMs), f, windows, m, 600);
    ReachableIsNear(PerformanceSetup(target, intervalMs), m);
  }

  /** In particular, with a per-worker target of at least 5,000 the medium loop
      ends on target even when up to four of the twenty sends of every window fail. */
  lemma MediumMeetsTarget(target: int, f: real, windows: seq<seq<Tick>>, m: nat)
    requires target >= 5000 && 16 <= m <= 20 && InRange(MEDIUM, f)
    requires |windows| >= 108 && forall i | 0 <= i < |windows| :: IsWindow(windows[i], m)
    ensures var u := MediumSetup(target);
            u.Plant(m).InBand(MEDIUM, Run(u, LoopState(f, 0), Concat(windows)).factor)
  {
    hide Run, Concat, Setup.Plant, Plant.Ideal, Plant.InBand, Law.Progress, IsWindow;
    LawsOfTheLoops();
    MediumReach(target, m);
    PlantIsFine(MediumSetup(target), m);
    FineTargetReachable(MEDIUM, MediumSetup(target).Plant(m));
    LoopConverges(MediumSetup(target), f, windows, m, 108);
  }

  lemma MediumReach(target: int, m: nat)
    requires target >= 5000 && 16 <= m <= 20
    ensures var p := MediumSetup(target).Plant(m); p.Ideal(MEDIUM.lo) <= 1.0 <= p.Ideal(MEDIUM.hi)
  {
    hide Setup.Plant, Plant.Ideal;
    var u, t := MediumSetup(target), target as real;
    assert 0.0098 * t <= u.logs as real <= 0.01 * t;
    IdealBetween(u, m, MEDIUM.lo, 0.0098, 0.01);
    IdealBetween(u, m, MEDIUM.hi, 0.0098, 0.01);
  }

  /** Whatever its ticker, the performance loop ends inside its one percent
      deadband within 600 windows even when half of the sends of every 100 ms window
      fail, as long as it aims at a thousand logs per second or more for every send
      that succeeds; with ten-millisecond ticks, at 10,000 or more. */
  lemma PerformanceMeetsTarget(target: int, intervalMs: int, f: real, windows: seq<seq<Tick>>, m: nat)
    requires intervalMs >= 1 && m >= 1 && 50 <= m * intervalMs <= 100 && target >= 1000 * m && InRange(PERFORMANCE, f)
    requires |windows| >= 600 && forall i | 0 <= i < |windows| :: IsWindow(windows[i], m)
    ensures var u := PerformanceSetup(target, intervalMs);
            u.Plant(m).InBand(PERFORMANCE, Run(u, LoopState(f, 0), Concat(windows)).factor)
  {
    hide Run, Concat, Setup.Plant, Plant.Ideal, Plant.InBand, Law.Progress, IsWindow, PerformanceBatch;
    LawsOfTheLoops();
    PerformanceReach(target, intervalMs, m);
    PlantIsFine(PerformanceSetup(target, intervalMs), m);
    FineTargetReachable(PERFORMANCE, PerformanceSetup(target, intervalMs).Plant(m));
    LoopConverges(PerformanceSetup(target, intervalMs), f, windows, m, 600);
  }

  lemma PerformanceReach(target: int, intervalMs: int, m: nat)
    requires intervalMs >= 1 && m >= 1 && 50 <= m * intervalMs <= 100 && target >= 1000 * m
    ensures var p := PerformanceSetup(target, intervalMs).Plant(m); p.Ideal(PERFORMANCE.lo) <= 1.0 <= p.Ideal(PERFORMANCE.hi)
  {
    hide Setup.Plant, Plant.Ideal;
    var u, t, ms := PerformanceSetup(target, intervalMs), target as real, intervalMs as real;
    var less, more := 0.001064 * ms - 1.0 / t, 0.001064 * ms;
    BatchBetween(target, intervalMs, less, more);
    IdealBetween(u, m, PERFORMANCE.lo, less, more);
    IdealBetween(u, m, PERFORMANCE.hi, less, more);
    hide PerformanceBatch;
    ReachOf(m as real, ms, t, less, more);
  }

  lemma BatchBetween(target: int, intervalMs: int, less: real, more: real)
    requires target >= 1000 && intervalMs >= 1
    requires less == 0.001064 * intervalMs as real - 1.0 / target as real && more == 0.001064 * intervalMs as real
    ensures less * target as real <= PerformanceBatch(target, intervalMs) as real <= more * target as real
  {
    var t, ms, product := target as real, intervalMs as real, target * intervalMs;
    assert product >= 1000 by { Thousand(target, intervalMs); }
    assert product as real == t * ms;
    assert (product as real / 1000.0) * 1.064 == 0.001064 * product as real;
    assert more * t == 0.001064 * product as real by { Associate(0.001064, ms, t); }
    assert less * t == more * t - 1.0 by { LessOne(more, t); }
  }

  lemma Thousand(x: int, y: int)
    requires x >= 1000 && y >= 1
    ensures x * y >= 1000
  {
  }

  lemma LessOne(a: real, t: real)
    requires t > 0.0
    ensures (a - 1.0 / t) * t == a * t - 1.0
  {
    var inverse := 1.0 / t;
    assert inverse * t == 1.0;
    Distribute(t, a, inverse);
  }

  lemma ReachOf(m: real, ms: real, t: real, less: real, more: real)
    requires m >= 1.0 && 50.0 <= m * ms <= 100.0 && t >= 1000.0 * m
    requires less == 0.001064 * ms - 1.0 / t && more == 0.001064 * ms
    ensures m * 10.0 * more * 0.5 <= 1.0 <= m * 10.0 * less * 2.0
  {
    var inverse := 1.0 / t;
    assert inverse * t == 1.0;
    assert m * inverse <= 0.001 by { SmallShare(m, inverse, t); }
    Distribute(m, 0.001064 * ms, inverse);
    assert m * (0.001064 * ms) == 0.001064 * (m * ms) by { Associate(m, 0.001064, ms); }
  }

  lemma SmallShare(m: real, inverse: real, t: real)
    requires m >= 1.0 && t >= 1000.0 * m && inverse == 1.0 / t
    ensures m * inverse <= 0.001
  {
    assert inverse * t == 1.0 && inverse > 0.0;
    Scale(inverse, 1000.0 * m, t);
    assert inverse * (1000.0 * m) == 1000.0 * (m * inverse);
  }

  /** Below the resolution the promise fails: a medium loop aiming at 1,050 with
      every send succeeding finds 10 logs too few and 11 too many, so no factor in
      its range ever rests. */
  lemma CoarseMediumNeverRests(f: real)
    requires InRange(MEDIUM, f)
    ensures !Settled(MEDIUM, MediumSetup(1050).Plant(20), f)
  {
    var p := MediumSetup(1050).Plant(20);
    var b := BatchSize(p.logs, f);
    assert p.logs == 10 && p.quantum == 100.0 / 1050.0;
    assert 7 <= b <= 13;
    var err := p.Rate(f) - 1.0;
    if b <= 10 {
      assert p.Rate(f) <= 100.0 / 1050.0 * 10.0 < 0.98;
      var step := Step(MEDIUM, p.Rate(f) - 1.0);
      CorrectRaises(MEDIUM, f, p.Rate(f), step, f * (1.0 + step));
      assert f < 1.3;
    } else {
      assert p.Rate(f) >= 100.0 / 1050.0 * 11.0 > 1.02;
      var step := -Step(MEDIUM, p.Rate(f) - 1.0);
      CorrectLowers(MEDIUM, f, p.Rate(f), step, f * (1.0 - step));
      assert f > 0.7;
    }
  }
}
