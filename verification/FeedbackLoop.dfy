/** The medium and performance send loops, tick by tick, as far as the batch
    size is concerned, and how their windows realise the plant of RateControl. */
module FeedbackLoop {
  import opened Arithmetic
  import opened RateControl

  /** What the environment decides at one tick: whether the write succeeds,
      whether the feedback window has elapsed, the clock and the cached timestamp. */
  datatype Tick = Tick(writeOk: bool, windowOver: bool, now: real, timestamp: string)

  /** The fixed parameters of one loop: `logs` per batch at factor one, the target
      rate, and the factor that scales a window to one second. */
  datatype Setup = Setup(law: Law, logs: int, target: int, scale: int) {
    predicate Valid() {
      law.Sound() && logs >= 1 && target >= 1 && scale >= 1
    }

    /** The plant of a loop in whose windows `m` writes succeed. */
    function Plant(m: int): Plant
      requires Valid()
    {
      RateControl.Plant(logs, m as real * scale as real / target as real)
    }
  }

  datatype LoopState = LoopState(factor: real, windowSent: int)

  function TickStep(u: Setup, s: LoopState, t: Tick): LoopState
    requires u.Valid()
  {
    var sent := s.windowSent + (if t.writeOk then BatchSize(u.logs, s.factor) else 0);
    if t.windowOver then LoopState(Correct(u.law, s.factor, WindowError(u.target, u.scale, sent)), 0)
    else LoopState(s.factor, sent)
  }

  function Run(u: Setup, s: LoopState, ticks: seq<Tick>): LoopState
    requires u.Valid()
  {
    if ticks == [] then s else TickStep(u, Run(u, s, ticks[..|ticks| - 1]), ticks[|ticks| - 1])
  }

  /** A factor that starts within the limits stays there. */
  lemma {:induction false} RunStaysInRange(u: Setup, s: LoopState, ticks: seq<Tick>)
    requires u.Valid() && InRange(u.law, s.factor)
    ensures InRange(u.law, Run(u, s, ticks).factor)
  {
    if ticks != [] { RunStaysInRange(u, s, ticks[..|ticks| - 1]); }
  }

  function Successes(ticks: seq<Tick>): nat {
    if ticks == [] then 0 else Successes(ticks[..|ticks| - 1]) + if ticks[|ticks| - 1].writeOk then 1 else 0
  }

  /** The lines in the batches of a run whose writes succeed. */
  function SentLines(u: Setup, s: LoopState, ticks: seq<Tick>): int
    requires u.Valid()
  {
    if ticks == [] then 0
    else
      var n := |ticks| - 1;
      SentLines(u, s, ticks[..n]) + if ticks[n].writeOk then BatchSize(u.logs, Run(u, s, ticks[..n]).factor) else 0
  }

  /** Until the first window is over every batch has the same size. */
  lemma {:induction false} FirstWindowLines(u: Setup, f: real, ticks: seq<Tick>)
    requires u.Valid() && forall i | 0 <= i < |ticks| - 1 :: !ticks[i].windowOver
    ensures SentLines(u, LoopState(f, 0), ticks) == Successes(ticks) * BatchSize(u.logs, f)
  {
    hide BatchSize;
    if ticks != [] {
      var n := |ticks| - 1;
      FirstWindowLines(u, f, ticks[..n]);
      OpenWindow(u, f, ticks[..n]);
      OneMore(Successes(ticks[..n]), BatchSize(u.logs, f));
    }
  }

  lemma OneMore(k: int, b: int)
    ensures (k + 1) * b == k * b + b
  {
  }

  /** The ticks of one window in which exactly `m` writes succeed. */
  predicate IsWindow(ticks: seq<Tick>, m: int) {
    && ticks != [] && Successes(ticks) == m
    && forall i | 0 <= i < |ticks| :: ticks[i].windowOver == (i == |ticks| - 1)
  }

  lemma {:induction false} OpenWindow(u: Setup, f: real, ticks: seq<Tick>)
    requires u.Valid() && forall i | 0 <= i < |ticks| :: !ticks[i].windowOver
    ensures Run(u, LoopState(f, 0), ticks) == LoopState(f, Successes(ticks) * BatchSize(u.logs, f))
  {
    if ticks != [] {
      var n := |ticks| - 1;
      OpenWindow(u, f, ticks[..n]);
      var b, m := BatchSize(u.logs, f), Successes(ticks[..n]);
      assert (m + 1) * b == m * b + b;
    }
  }

  lemma WindowErrorIsRate(u: Setup, m: nat, f: real)
    requires u.Valid()
    ensures WindowError(u.target, u.scale, m * BatchSize(u.logs, f)) == u.Plant(m).Rate(f) - 1.0
  {
    hide BatchSize;
    var b, q := BatchSize(u.logs, f), u.Plant(m).quantum;
    var x := (m * b) as real * u.scale as real - u.target as real;
    RateOfProduct((m * b) as real, m as real, b as real, u.scale as real, u.target as real, q, x);
    ErrorIs(u.target, u.scale, m * b, q * b as real - 1.0, x);
  }

  lemma RateOfProduct(mb: real, m: real, b: real, s: real, t: real, q: real, x: real)
    requires t > 0.0 && mb == m * b && q == m * s / t && x == mb * s - t
    ensures (q * b - 1.0) * t == x
  {
    assert q * t == m * s;
    calc {
      (q * b - 1.0) * t;
      (q * b) * t - t;
      { Associate(q, b, t); Associate(q, t, b); }
      (q * t) * b - t;
      (m * s) * b - t;
      { Associate(m, s, b); Associate(m, b, s); }
      x;
    }
  }

  lemma ErrorIs(target: int, scale: int, sent: int, y: real, x: real)
    requires target > 0 && y * target as real == x
    requires x == sent as real * scale as real - target as real
    ensures WindowError(target, scale, sent) == y
  {
  }

  /** The ticks of a window move the factor exactly as one window of the plant does. */
  lemma WindowIsPlantWindow(u: Setup, f: real, ticks: seq<Tick>, m: nat)
    requires u.Valid() && IsWindow(ticks, m)
    ensures Run(u, LoopState(f, 0), ticks) == LoopState(u.Plant(m).Window(u.law, f), 0)
  {
    var n := |ticks| - 1;
    OpenWindow(u, f, ticks[..n]);
    var b, k := BatchSize(u.logs, f), Successes(ticks[..n]);
    assert (k + 1) * b == k * b + b;
    WindowErrorIsRate(u, m, f);
  }

  function Concat(windows: seq<seq<Tick>>): seq<Tick> {
    if windows == [] then [] else windows[0] + Concat(windows[1..])
  }

  lemma {:induction false} RunAppend(u: Setup, s: LoopState, a: seq<Tick>, b: seq<Tick>)
    requires u.Valid()
    ensures Run(u, s, a + b) == Run(u, Run(u, s, a), b)
  {
    if b == [] {
      assert a + b == a;
    } else {
      assert (a + b)[..|a + b| - 1] == a + b[..|b| - 1];
      RunAppend(u, s, a, b[..|b| - 1]);
    }
  }

  lemma {:induction false} RunWindows(u: Setup, f: real, windows: seq<seq<Tick>>, m: nat)
    requires u.Valid() && forall i | 0 <= i < |windows| :: IsWindow(windows[i], m)
    ensures Run(u, LoopState(f, 0), Concat(windows)) == LoopState(u.Plant(m).Windows(u.law, f, |windows|), 0)
    decreases |windows|
  {
    if windows != [] {
      WindowIsPlantWindow(u, f, windows[0], m);
      RunAppend(u, LoopState(f, 0), windows[0], Concat(windows[1..]));
      RunWindows(u, u.Plant(m).Window(u.law, f), windows[1..], m);
    }
  }

  /** Main result for a loop, tick by tick: any run of enough windows with the
      same number of successful writes each, whatever their ticks look like, ends
      in the deadband exactly when a batch size in reach is on target. If any batch
      size is on target, in reach or not, the factor has stopped moving after the
      first `n` windows, and if none in reach is, at the limit nearest to it. */
  lemma LoopConverges(u: Setup, f: real, windows: seq<seq<Tick>>, m: nat, n: nat)
    requires u.Valid() && InRange(u.law, f) && m >= 1
    requires u.law.Cautious() || m as real * u.scale as real <= u.law.d * u.target as real
    requires forall i | 0 <= i < |windows| :: IsWindow(windows[i], m)
    requires n <= |windows| && u.law.hi - u.law.lo <= n as real * u.law.Progress()
    ensures var p := u.Plant(m);
            var r := Run(u, LoopState(f, 0), Concat(windows)).factor;
            && InRange(u.law, r)
            && (p.InBand(u.law, r) <==> TargetReachable(u.law, p))
            && (Tame(u.law, p) ==> Run(u, LoopState(f, 0), Concat(windows[..n])).factor == r && GoodRest(u.law, p, r))
  {
    hide Run, Concat, Plant.Windows, Plant.InBand, Plant.Ideal, Plant.Efficiency, Law.Progress, Setup.Plant, GoodRest, TargetReachable, Tame, Law.Cautious, IsWindow, Law.Sound;
    PlantIsFine(u, m);
    RunWindows(u, f, windows, m);
    RunWindows(u, f, windows[..n], m);
    Converges(u.law, u.Plant(m), f, n, |windows|);
    Converges(u.law, u.Plant(m), f, |windows|, |windows|) by { MoreWindows(u.law, n, |windows|); }
  }

  lemma MoreWindows(law: Law, n: nat, more: nat)
    requires law.Sound() && n <= more && law.hi - law.lo <= n as real * law.Progress()
    ensures law.hi - law.lo <= more as real * law.Progress()
  {
    hide Law.Progress;
    ProgressPositive(law);
    Scale(law.Progress(), n as real, more as real);
  }

  lemma ProgressPositive(law: Law)
    requires law.Sound()
    ensures 0.0 < law.Progress()
  {
    ScaleStrict(law.k, 0.0, law.d);
    ScaleStrict(law.lo, 0.0, law.MinStep());
  }

  /** Being on target, counted in logs per second. */
  lemma OnTargetInLogs(u: Setup, m: nat, b: int)
    requires u.Valid() && m >= 1 && b >= 1
    ensures OnTarget(u.law, u.Plant(m), b) <==> Abs((m * b * u.scale - u.target) as real) <= u.law.d * u.target as real
  {
    hide Abs, Law.Sound, Plant.RateOf;
    var p, t := u.Plant(m), u.target as real;
    var y, e := p.RateOf(b) - 1.0, (m * b * u.scale - u.target) as real;
    QuotientTimes(m as real * u.scale as real, t, p.quantum);
    CastProduct(m, b, u.scale);
    RateIs(p, b);
    ErrorTimesTarget(p.quantum, b as real, t, m as real, u.scale as real, y, e);
    WithinIff(y, t, e, u.law.d);
  }

  lemma RateIs(p: Plant, b: int)
    ensures p.RateOf(b) == p.quantum * b as real
  {
  }

  lemma QuotientTimes(x: real, t: real, q: real)
    requires t != 0.0 && q == x / t
    ensures q * t == x
  {
  }

  lemma CastProduct(m: int, b: int, s: int)
    ensures (m * b * s) as real == m as real * b as real * s as real
  {
    assert (m * b) as real == m as real * b as real;
  }

  lemma WithinIff(y: real, t: real, e: real, d: real)
    requires t > 0.0 && y * t == e
    ensures Abs(y) <= d <==> Abs(e) <= d * t
  {
    AtMostIff(y, t, e, d);
    Distribute(t, 0.0, y);
    AtMostIff(-y, t, -e, d);
  }

  lemma AtMostIff(y: real, t: real, e: real, d: real)
    requires t > 0.0 && y * t == e
    ensures y <= d <==> e <= d * t
  {
    if y <= d { Scale(t, y, d); } else { ScaleStrict(t, d, y); }
  }

  lemma ErrorTimesTarget(q: real, b: real, t: real, m: real, s: real, y: real, e: real)
    requires q * t == m * s && y == q * b - 1.0 && e == m * b * s - t
    ensures y * t == e
  {
    calc {
      y * t;
      q * b * t - t;
      { Associate(q, b, t); Associate(q, t, b); }
      (q * t) * b - t;
      m * s * b - t;
      { Associate(m, s, b); Associate(m, b, s); }
      e;
    }
  }

  lemma PlantIsFine(u: Setup, m: nat)
    requires u.Valid() && m >= 1
    ensures u.Plant(m).Valid()
    ensures u.Plant(m).quantum <= u.law.d <==> m as real * u.scale as real <= u.law.d * u.target as real
  {
    QuotientAtMost(m as real * u.scale as real, u.target as real, u.law.d);
    ScaleStrict(m as real, 0.0, u.scale as real);
    QuotientPositive(m as real * u.scale as real, u.target as real);
  }

  lemma QuotientAtMost(x: real, t: real, d: real)
    requires t > 0.0
    ensures x / t <= d <==> x <= d * t
  {
    var q := x / t;
    assert q * t == x;
    TimesAtMost(q, d, t, x);
  }

  lemma TimesAtMost(q: real, d: real, t: real, x: real)
    requires t > 0.0 && q * t == x
    ensures q <= d <==> x <= d * t
  {
    if q <= d {
      Scale(t, q, d);
    } else {
      ScaleStrict(t, d, q);
    }
  }

  lemma QuotientPositive(x: real, t: real)
    requires x > 0.0 && t > 0.0
    ensures x / t > 0.0
  {
  }
}
