/** What a worker does with the rate it was given, in numbers: the batches of each
    mode's first window, and when the loops that measure themselves bring the
    worker to that rate. Batch sizes are integer divisions here, by hundredths and
    thousandths; that the loops get them from floating-point factors is proved. */
module WorkerTuning {
  import opened Common
  import opened Arithmetic
  import opened Profiles
  import opened RateControl
  import opened FeedbackLoop
  import opened LoopTuning
  import opened UdpWorker
  import UltraSchedule
  import UltraTuning

  /** A rate within `percent` hundredths of the target. */
  predicate Within(target: int, percent: int, rate: int) {
    -percent * target <= 100 * (rate - target) <= percent * target
  }

  // ---- the first window ----

  lemma MediumStart(target: int)
    requires target >= 1
    ensures BatchSize(MediumSetup(target).logs, 1.0) == Max(1, target / 100)
  {
  }

  lemma PerformanceLogs(target: int, intervalMs: int)
    requires target >= 1 && intervalMs >= 1
    ensures PerformanceBatch(target, intervalMs) == Max(1, 1064 * (target * intervalMs) / 1_000_000)
  {
    var product := target * intervalMs;
    assert product >= 0;
    assert product as real / 1000.0 * 1.064 == (1064 * product) as real / 1_000_000.0;
    FloorOfFraction(1064 * product, 1_000_000);
  }

  lemma FloorOfFraction(x: int, n: int)
    requires x >= 0 && n > 0
    ensures (x as real / n as real).Floor == x / n
  {
    var q := x as real / n as real;
    assert q * n as real == x as real;
    FloorOfQuotient(q, x, n);
  }

  lemma PerformanceStart(target: int, intervalMs: int)
    requires target >= 1 && intervalMs >= 1
    ensures BatchSize(PerformanceSetup(target, intervalMs).logs, 1.064)
            == Max(1, 1064 * Max(1, 1064 * (target * intervalMs) / 1_000_000) / 1000)
  {
    PerformanceLogs(target, intervalMs);
    hide PerformanceBatch;
    Scaled(PerformanceBatch(target, intervalMs), 1.064, 1064, 1000);
  }

  /** A batch at a factor that is a fraction. */
  lemma Scaled(logs: int, f: real, part: int, whole: int)
    requires logs >= 0 && part >= 0 && whole > 0 && f * whole as real == part as real
    ensures BatchSize(logs, f) == Max(1, part * logs / whole)
  {
    var exact, product := logs as real * f, part * logs;
    Associate(logs as real, f, whole as real);
    assert product as real == part as real * logs as real;
    FloorOfQuotient(exact, product, whole);
  }

  lemma UltraStart(target: int)
    requires target >= 1
    ensures UltraSchedule.InitialLogs(target) == 1064 * (target / 100) / 1000
  {
    var tenth := target / 100;
    assert Quot(target * 10, 1000) == tenth;
    assert tenth as real * 1.064 == (1064 * tenth) as real / 1000.0;
    FloorOfFraction(1064 * tenth, 1000);
  }

  lemma RealtimeStart(target: int)
    requires target >= 1
    ensures Trunc(target as real * 0.01064) == 1064 * target / 100_000
  {
    assert target as real * 0.01064 == (1064 * target) as real / 100_000.0;
    FloorOfFraction(1064 * target, 100_000);
  }

  /** The batch each mode starts with, as its loop computes it. */
  function StartBatch(w: UDPWorker, mode: string): int {
    if w.targetEPS <= 0 then w.batchSize
    else if mode == "ultra" then UltraSchedule.InitialLogs(w.targetEPS)
    else if mode == "realtime" then w.RealtimeLogs()
    else if mode == "performance" then BatchSize(PerformanceSetup(w.targetEPS, w.IntervalMs()).logs, 1.064)
    else if mode == "high" then w.PreciseBatch()
    else BatchSize(MediumSetup(w.targetEPS).logs, 1.0)
  }

  /** A worker without a target would aim at 25,000 in the loops that want one. */
  lemma DefaultBatches(w: UDPWorker)
    requires w.targetEPS == 0
    ensures w.RealtimeLogs() == 266 && w.PreciseBatch() == if w.batchSize != 0 then w.batchSize else 250
  {
  }

  /** Every mode sends that many lines with every successful write until its first
      window is over. */
  method SendFirstWindow(w: UDPWorker, mode: string, ticks: seq<Tick>, start: real, supply: seq<Option<seq<string>>>)
    requires w.Valid() && GoodTicks(ticks)
    requires w.targetEPS > 0 && mode == "realtime" ==>
               |supply| == |ticks| + 1 && supply[0].Some? && UDPWorker.GoodSupply(supply, w.RealtimeLogs())
    requires forall i | 0 <= i < |ticks| - 1 :: !ticks[i].windowOver && ticks[i].now - start < 0.1
    modifies w, w.generator`timestampCache, w.generator.pool, w.generator.pool.data
    modifies w.epsCounts`index, w.epsCounts`samples, w.epsCounts.slots
    ensures w.Valid() && w.totalSent == old(w.totalSent) + Successes(ticks) * StartBatch(w, mode)
  {
    hide UDPWorker.Valid, UDPWorker.GoodSupply, GoodTicks, PerformanceSetup, MediumSetup, SentLines, Successes, BatchSize;
    hide UltraSchedule.UltraLines, UltraSchedule.InitialLogs, UDPWorker.RealtimeLogs, UDPWorker.PreciseBatch, UDPWorker.IntervalMs;
    w.SendLoop(mode, ticks, start, supply);
    var target, ms := w.targetEPS, w.IntervalMs();
    if target > 0 {
      if mode == "ultra" {
        UltraTuning.FirstUltraWindowLines(target, UltraSchedule.InitialLogs(target), start, ticks);
      } else if mode == "performance" {
        FirstWindowLines(PerformanceSetup(target, ms), 1.064, ticks);
      } else if mode != "realtime" && mode != "high" {
        FirstWindowLines(MediumSetup(target), 1.0, ticks);
      }
    }
  }

  /** The numbers. */
  lemma StartBatchIs(w: UDPWorker, mode: string)
    ensures var batch, target := StartBatch(w, mode), w.targetEPS;
            && (target > 0 && mode == "ultra" ==> batch == 1064 * (target / 100) / 1000)
            && (target > 0 && mode == "realtime" ==> batch == 1064 * target / 100_000)
            && (target > 0 && mode == "performance" ==>
                  var ms := if w.tickerInterval < 1000 then 10 else w.tickerInterval / 1000;
                  batch == Max(1, 1064 * Max(1, 1064 * (target * ms) / 1_000_000) / 1000))
            && (target > 0 && mode == "high" ==> batch == if w.batchSize != 0 then w.batchSize else Max(1, target / 100))
            && (target > 0 && mode !in {"ultra", "realtime", "performance", "high"} ==> batch == Max(1, target / 100))
            && (target <= 0 ==> batch == w.batchSize)
  {
    hide BatchSize, PerformanceSetup, MediumSetup, UltraSchedule.InitialLogs;
    var target := w.targetEPS;
    if target > 0 {
      UltraStart(target);
      RealtimeStart(target);
      PerformanceStart(target, w.IntervalMs());
      MediumStart(target);
    }
  }

  /** The lines of the batches each mode builds until its first window is over;
      every successful write adds them to the total. */
  method FirstWindow(w: UDPWorker, mode: string, ticks: seq<Tick>, start: real, supply: seq<Option<seq<string>>>)
    returns (batch: int)
    requires w.Valid() && GoodTicks(ticks)
    requires w.targetEPS > 0 && mode == "realtime" ==>
               |supply| == |ticks| + 1 && supply[0].Some? && UDPWorker.GoodSupply(supply, w.RealtimeLogs())
    requires forall i | 0 <= i < |ticks| - 1 :: !ticks[i].windowOver && ticks[i].now - start < 0.1
    modifies w, w.generator`timestampCache, w.generator.pool, w.generator.pool.data
    modifies w.epsCounts`index, w.epsCounts`samples, w.epsCounts.slots
    ensures w.Valid() && w.totalSent == old(w.totalSent) + Successes(ticks) * batch
    ensures w.targetEPS > 0 && mode == "ultra" ==> batch == 1064 * (w.targetEPS / 100) / 1000
    ensures w.targetEPS > 0 && mode == "realtime" ==> batch == 1064 * w.targetEPS / 100_000
    ensures w.targetEPS > 0 && mode == "performance" ==>
              var ms := if w.tickerInterval < 1000 then 10 else w.tickerInterval / 1000;
              batch == Max(1, 1064 * Max(1, 1064 * (w.targetEPS * ms) / 1_000_000) / 1000)
    ensures w.targetEPS > 0 && mode == "high" ==> batch == if w.batchSize != 0 then w.batchSize else Max(1, w.targetEPS / 100)
    ensures w.targetEPS > 0 && mode !in {"ultra", "realtime", "performance", "high"} ==> batch == Max(1, w.targetEPS / 100)
    ensures w.targetEPS <= 0 ==> batch == w.batchSize
  {
    hide UDPWorker.Valid, UDPWorker.GoodSupply, GoodTicks, StartBatch, Successes;
    SendFirstWindow(w, mode, ticks, start, supply);
    StartBatchIs(w, mode);
    batch := StartBatch(w, mode);
  }

  // ---- on target ----

  lemma NearIsWithin(target: int, tolerance: real, percent: int, m: nat, scale: int, b: int)
    requires target >= 1 && percent as real == 100.0 * tolerance
    ensures NearTarget(target, tolerance, m, scale, b) <==> Within(target, percent, m * b * scale)
  {
    var off := m * b * scale - target;
    assert (percent * target) as real == percent as real * target as real;
    assert percent as real * target as real == 100.0 * (tolerance * target as real);
  }

  /** What a loop's theorem says of the factor, said of the batch it builds next. */
  lemma NextBatchIff(u: Setup, m: nat, f: real, percent: int, low: int, high: int)
    requires u.Valid() && m >= 1 && percent as real == 100.0 * u.law.d
    requires low == BatchSize(u.logs, u.law.lo) && high == BatchSize(u.logs, u.law.hi)
    requires u.Plant(m).InBand(u.law, f) <==> SomeBatchNear(u, m)
    ensures Within(u.target, percent, m * BatchSize(u.logs, f) * u.scale)
            <==> exists b :: low <= b <= high && Within(u.target, percent, m * b * u.scale)
  {
    var next := BatchSize(u.logs, f);
    hide BatchSize, Within, NearTarget, Plant.RateOf, Law.Sound;
    OnTargetIsNear(u, m, next);
    NearIsWithin(u.target, u.law.d, percent, m, u.scale, next);
    forall b ensures NearTarget(u.target, u.law.d, m, u.scale, b) <==> Within(u.target, percent, m * b * u.scale) {
      NearIsWithin(u.target, u.law.d, percent, m, u.scale, b);
    }
  }

  /** The batch the medium loop builds after its windows. */
  lemma MediumBatchIff(target: int, windows: seq<seq<Tick>>, m: nat)
    requires target >= 1 && m >= 1 && |windows| >= 108
    requires forall i | 0 <= i < |windows| :: IsWindow(windows[i], m)
    ensures var u, base := MediumSetup(target), Max(1, target / 100);
            Within(target, 2, m * BatchSize(u.logs, Run(u, LoopState(1.0, 0), Concat(windows)).factor) * 5)
            <==> exists b :: Max(1, 7 * base / 10) <= b <= Max(1, 13 * base / 10) && Within(target, 2, m * b * 5)
  {
    var u := MediumSetup(target);
    MediumEndsOnTargetIff(target, 1.0, windows, m);
    Scaled(u.logs, 0.7, 7, 10);
    Scaled(u.logs, 1.3, 13, 10);
    hide Run, Concat, IsWindow, BatchSize, Within, SomeBatchNear, Plant.InBand;
    NextBatchIff(u, m, Run(u, LoopState(1.0, 0), Concat(windows)).factor, 2, BatchSize(u.logs, 0.7), BatchSize(u.logs, 1.3));
  }

  /** The batch the performance loop builds after its windows. */
  lemma PerformanceBatchIff(target: int, intervalMs: int, windows: seq<seq<Tick>>, m: nat)
    requires target >= 1 && intervalMs >= 1 && m >= 1 && |windows| >= 600
    requires forall i | 0 <= i < |windows| :: IsWindow(windows[i], m)
    ensures var u, base := PerformanceSetup(target, intervalMs), Max(1, 1064 * (target * intervalMs) / 1_000_000);
            Within(target, 1, m * BatchSize(u.logs, Run(u, LoopState(1.064, 0), Concat(windows)).factor) * 10)
            <==> exists b :: Max(1, base / 2) <= b <= 2 * base && Within(target, 1, m * b * 10)
  {
    var u := PerformanceSetup(target, intervalMs);
    PerformanceEndsOnTargetIff(target, intervalMs, 1.064, windows, m);
    PerformanceLogs(target, intervalMs);
    Scaled(u.logs, 0.5, 1, 2);
    Scaled(u.logs, 2.0, 2, 1);
    hide Run, Concat, IsWindow, BatchSize, Within, SomeBatchNear, Plant.InBand, PerformanceBatch;
    NextBatchIff(u, m, Run(u, LoopState(1.064, 0), Concat(windows)).factor, 1, BatchSize(u.logs, 0.5), BatchSize(u.logs, 2.0));
  }

  /** The measured rate of `m` batches of `b` lines in `elapsed` seconds is within
      one percent of the target. */
  predicate UltraNear(target: int, m: nat, elapsed: real, b: int) {
    0.99 * (target as real * elapsed) <= m as real * b as real <= 1.01 * (target as real * elapsed)
  }

  lemma UltraNearIff(target: int, m: nat, elapsed: real, worth: real, b: int)
    requires elapsed > 0.0 && worth * elapsed == m as real
    ensures UltraTuning.OnTarget(target, worth, b) <==> UltraNear(target, m, elapsed, b)
  {
    var rate, t := UltraTuning.Rate(worth, b), target as real;
    Associate(worth, b as real, elapsed);
    Associate(worth, elapsed, b as real);
    assert rate * elapsed == m as real * b as real;
    TimesAtMost(0.99 * t, rate, elapsed, 0.99 * (t * elapsed));
    TimesAtMost(-1.01 * t, -rate, elapsed, -1.01 * (t * elapsed));
  }

  /** The batch the ultra loop builds after its windows. */
  lemma UltraBatchIff(target: int, begin: real, elapsed: real, m: nat, windows: seq<seq<Tick>>)
    requires target >= 1 && elapsed >= 0.1 && m >= 1 && UltraTuning.AreUltraWindows(windows, begin, elapsed, m)
    requires 1064 * (target / 100) / 1000 <= |windows| && target as real * elapsed <= m as real * |windows| as real
    ensures var initial := UltraSchedule.InitialLogs(target);
            var r := UltraSchedule.UltraRun(target, UltraSchedule.UltraState(initial, 0, begin), Concat(windows)).logs;
            && initial == 1064 * (target / 100) / 1000
            && (UltraNear(target, m, elapsed, r)
                <==> exists b :: UltraNear(target, m, elapsed, b) && (initial >= 100 || b <= initial))
  {
    hide UltraSchedule.UltraRun, UltraTuning.AreUltraWindows, UltraTuning.OnTarget, UltraTuning.Rate, UltraNear;
    hide Concat, UltraSchedule.InitialLogs;
    var worth, initial := m as real / elapsed, UltraSchedule.InitialLogs(target);
    assert worth * elapsed == m as real;
    UltraStart(target);
    Enough(target as real, elapsed, worth, |windows|, m as real);
    UltraTuning.UltraLoopEndsOnTargetIff(target, begin, elapsed, m, windows);
    forall b ensures UltraTuning.OnTarget(target, worth, b) <==> UltraNear(target, m, elapsed, b) {
      UltraNearIff(target, m, elapsed, worth, b);
    }
  }

  lemma Enough(target: real, elapsed: real, worth: real, n: nat, m: real)
    requires elapsed > 0.0 && worth * elapsed == m && target * elapsed <= m * n as real
    ensures target <= UltraTuning.Rate(worth, n)
  {
    Associate(worth, n as real, elapsed);
    Associate(worth, elapsed, n as real);
    TimesAtMost(target, worth * n as real, elapsed, target * elapsed);
  }

  // ---- the worker ----

  lemma LastOf(windows: seq<seq<Tick>>, t: Tick)
    ensures var ticks := Concat(windows) + [t]; ticks != [] && ticks[..|ticks| - 1] == Concat(windows)
  {
  }

  /** A worker given a rate, or 25,000 if it was given none, runs the medium loop
      through 108 windows or more of `m` successful writes. What the batches it
      builds next send is within two percent of that rate if and only if some batch
      between seven tenths and thirteen tenths of a hundredth of it would be. */
  method MediumWorkerEndsOnTarget(w: UDPWorker, windows: seq<seq<Tick>>, m: nat, t: Tick)
    requires w.Valid() && w.targetEPS >= 0 && GoodTicks(Concat(windows) + [t])
    requires m >= 1 && |windows| >= 108 && forall i | 0 <= i < |windows| :: IsWindow(windows[i], m)
    modifies w, w.generator`timestampCache, w.generator.pool, w.generator.pool.data
    modifies w.epsCounts`index, w.epsCounts`samples, w.epsCounts.slots
    ensures w.Valid()
    ensures var target := if w.targetEPS == 0 then 25_000 else w.targetEPS;
            var base := Max(1, target / 100);
            Within(target, 2, m * |w.batchBuffer| * 5)
            <==> exists b :: Max(1, 7 * base / 10) <= b <= Max(1, 13 * base / 10) && Within(target, 2, m * b * 5)
  {
    hide UDPWorker.Valid, GoodTicks, Run, Concat, IsWindow, Within, MediumSetup, BatchSize, SentLines;
    LastOf(windows, t);
    var _ := w.SendLoopMedium(Concat(windows) + [t]);
    MediumBatchIff(w.Target(25000), windows, m);
  }

  /** The same for the performance loop: 600 windows, one percent, and batches
      between half and twice the nominal one. */
  method PerformanceWorkerEndsOnTarget(w: UDPWorker, windows: seq<seq<Tick>>, m: nat, t: Tick)
    requires w.Valid() && w.targetEPS >= 0 && GoodTicks(Concat(windows) + [t])
    requires m >= 1 && |windows| >= 600 && forall i | 0 <= i < |windows| :: IsWindow(windows[i], m)
    modifies w, w.generator`timestampCache, w.generator.pool, w.generator.pool.data
    modifies w.epsCounts`index, w.epsCounts`samples, w.epsCounts.slots
    ensures w.Valid()
    ensures var target := if w.targetEPS == 0 then 25_000 else w.targetEPS;
            var ms := if w.tickerInterval < 1000 then 10 else w.tickerInterval / 1000;
            var base := Max(1, 1064 * (target * ms) / 1_000_000);
            Within(target, 1, m * |w.batchBuffer| * 10)
            <==> exists b :: Max(1, base / 2) <= b <= 2 * base && Within(target, 1, m * b * 10)
  {
    hide UDPWorker.Valid, GoodTicks, Run, Concat, IsWindow, Within, PerformanceSetup, BatchSize, SentLines;
    LastOf(windows, t);
    var _ := w.SendLoopPerformance(Concat(windows) + [t]);
    PerformanceBatchIff(w.Target(25000), w.IntervalMs(), windows, m);
  }

  /** And for the ultra loop, over enough windows of equal length: any batch will do
      that is no larger than the first, when that has less than a hundred lines. */
  method UltraWorkerEndsOnTarget(w: UDPWorker, start: real, elapsed: real, windows: seq<seq<Tick>>, m: nat, t: Tick)
    requires w.Valid() && w.targetEPS >= 0 && GoodTicks(Concat(windows) + [t])
    requires elapsed >= 0.1 && m >= 1 && UltraTuning.AreUltraWindows(windows, start, elapsed, m)
    requires var target := if w.targetEPS == 0 then 25_000 else w.targetEPS;
             1064 * (target / 100) / 1000 <= |windows| && target as real * elapsed <= m as real * |windows| as real
    modifies w, w.generator`timestampCache, w.generator.pool, w.generator.pool.data
    ensures w.Valid()
    ensures var target := if w.targetEPS == 0 then 25_000 else w.targetEPS;
            var initial := 1064 * (target / 100) / 1000;
            UltraNear(target, m, elapsed, |w.batchBuffer|)
            <==> exists b :: UltraNear(target, m, elapsed, b) && (initial >= 100 || b <= initial)
  {
    hide UDPWorker.Valid, GoodTicks, Concat, UltraTuning.AreUltraWindows, UltraNear, UltraSchedule.InitialLogs;
    hide UltraSchedule.UltraRun, UltraSchedule.UltraLines;
    LastOf(windows, t);
    var _ := w.SendLoopUltra(Concat(windows) + [t], start);
    UltraBatchIff(w.Target(25000), start, elapsed, m, windows);
  }

  /** The main loop does so in the mode that asks for it. */
  method ModeEndsOnTarget(w: UDPWorker, mode: string, windows: seq<seq<Tick>>, m: nat, t: Tick)
    requires w.Valid() && w.targetEPS >= 1 && GoodTicks(Concat(windows) + [t])
    requires mode !in {"ultra", "realtime", "high"}
    requires m >= 1 && |windows| >= 600 && forall i | 0 <= i < |windows| :: IsWindow(windows[i], m)
    modifies w, w.generator`timestampCache, w.generator.pool, w.generator.pool.data
    modifies w.epsCounts`index, w.epsCounts`samples, w.epsCounts.slots
    ensures w.Valid()
    ensures mode == "performance" ==>
              var ms := if w.tickerInterval < 1000 then 10 else w.tickerInterval / 1000;
              var base := Max(1, 1064 * (w.targetEPS * ms) / 1_000_000);
              (Within(w.targetEPS, 1, m * |w.batchBuffer| * 10)
               <==> exists b :: Max(1, base / 2) <= b <= 2 * base && Within(w.targetEPS, 1, m * b * 10))
    ensures mode != "performance" ==>
              var base := Max(1, w.targetEPS / 100);
              (Within(w.targetEPS, 2, m * |w.batchBuffer| * 5)
               <==> exists b :: Max(1, 7 * base / 10) <= b <= Max(1, 13 * base / 10) && Within(w.targetEPS, 2, m * b * 5))
  {
    hide UDPWorker.Valid, GoodTicks, Run, Concat, IsWindow, Within, MediumSetup, PerformanceSetup, BatchSize, SentLines;
    LastOf(windows, t);
    w.SendLoop(mode, Concat(windows) + [t], 0.0, []);
    if mode == "performance" {
      PerformanceBatchIff(w.targetEPS, w.IntervalMs(), windows, m);
    } else {
      MediumBatchIff(w.targetEPS, windows, m);
    }
  }
}
