/** When every datagram a worker can build fits into one IPv4 UDP payload: the
    tables bound a line, the framing bounds a batch, the controller bounds the
    batch size, and the profiles bound the target. */
module DatagramBound {
  import opened Arithmetic
  import opened Common
  import opened Framing
  import opened RateControl
  import opened FeedbackLoop
  import opened LoopTuning
  import opened UdpWorker
  import opened Profiles
  import opened EpsRing
  import SyslogGenerator
  import SyslogLine
  import P = WorkerPool

  /** 65,535 bytes less the 20 of the IPv4 header and the 8 of the UDP header. */
  const MAX_PAYLOAD := 65_507

  /** Every batch of up to `most` generated lines fits into one payload. */
  ghost predicate AlwaysFits(most: nat) {
    forall batch: seq<string> | batch != [] && |batch| <= most && GoodBatch(batch) :: |Join(batch)| <= MAX_PAYLOAD
  }

  /** A batch of `n` lines the generator can print, each as long as a line can be. */
  lemma LongestBatch(n: nat, t: string) returns (batch: seq<string>, c: SyslogLine.Choice)
    requires n >= 1 && SyslogLine.IsTimestamp(t) && |t| == TIMESTAMP_WIDTH
    ensures |batch| == n && GoodBatch(batch) && |Join(batch)| == n * (LINE_WIDTH + 1) - 1
    ensures c.Valid() && forall i | 0 <= i < n :: batch[i] == SyslogLine.Line(c, t)
  {
    hide Join, IsLine, PrintedAt, IsPrinted, SyslogLine.IsTimestamp, SyslogLine.Line, SyslogLine.Choice.Valid;
    c := LongestIsGood(t);
    var line := SyslogLine.Line(c, t);
    batch := seq(n, i => line);
    JoinLengthExact(batch, LINE_WIDTH);
  }

  lemma LongestIsGood(t: string) returns (c: SyslogLine.Choice)
    requires SyslogLine.IsTimestamp(t) && |t| == TIMESTAMP_WIDTH
    ensures c.Valid()
    ensures var line := SyslogLine.Line(c, t); IsLine(line) && |line| == LINE_WIDTH && PrintedAt(line, t) && IsPrinted(line)
  {
    hide IsLine, PrintedAt, IsPrinted, SyslogLine.IsTimestamp, SyslogLine.Line, SyslogLine.Choice.Valid;
    c := SyslogLine.LongestLine(t);
    UDPWorker.LineIsGood(SyslogLine.Line(c, t), c, t);
  }

  /** 569 lines are exactly as many as always fit. */
  lemma FitsIff(most: nat)
    ensures AlwaysFits(most) <==> most <= 569
  {
    if most <= 569 {
      forall batch: seq<string> | batch != [] && |batch| <= most && GoodBatch(batch)
        ensures |Join(batch)| <= MAX_PAYLOAD
      {
        JoinLength(batch, LINE_WIDTH);
      }
    } else {
      var t := seq(TIMESTAMP_WIDTH, i => 'T');
      var batch, c := LongestBatch(570, t);
      assert |Join(batch)| == 65_549;
    }
  }

  /** The medium loop's datagrams always fit exactly for targets of up to 43,899
      logs per second and worker. */
  lemma MediumFitsIff(target: int)
    requires target >= 1
    ensures AlwaysFits(BatchSize(MediumSetup(target).logs, MEDIUM.hi)) <==> target <= 43_899
  {
    hide AlwaysFits;
    FitsIff(BatchSize(MediumSetup(target).logs, MEDIUM.hi));
  }

  /** The performance loop's, whatever its ticker, exactly while the target times
      the interval in milliseconds is at most 267,857. */
  lemma PerformanceFitsIff(target: int, intervalMs: int)
    requires target >= 1 && intervalMs >= 1
    ensures AlwaysFits(BatchSize(PerformanceSetup(target, intervalMs).logs, PERFORMANCE.hi)) <==> target * intervalMs <= 267_857
  {
    var u, product := PerformanceSetup(target, intervalMs), target * intervalMs;
    FitsIff(BatchSize(u.logs, PERFORMANCE.hi));
    hide AlwaysFits;
    assert BatchSize(u.logs, 2.0) == 2 * u.logs;
    assert product as real / 1000.0 * 1.064 == product as real * 0.001064;
  }

  // ---- a run that exceeds the payload ----

  /** A factor raised by the largest step. */
  function RaisedOnce(law: Law, f: real): real {
    Clamp(f * (1.0 + law.c), law.lo, law.hi)
  }

  /** A window without a successful write raises the factor by the largest step. */
  lemma FailedWindow(u: Setup, f: real)
    requires u.Valid() && u.law.c <= u.law.k
    ensures u.Plant(0).Window(u.law, f) == RaisedOnce(u.law, f)
  {
    var b := BatchSize(u.logs, f);
    hide BatchSize, Clamp;
    NothingMeasured(u.Plant(0).quantum, b as real, u.scale as real, u.target as real);
    FailedStep(u.law);
  }

  lemma NothingMeasured(quantum: real, b: real, scale: real, target: real)
    requires target > 0.0 && quantum == 0.0 * scale / target
    ensures quantum * b == 0.0
  {
  }

  lemma FailedStep(law: Law)
    requires law.Sound() && law.c <= law.k
    ensures Step(law, -1.0) == law.c
  {
  }

  /** The factor after `n` such windows. */
  function Raised(law: Law, f: real, n: nat): real
    decreases n
  {
    if n == 0 then f else Raised(law, RaisedOnce(law, f), n - 1)
  }

  lemma {:induction false} FailedWindows(u: Setup, f: real, n: nat)
    requires u.Valid() && u.law.c <= u.law.k
    ensures u.Plant(0).Windows(u.law, f, n) == Raised(u.law, f, n)
    decreases n
  {
    hide Plant.Window, RaisedOnce;
    if n > 0 {
      FailedWindow(u, f);
      FailedWindows(u, RaisedOnce(u.law, f), n - 1);
    }
  }

  lemma {:induction false} StaysAtLimit(law: Law, n: nat)
    requires law.Sound()
    ensures Raised(law, law.hi, n) == law.hi
  {
    if n > 0 {
      Scale(law.hi, 1.0, 1.0 + law.c);
      StaysAtLimit(law, n - 1);
    }
  }

  lemma MediumReachesItsLimit(n: nat)
    requires n >= 4
    ensures Raised(MEDIUM, 1.0, n) == MEDIUM.hi
  {
    assert Raised(MEDIUM, 1.0, n) == Raised(MEDIUM, 1.08, n - 1);
    assert Raised(MEDIUM, 1.08, n - 1) == Raised(MEDIUM, 1.1664, n - 2);
    assert Raised(MEDIUM, 1.1664, n - 2) == Raised(MEDIUM, 1.259712, n - 3);
    StaysAtLimit(MEDIUM, n - 4);
  }

  lemma PerformanceReachesItsLimit(n: nat)
    requires n >= 7
    ensures Raised(PERFORMANCE, 1.064, n) == PERFORMANCE.hi
  {
    assert Raised(PERFORMANCE, 1.064, n) == Raised(PERFORMANCE, 1.1704, n - 1);
    assert Raised(PERFORMANCE, 1.1704, n - 1) == Raised(PERFORMANCE, 1.28744, n - 2);
    assert Raised(PERFORMANCE, 1.28744, n - 2) == Raised(PERFORMANCE, 1.416184, n - 3);
    assert Raised(PERFORMANCE, 1.416184, n - 3) == Raised(PERFORMANCE, 1.5578024, n - 4);
    assert Raised(PERFORMANCE, 1.5578024, n - 4) == Raised(PERFORMANCE, 1.71358264, n - 5);
    assert Raised(PERFORMANCE, 1.71358264, n - 5) == Raised(PERFORMANCE, 1.884940904, n - 6);
    StaysAtLimit(PERFORMANCE, n - 7);
  }

  /** Lines the generator can print, `n` of them. */
  ghost predicate Printed(batch: seq<string>, n: int, c: SyslogLine.Choice, t: string) {
    && |batch| == n && c.Valid() && SyslogLine.IsTimestamp(t) && |t| == TIMESTAMP_WIDTH
    && forall i | 0 <= i < |batch| :: batch[i] == SyslogLine.Line(c, t)
  }

  /** A batch of `n` printed lines need not fit into one payload. */
  ghost predicate CanExceed(n: int) {
    exists batch, c, t :: Printed(batch, n, c, t) && |Join(batch)| > MAX_PAYLOAD
  }

  lemma CanExceedIff(n: int)
    requires n >= 1
    ensures CanExceed(n) <==> n > 569
  {
    hide Join, SyslogLine.Line, SyslogLine.IsTimestamp;
    if n > 569 {
      var t := seq(TIMESTAMP_WIDTH, i => 'T');
      PlainTimestamp(t);
      var batch, c := LongestBatch(n, t);
      assert Printed(batch, n, c, t);
    }
    forall batch, c, t | Printed(batch, n, c, t) ensures n <= 569 ==> |Join(batch)| <= MAX_PAYLOAD {
      PrintedLength(batch, n, c, t);
    }
  }

  lemma PrintedLength(batch: seq<string>, n: int, c: SyslogLine.Choice, t: string)
    requires Printed(batch, n, c, t) && n >= 1
    ensures |Join(batch)| <= n * (LINE_WIDTH + 1) - 1
  {
    hide Join, SyslogLine.Line, SyslogLine.Parse, SyslogLine.Itoa, SyslogLine.Atoi;
    SyslogLine.GeneratedLine(c, t);
    JoinLength(batch, LINE_WIDTH);
  }

  lemma PlainTimestamp(t: string)
    requires forall i | 0 <= i < |t| :: t[i] == 'T'
    ensures SyslogLine.IsTimestamp(t)
  {
  }

  /** Windows of any length, in none of which a write succeeds. */
  predicate AllFail(windows: seq<seq<Tick>>) {
    forall i | 0 <= i < |windows| :: IsWindow(windows[i], 0)
  }

  /** The batch a loop builds after these windows. */
  function BatchAfter(u: Setup, start: real, windows: seq<seq<Tick>>): int
    requires u.Valid()
  {
    BatchSize(u.logs, Run(u, LoopState(start, 0), Concat(windows)).factor)
  }

  /** The bounds are reached in runs: a target above them and four windows, of
      whatever ticks, whose writes all fail are enough. */
  lemma MediumExceedsIff(target: int, windows: seq<seq<Tick>>)
    requires target >= 1 && |windows| >= 4 && AllFail(windows)
    ensures CanExceed(BatchAfter(MediumSetup(target), 1.0, windows)) <==> target > 43_899
  {
    var u := MediumSetup(target);
    RunWindows(u, 1.0, windows, 0);
    FailedWindows(u, 1.0, |windows|);
    MediumReachesItsLimit(|windows|);
    hide Run, Raised, CanExceed, Plant.Windows, Concat, AllFail;
    CanExceedIff(BatchAfter(u, 1.0, windows));
  }

  /** For the performance loop seven such windows are. */
  lemma PerformanceExceedsIff(target: int, intervalMs: int, windows: seq<seq<Tick>>)
    requires target >= 1 && intervalMs >= 1 && |windows| >= 7 && AllFail(windows)
    ensures CanExceed(BatchAfter(PerformanceSetup(target, intervalMs), 1.064, windows)) <==> target * intervalMs > 267_857
  {
    var u := PerformanceSetup(target, intervalMs);
    RunWindows(u, 1.064, windows, 0);
    FailedWindows(u, 1.064, |windows|);
    PerformanceReachesItsLimit(|windows|);
    hide Run, Raised, CanExceed, Plant.Windows, Concat, AllFail, AlwaysFits;
    PerformanceFitsIff(target, intervalMs);
    FitsIff(BatchSize(u.logs, PERFORMANCE.hi));
    CanExceedIff(BatchAfter(u, 1.064, windows));
  }

  /** Every predefined profile keeps its datagrams within the payload: the
      performance ones at the largest factor, the fixed-batch ones as they are. */
  lemma ProfilesFit(name: string)
    requires name in EPS_PROFILES && name != "custom"
    ensures var p := EPS_PROFILES[name];
            && (p.precisionMode == "performance" ==>
                  p.tickerInterval / 1000 == 10
                  && AlwaysFits(BatchSize(PerformanceSetup(WorkerShare(p.targetEPS, p.workerCount), 10).logs, PERFORMANCE.hi)))
            && (p.precisionMode == "high" ==> AlwaysFits(p.batchSize))
            && p.precisionMode in {"high", "performance"}
  {
    var p := EPS_PROFILES[name];
    if p.precisionMode == "performance" {
      assert WorkerShare(p.targetEPS, p.workerCount) == 25_000;
      PerformanceFitsIff(25_000, 10);
    } else {
      FitsIff(p.batchSize);
    }
  }

  /** A custom profile keeps its datagrams within the payload, on any machine,
      exactly while the target is below 43,900 per worker it gets. */
  lemma CustomProfileFitsIff(target: int, cores: int)
    requires target >= 1 && cores >= 1 && WorkerShare(target, WorkerCount(target, cores)) >= 1
    ensures AlwaysFits(BatchSize(MediumSetup(WorkerShare(target, WorkerCount(target, cores))).logs, MEDIUM.hi))
            <==> target < 43_900 * WorkerCount(target, cores)
  {
    var workers := WorkerCount(target, cores);
    MediumFitsIff(WorkerShare(target, workers));
    QuotientBelow(target, workers, 43_900);
  }

  /** That is every target of up to five million on 20 cores or more. */
  lemma CustomProfileFits(target: int, cores: int, workers: int)
    requires 1 <= target <= 5_000_000 && cores >= 20
    requires workers == WorkerCount(target, cores)
    requires WorkerShare(target, workers) >= 1
    ensures AlwaysFits(BatchSize(MediumSetup(WorkerShare(target, workers)).logs, MEDIUM.hi))
  {
    ShareBounded(target, cores, workers);
    MediumFitsIff(WorkerShare(target, workers));
  }

  /** The theorem about a running worker: after any run of the medium loop at a
      target of at most 43,899, every datagram that went out fits, splits into the
      batch it was built from, and was counted line by line. */
  method MediumWorker(target: int, now: real, timestamp: string, ticks: seq<Tick>) returns (w: UDPWorker)
    requires 1 <= target <= 43_899 && GoodTicks(ticks)
    requires SyslogLine.IsTimestamp(timestamp) && |timestamp| <= TIMESTAMP_WIDTH
    ensures w.Valid()
    ensures forall i | 0 <= i < |w.wire| :: |w.wire[i]| <= MAX_PAYLOAD && Split(w.wire[i]) == w.sent[i]
    ensures w.totalSent == ReceivedTotal(w.wire) && w.errorCount == 0
    ensures |w.failed| == |ticks| - Successes(ticks)
  {
    hide SyslogLine.IsTimestamp, GoodTicks, Successes, Run, GoodBatch, Join, Split, ReceivedTotal, LineTotal;
    hide SyslogGenerator.SystemLogGenerator.Valid, Ring.Valid;
    w := new UDPWorker(1, 10, target, now, timestamp);
    var s := w.SendLoopMedium(ticks);
    var most := BatchSize(MediumSetup(target).logs, MEDIUM.hi);
    assert most <= 569;
    w.WireBounded(most);
    w.Delivered();
  }

  // ---- the workers of a pool ----

  /** A worker whose loop can build no datagram that is too large: a fixed batch that
      fits, or a performance loop whose largest batch fits at its own rate and interval. */
  ghost predicate BuildsWhatFits(w: P.WorkerSetup) {
    && w.targetEPS >= 1 && w.batchSize >= 1 && w.tickerInterval >= 1000
    && ((w.precisionMode == "high" && AlwaysFits(w.batchSize))
        || (w.precisionMode == "performance" && w.tickerInterval / 1000 == 10
            && AlwaysFits(BatchSize(PerformanceSetup(w.targetEPS, w.tickerInterval / 1000).logs, PERFORMANCE.hi))))
  }

  /** The workers that a predefined profile gives a pool, all or the first ones. */
  method ProfilePool(name: string, targetHost: string, sockets: nat) returns (pool: P.WorkerPool, ok: bool)
    requires name in EPS_PROFILES && name != "custom"
    ensures fresh(pool) && ok == (EPS_PROFILES[name].workerCount <= sockets)
    ensures |pool.workers| == if ok then EPS_PROFILES[name].workerCount else sockets
    ensures forall i | 0 <= i < |pool.workers| :: BuildsWhatFits(pool.workers[i]) && pool.workers[i].targetHost == targetHost
  {
    pool := new P.WorkerPool(targetHost, EPS_PROFILES[name]);
    ok := pool.Initialize(sockets);
    forall i | 0 <= i < |pool.workers| ensures BuildsWhatFits(pool.workers[i]) && pool.workers[i].targetHost == targetHost {
      assert pool.workers[0..] == pool.workers;
      assert pool.IsSetUp(pool.workers[i], i);
      ProfileWorkerFits(name, pool, pool.workers[i], i);
    }
  }

  lemma ProfileWorkerFits(name: string, pool: P.WorkerPool, w: P.WorkerSetup, i: nat)
    requires name in EPS_PROFILES && name != "custom" && pool.profile == EPS_PROFILES[name] && pool.IsSetUp(w, i)
    ensures BuildsWhatFits(w)
  {
    var k := PlaceOf(name);
    ProfileNumbers(k);
    SetupNumbers(pool, w, i, if k < 2 then 10_000 else 25_000);
    hide AlwaysFits, P.WorkerPool.IsSetUp;
    if k < 2 {
      FitsIff(w.batchSize);
    } else {
      PerformanceFitsIff(w.targetEPS, 10);
    }
  }

  lemma PlaceOf(name: string) returns (k: nat)
    requires name in EPS_PROFILES && name != "custom"
    ensures k < |PROFILE_ORDER| && PROFILE_ORDER[k] == name
  {
    k := if name == "100k" then 0 else if name == "500k" then 1 else if name == "1m" then 2 else if name == "2m" then 3 else 4;
  }

  lemma SetupNumbers(pool: P.WorkerPool, w: P.WorkerSetup, i: nat, share: int)
    requires pool.IsSetUp(w, i) && 1 <= pool.profile.workerCount <= 200 && share >= 0
    requires pool.profile.workerCount * share == pool.profile.targetEPS
    ensures w.targetEPS == share && w.batchSize == pool.profile.batchSize
    ensures w.tickerInterval == pool.profile.tickerInterval && w.precisionMode == pool.profile.precisionMode
  {
    OnlyShare(pool.profile.workerCount, share, w.targetEPS);
  }

  lemma OnlyShare(n: int, share: int, x: int)
    requires n >= 1 && share >= 0 && n * x <= n * share < n * x + n
    ensures x == share
  {
    if x < share {
      Below(n, x + 1, share);
    } else if x > share {
      Below(n, share + 1, x);
    }
  }

  lemma Below(n: int, x: int, y: int)
    requires n >= 1 && x <= y
    ensures n * x <= n * y
  {
  }

  /** The largest batch of such a worker. */
  function MostLines(w: P.WorkerSetup): nat
    requires w.batchSize >= 0 && w.targetEPS >= 1
  {
    if w.precisionMode == "high" then w.batchSize
    else BatchSize(PerformanceSetup(w.targetEPS, w.tickerInterval / 1000).logs, PERFORMANCE.hi)
  }

  method RunSetup(setup: P.WorkerSetup, now: real, timestamp: string, ticks: seq<Tick>, start: real) returns (w: UDPWorker)
    requires setup.targetEPS >= 1 && setup.batchSize >= 1 && setup.tickerInterval >= 1000 && GoodTicks(ticks)
    requires setup.precisionMode in {"high", "performance"}
    requires SyslogLine.IsTimestamp(timestamp) && |timestamp| <= TIMESTAMP_WIDTH
    ensures w.Valid() && forall i | 0 <= i < |w.sent| :: |w.sent[i]| <= MostLines(setup)
    ensures setup.precisionMode == "high" ==> w.totalSent == setup.batchSize * Successes(ticks)
  {
    hide PerformanceBatch, BatchSize, SentLines, SyslogLine.IsTimestamp, GoodTicks, Successes, Run, GoodBatch, Join;
    hide SyslogGenerator.SystemLogGenerator.Valid, ReceivedTotal, LineTotal, Ring.Valid;
    w := new UDPWorker(setup.batchSize, setup.tickerInterval, setup.targetEPS, now, timestamp);
    assert w.sent == [];
    hide UDPWorker.Valid;
    w.SendLoop(setup.precisionMode, ticks, start, []);
  }

  /** Such a worker, once it exists, sends nothing that is too large, whatever run its
      main loop makes in its mode; what it sent splits and was counted. */
  method RunWorker(setup: P.WorkerSetup, now: real, timestamp: string, ticks: seq<Tick>, start: real) returns (w: UDPWorker)
    requires BuildsWhatFits(setup) && GoodTicks(ticks)
    requires SyslogLine.IsTimestamp(timestamp) && |timestamp| <= TIMESTAMP_WIDTH
    ensures w.Valid() && |w.wire| == |w.sent|
    ensures forall i | 0 <= i < |w.wire| :: |w.wire[i]| <= MAX_PAYLOAD && Split(w.wire[i]) == w.sent[i]
    ensures w.totalSent == ReceivedTotal(w.wire)
    ensures setup.precisionMode == "high" ==> w.totalSent == setup.batchSize * Successes(ticks)
  {
    hide AlwaysFits, SyslogLine.IsTimestamp, GoodTicks, Successes, Join, Split, ReceivedTotal, BatchSize, PerformanceBatch;
    w := RunSetup(setup, now, timestamp, ticks, start);
    FitsIff(MostLines(setup));
    hide MostLines;
    w.WireBounded(MostLines(setup));
    w.Delivered();
  }
}
