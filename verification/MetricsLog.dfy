/** The log of metric samples: what the rates published between samples add up to,
    and what remains of the log in a bounded history. */
module MetricsLog {
  import opened Common
  import opened Aggregation
  import opened Arithmetic

  /** One sample, as the collector stores it. Times are in seconds. */
  datatype PerformanceMetrics = PerformanceMetrics(
    currentEPS: int, totalSent: int, totalErrors: int, packetLoss: real,
    activeWorkers: int, totalWorkers: int, timestamp: real, targetEPS: int,
    consistencyScore: real, workerDetails: seq<WorkerMetric>)

  // ---- rates between samples ----

  /** The rate from one sample to the next before it is truncated. */
  function Rate(prev: PerformanceMetrics, total: int, now: real): real {
    if prev.totalSent > 0 && now - prev.timestamp > 0.0
    then (total - prev.totalSent) as real / (now - prev.timestamp)
    else 0.0
  }

  /** The rate published with the next sample. */
  function NextRate(log: seq<PerformanceMetrics>, total: int, now: real): int {
    if log == [] then 0 else Trunc(Rate(log[|log| - 1], total, now))
  }

  /** Every sample carries the rate since the one before it. */
  predicate IsLog(log: seq<PerformanceMetrics>) {
    forall i | 0 <= i < |log| :: log[i].currentEPS == NextRate(log[..i], log[i].totalSent, log[i].timestamp)
  }

  function Rates(log: seq<PerformanceMetrics>): seq<int> {
    seq(|log|, i requires 0 <= i < |log| => log[i].currentEPS)
  }

  /** What a rate amounts to in a number of seconds. */
  function Over(rate: real, seconds: real): real { seconds * rate }

  /** The exact rates, each times the seconds it stands for. */
  function Measured(log: seq<PerformanceMetrics>): real {
    if |log| < 2 then 0.0
    else
      var n := |log| - 1;
      Measured(log[..n])
      + Over(Rate(log[n - 1], log[n].totalSent, log[n].timestamp), log[n].timestamp - log[n - 1].timestamp)
  }

  /** The published rates, each times the seconds it stands for. */
  function Published(log: seq<PerformanceMetrics>): real {
    if |log| < 2 then 0.0
    else
      var n := |log| - 1;
      Published(log[..n]) + Over(log[n].currentEPS as real, log[n].timestamp - log[n - 1].timestamp)
  }

  /** Time moves on from sample to sample, and the total does not fall. */
  predicate Growing(log: seq<PerformanceMetrics>) {
    && (forall i | 0 <= i < |log| :: log[i].totalSent >= 0)
    && (forall i, j | 0 <= i < j < |log| ::
          log[i].timestamp < log[j].timestamp && log[i].totalSent <= log[j].totalSent)
  }

  /** The first positive total, from which on rates are published. */
  function FirstPositive(log: seq<PerformanceMetrics>): int {
    if log == [] then 0
    else if FirstPositive(log[..|log| - 1]) > 0 then FirstPositive(log[..|log| - 1])
    else if log[|log| - 1].totalSent > 0 then log[|log| - 1].totalSent
    else 0
  }

  lemma {:induction false} FirstPositiveSeen(log: seq<PerformanceMetrics>)
    requires log != [] && Growing(log)
    ensures FirstPositive(log) > 0 <==> log[|log| - 1].totalSent > 0
    ensures FirstPositive(log) >= 0
  {
    var n := |log| - 1;
    if n > 0 {
      FirstPositiveSeen(log[..n]);
      assert log[n - 1].totalSent <= log[n].totalSent;
    } else {
      assert log[..n] == [];
    }
  }

  lemma RateTimesDuration(x: real, dt: real)
    requires dt > 0.0
    ensures Over(x / dt, dt) == x
  {
  }

  /** The rates telescope: multiplied by their durations they add up to what was
      sent between the first positive total and the last one. */
  lemma {:induction false} Telescopes(log: seq<PerformanceMetrics>)
    requires log != [] && Growing(log)
    ensures Measured(log) == (log[|log| - 1].totalSent - FirstPositive(log)) as real
  {
    var n := |log| - 1;
    if n == 0 {
      assert log[..n] == [];
    } else {
      var a, b := log[n - 1], log[n];
      Telescopes(log[..n]);
      FirstPositiveSeen(log[..n]);
      assert a.timestamp < b.timestamp && a.totalSent <= b.totalSent;
      RateTimesDuration((b.totalSent - a.totalSent) as real, b.timestamp - a.timestamp);
    }
  }

  lemma TruncationLoss(rate: real, published: int, dt: real)
    requires published as real <= rate < published as real + 1.0 && dt > 0.0
    ensures 0.0 <= Over(rate, dt) - Over(published as real, dt) < dt
  {
    LossBelow(rate - published as real, dt, Over(rate - published as real, dt));
    Distribute(dt, rate, published as real);
  }

  lemma LossBelow(loss: real, dt: real, product: real)
    requires 0.0 <= loss < 1.0 && dt > 0.0 && product == dt * loss
    ensures 0.0 <= product < dt
  {
    ScaleStrict(dt, loss, 1.0);
    Scale(dt, 0.0, loss);
  }

  /** The published integer rates never over-report, and under-report what was sent
      by less than one log per elapsed second. */
  lemma {:induction false} PublishedUnderReports(log: seq<PerformanceMetrics>)
    requires |log| >= 2 && Growing(log) && IsLog(log)
    ensures var sent := (log[|log| - 1].totalSent - FirstPositive(log)) as real;
            sent - (log[|log| - 1].timestamp - log[0].timestamp) < Published(log) <= sent
  {
    hide FirstPositive;
    Telescopes(log);
    UnderReports(log);
  }

  lemma {:induction false} UnderReports(log: seq<PerformanceMetrics>)
    requires |log| >= 2 && Growing(log) && IsLog(log)
    ensures Measured(log) - (log[|log| - 1].timestamp - log[0].timestamp) < Published(log) <= Measured(log)
  {
    var n := |log| - 1;
    StepUnderReports(log);
    GrowingPrefix(log, n);
    LogPrefix(log, n);
    hide Growing, IsLog;
    if n > 1 {
      UnderReports(log[..n]);
      hide Measured, Published;
    } else {
      assert Measured(log[..n]) == Published(log[..n]) == 0.0;
      hide Measured, Published;
    }
  }

  /** What one sample adds to both sums. */
  lemma StepUnderReports(log: seq<PerformanceMetrics>)
    requires |log| >= 2 && Growing(log) && IsLog(log)
    ensures var n := |log| - 1;
            var measured, published := Measured(log) - Measured(log[..n]), Published(log) - Published(log[..n]);
            measured - (log[n].timestamp - log[n - 1].timestamp) < published <= measured
  {
    hide Rate, Over;
    var n := |log| - 1;
    var a, b := log[n - 1], log[n];
    assert b.currentEPS == NextRate(log[..n], b.totalSent, b.timestamp);
    assert a.timestamp < b.timestamp && a.totalSent <= b.totalSent;
    hide Growing, IsLog;
    RateNotNegative(a, b);
    TruncationLoss(Rate(a, b.totalSent, b.timestamp), b.currentEPS, b.timestamp - a.timestamp);
  }

  lemma GrowingPrefix(log: seq<PerformanceMetrics>, n: nat)
    requires n <= |log| && Growing(log)
    ensures Growing(log[..n])
  {
  }

  lemma LogPrefix(log: seq<PerformanceMetrics>, n: nat)
    requires n <= |log| && IsLog(log)
    ensures IsLog(log[..n])
  {
    forall i | 0 <= i < n
      ensures log[..n][i].currentEPS == NextRate(log[..n][..i], log[..n][i].totalSent, log[..n][i].timestamp)
    {
      assert log[..n][..i] == log[..i];
    }
  }

  lemma RateNotNegative(a: PerformanceMetrics, b: PerformanceMetrics)
    requires a.timestamp < b.timestamp && a.totalSent <= b.totalSent
    ensures Rate(a, b.totalSent, b.timestamp) >= 0.0
  {
  }

  // ---- the bounded history ----

  const HISTORY_SIZE := 1800

  /** The last `n` samples. */
  function Recent(n: nat, log: seq<PerformanceMetrics>): seq<PerformanceMetrics> {
    if |log| <= n then log else log[|log| - n..]
  }

  lemma RecentNext(n: nat, log: seq<PerformanceMetrics>, m: PerformanceMetrics)
    requires n > 0
    ensures var grown := Recent(n, log) + [m];
            Recent(n, log + [m]) == if |grown| > n then grown[1..] else grown
  {
  }

  /** The samples later than the cutoff, in order. */
  function Later(log: seq<PerformanceMetrics>, cutoff: real): seq<PerformanceMetrics> {
    if log == [] then []
    else Later(log[..|log| - 1], cutoff) + if log[|log| - 1].timestamp > cutoff then [log[|log| - 1]] else []
  }

  lemma {:induction false} LaterConcat(a: seq<PerformanceMetrics>, b: seq<PerformanceMetrics>, cutoff: real)
    ensures Later(a + b, cutoff) == Later(a, cutoff) + Later(b, cutoff)
  {
    if b == [] {
      assert a + b == a;
    } else {
      assert (a + b)[..|a + b| - 1] == a + b[..|b| - 1];
      LaterConcat(a, b[..|b| - 1], cutoff);
    }
  }

  lemma {:induction false} NoneLater(log: seq<PerformanceMetrics>, cutoff: real)
    ensures Later(log, cutoff) == [] <==> forall i | 0 <= i < |log| :: log[i].timestamp <= cutoff
  {
    if log != [] {
      var n := |log| - 1;
      NoneLater(log[..n], cutoff);
      assert forall i | 0 <= i < n :: log[..n][i] == log[i];
    }
  }

  /** A query of the history answers as the same query of the whole log would
      exactly when every dropped sample is at or before the cutoff. */
  lemma QueryExactIff(n: nat, log: seq<PerformanceMetrics>, cutoff: real)
    ensures Later(Recent(n, log), cutoff) == Later(log, cutoff) <==>
            forall i | 0 <= i < |log| - n :: log[i].timestamp <= cutoff
  {
    if |log| > n {
      var k := |log| - n;
      assert log == log[..k] + log[k..];
      LaterConcat(log[..k], log[k..], cutoff);
      NoneLater(log[..k], cutoff);
      SuffixOnly(Later(log[..k], cutoff), Later(log[k..], cutoff));
      assert forall i | 0 <= i < k :: log[..k][i] == log[i];
    }
  }

  lemma SuffixOnly(a: seq<PerformanceMetrics>, b: seq<PerformanceMetrics>)
    ensures a + b == b <==> a == []
  {
    if a + b == b { assert |a + b| == |a| + |b|; }
  }

  predicate SecondsApart(log: seq<PerformanceMetrics>) {
    forall i | 0 <= i < |log| - 1 :: log[i].timestamp + 1.0 <= log[i + 1].timestamp
  }

  lemma {:induction false} Spacing(log: seq<PerformanceMetrics>, i: nat, j: nat)
    requires SecondsApart(log) && i <= j < |log|
    ensures log[i].timestamp + (j - i) as real <= log[j].timestamp
    decreases j - i
  {
    if i < j { Spacing(log, i + 1, j); }
  }

  /** With samples at least a second apart, every query reaching back at most 30
      minutes is answered exactly, however long the collector has been running. */
  lemma HalfHourIsExact(log: seq<PerformanceMetrics>, now: real, duration: real)
    requires SecondsApart(log) && (log != [] ==> log[|log| - 1].timestamp <= now) && duration <= 1800.0
    ensures Later(Recent(HISTORY_SIZE, log), now - duration) == Later(log, now - duration)
  {
    var cutoff := now - duration;
    forall i | 0 <= i < |log| - HISTORY_SIZE ensures log[i].timestamp <= cutoff {
      Spacing(log, i, |log| - 1);
    }
    QueryExactIff(HISTORY_SIZE, log, cutoff);
  }
}
