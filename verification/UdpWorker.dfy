/** The worker: its buffers, its counters, and the send loops that drive them.
    A run of a loop is the finite sequence of ticks it sees before it is told to
    stop; whether a write succeeds is decided by the environment. */
module UdpWorker {
  import opened Common
  import opened Framing
  import opened RateControl
  import opened FeedbackLoop
  import opened LoopTuning
  import opened EpsRing
  import SyslogLine
  import SyslogGenerator
  import Timestamps
  import Smoothing
  import UltraSchedule

  /** The length of a formatted timestamp, and of the longest line with one. */
  const TIMESTAMP_WIDTH := 24
  const LINE_WIDTH := SyslogLine.WIDTH + TIMESTAMP_WIDTH

  predicate GoodTick(t: Tick) {
    SyslogLine.IsTimestamp(t.timestamp) && |t.timestamp| <= TIMESTAMP_WIDTH
  }

  /** Every timestamp the generator formats will do. */
  lemma FormattedTickIsGood(t: Tick, now: Timestamps.Instant)
    requires t.timestamp == Timestamps.Format(now)
    ensures GoodTick(t)
  {
    hide Timestamps.Format, SyslogLine.IsTimestamp;
    Timestamps.FormatIsTimestamp(now);
  }

  predicate GoodTicks(ticks: seq<Tick>) {
    forall i | 0 <= i < |ticks| :: GoodTick(ticks[i])
  }

  /** A line as the generator prints it at a timestamp, from some choice of table entries. */
  ghost predicate PrintedAt(line: string, t: string) {
    exists c: SyslogLine.Choice :: c.Valid() && line == SyslogLine.Line(c, t)
  }

  ghost predicate IsPrinted(line: string) {
    exists t: string :: SyslogLine.IsTimestamp(t) && |t| <= TIMESTAMP_WIDTH && PrintedAt(line, t)
  }

  ghost predicate BatchAt(batch: seq<string>, t: string) {
    forall i | 0 <= i < |batch| :: PrintedAt(batch[i], t)
  }

  ghost predicate GoodBatch(batch: seq<string>) {
    AllLines(batch) && forall i | 0 <= i < |batch| :: |batch[i]| <= LINE_WIDTH && IsPrinted(batch[i])
  }

  /** So every line of a batch can be read back: its parts are entries of the tables. */
  lemma PrintedParts(line: string) returns (c: SyslogLine.Choice, t: string)
    requires IsPrinted(line)
    ensures c.Valid() && SyslogLine.IsTimestamp(t) && SyslogLine.Parse(line) == Some(c.Parts(t))
  {
    t :| SyslogLine.IsTimestamp(t) && |t| <= TIMESTAMP_WIDTH && PrintedAt(line, t);
    c :| c.Valid() && line == SyslogLine.Line(c, t);
    SyslogLine.GeneratedLine(c, t);
  }

  class UDPWorker {
    const batchSize: nat
    const tickerInterval: nat
    const targetEPS: int
    const generator: SyslogGenerator.SystemLogGenerator
    const epsCounts: Ring
    var batchBuffer: seq<string>
    var sendBuffer: string
    var totalSent: int
    var errorCount: int
    var currentEPS: int
    var lastMetricTime: real
    var lastTotalSent: int

    /** What happened on the wire: the batches whose write succeeded with the
        datagrams they became, the batches whose write failed, and the number of
        lines generated in finished batches. */
    ghost var sent: seq<seq<string>>
    ghost var wire: seq<string>
    ghost var failed: seq<seq<string>>
    ghost var generated: nat

    /** Datagram i is the framing of batch i. */
    ghost predicate Framed()
      reads this`sent, this`wire
    {
      && |wire| == |sent|
      && forall i | 0 <= i < |sent| :: sent[i] != [] && GoodBatch(sent[i]) && wire[i] == Join(sent[i])
    }

    /** The sender's count is the receiver's count, and every generated line was
        either sent or is in a failed batch. */
    ghost predicate Accounted()
      reads this`totalSent, this`wire, this`sent, this`failed, this`generated
    {
      && totalSent == ReceivedTotal(wire) == LineTotal(sent)
      && generated == totalSent + LineTotal(failed)
    }

    ghost predicate Wired()
      reads generator, generator.pids, generator.pool
    {
      generator.Valid() && |generator.timestampCache| <= TIMESTAMP_WIDTH
    }

    ghost predicate Valid()
      reads this`totalSent, this`wire, this`sent, this`failed, this`generated
      reads generator, generator.pids, generator.pool, epsCounts, epsCounts.slots
    {
      && Wired() && Framed() && Accounted()
      && epsCounts.Valid() && epsCounts.slots.Length == 60
    }

    constructor (batchSize: nat, tickerInterval: nat, targetEPS: int, now: real, timestamp: string)
      requires SyslogLine.IsTimestamp(timestamp) && |timestamp| <= TIMESTAMP_WIDTH
      ensures Valid() && totalSent == errorCount == currentEPS == 0 && wire == [] && failed == []
      ensures fresh(generator) && fresh(generator.pool) && fresh(generator.pool.data) && fresh(epsCounts) && fresh(epsCounts.slots)
      ensures sent == [] && batchBuffer == [] && lastTotalSent == 0 && lastMetricTime == now
      ensures this.batchSize == batchSize && this.targetEPS == targetEPS && this.tickerInterval == tickerInterval
    {
      this.batchSize, this.tickerInterval, this.targetEPS := batchSize, tickerInterval, targetEPS;
      generator := new SyslogGenerator.SystemLogGenerator(timestamp);
      epsCounts := new Ring(60);
      batchBuffer, sendBuffer := [], "";
      totalSent, errorCount, currentEPS, lastMetricTime, lastTotalSent := 0, 0, 0, now, 0;
      sent, wire, failed, generated := [], [], [], 0;
    }

    /** The receiver that splits at newlines gets back exactly the batches that
        were sent, line by line, each as the generator printed it, and counts exactly
        what the sender counted. */
    lemma Delivered()
      requires Framed() && Accounted()
      ensures forall i | 0 <= i < |sent| :: Split(wire[i]) == sent[i] && Received(wire[i]) == |sent[i]|
      ensures forall i, j | 0 <= i < |sent| && 0 <= j < |sent[i]| :: IsPrinted(sent[i][j])
      ensures ReceivedTotal(wire) == totalSent == LineTotal(sent) && generated == totalSent + LineTotal(failed)
    {
      forall i | 0 <= i < |sent| ensures Split(wire[i]) == sent[i] && Received(wire[i]) == |sent[i]| {
        SplitJoin(sent[i]);
        BatchReceived(sent[i]);
      }
    }

    /** Batches of at most `most` lines make datagrams of at most 115 * most - 1 bytes. */
    lemma WireBounded(most: nat)
      requires Framed() && forall i | 0 <= i < |sent| :: |sent[i]| <= most
      ensures forall i | 0 <= i < |wire| :: |wire[i]| <= most * (LINE_WIDTH + 1) - 1
    {
      forall i | 0 <= i < |wire| ensures |wire[i]| <= most * (LINE_WIDTH + 1) - 1 {
        JoinLength(sent[i], LINE_WIDTH);
        assert |sent[i]| * (LINE_WIDTH + 1) <= most * (LINE_WIDTH + 1);
      }
    }

    static lemma NoLines(t: string)
      ensures GoodBatch([]) && BatchAt([], t)
    {
    }

    static lemma LineIsGood(line: string, c: SyslogLine.Choice, t: string)
      requires c.Valid() && SyslogLine.IsTimestamp(t) && |t| <= TIMESTAMP_WIDTH && line == SyslogLine.Line(c, t)
      ensures IsLine(line) && |line| <= LINE_WIDTH && PrintedAt(line, t) && IsPrinted(line)
    {
      hide SyslogLine.Line, SyslogLine.Parse, SyslogLine.Itoa, SyslogLine.Atoi, SyslogLine.IsTimestamp;
      SyslogLine.GeneratedLine(c, t);
      assert PrintedAt(line, t);
      hide PrintedAt;
      assert IsPrinted(line);
    }

    static lemma NextLine(batch: seq<string>, line: string, t: string)
      requires GoodBatch(batch) && BatchAt(batch, t)
      requires IsLine(line) && |line| <= LINE_WIDTH && PrintedAt(line, t) && IsPrinted(line)
      ensures GoodBatch(batch + [line]) && BatchAt(batch + [line], t)
    {
      hide IsLine, PrintedAt, IsPrinted;
    }

    /** Fills the batch buffer with `n` fresh lines. */
    method BuildBatch(n: nat)
      requires Wired()
      modifies this`batchBuffer, generator.pool, generator.pool.data
      ensures Wired() && |batchBuffer| == n && GoodBatch(batchBuffer) && BatchAt(batchBuffer, generator.timestampCache)
      ensures generator.pool.data == old(generator.pool.data)
    {
      hide SyslogLine.Line, SyslogLine.Parse, SyslogLine.Itoa, SyslogLine.Atoi, SyslogLine.IsTimestamp, GoodBatch, BatchAt;
      hide PrintedAt, IsPrinted, IsLine, SyslogGenerator.SystemLogGenerator.Valid;
      batchBuffer := [];
      NoLines(generator.timestampCache);
      for i := 0 to n
        modifies this`batchBuffer, generator.pool, generator.pool.data
        invariant Wired() && |batchBuffer| == i && GoodBatch(batchBuffer) && BatchAt(batchBuffer, generator.timestampCache)
        invariant generator.pool.data == old(generator.pool.data)
      {
        var log, choice := generator.GenerateSystemLog();
        LineIsGood(log[..], choice, generator.timestampCache);
        NextLine(batchBuffer, log[..], generator.timestampCache);
        batchBuffer := batchBuffer + [log[..]];
      }
    }

    /** Joins the batch into the send buffer and writes it as one datagram. */
    method SendBatch(writeOk: bool) returns (ok: bool)
      requires Framed() && GoodBatch(batchBuffer)
      modifies this`sendBuffer, this`sent, this`wire, this`failed, this`generated
      ensures Framed()
      ensures ok == (batchBuffer == [] || writeOk)
      ensures if ok && batchBuffer != [] then sent == old(sent) + [batchBuffer] && wire == old(wire) + [Join(batchBuffer)]
              else sent == old(sent) && wire == old(wire)
      ensures failed == if ok then old(failed) else old(failed) + [batchBuffer]
      ensures generated == old(generated) + |batchBuffer|
    {
      hide GoodBatch;
      generated := generated + |batchBuffer|;
      if |batchBuffer| == 0 {
        return true;
      }
      sendBuffer := "";
      for i := 0 to |batchBuffer|
        modifies this`sendBuffer
        invariant sendBuffer + Join(batchBuffer[i..]) == Join(batchBuffer)
      {
        assert batchBuffer[i..][1..] == batchBuffer[i + 1..];
        sendBuffer := sendBuffer + batchBuffer[i];
        if i < |batchBuffer| - 1 {
          sendBuffer := sendBuffer + "\n";
        }
      }
      assert sendBuffer == Join(batchBuffer);
      if writeOk {
        sent, wire := sent + [batchBuffer], wire + [sendBuffer];
      } else {
        failed := failed + [batchBuffer];
      }
      return writeOk;
    }

    /** Sends the batch buffer, for which the loop asked for `n` lines, and adds that
        many to the total if the write succeeded. Only some loops count errors. */
    method SendCounted(n: nat, writeOk: bool, countErrors: bool) returns (ok: bool)
      requires Valid() && GoodBatch(batchBuffer) && |batchBuffer| == n
      modifies this`sendBuffer, this`sent, this`wire, this`failed, this`generated, this`totalSent, this`errorCount
      ensures Valid()
      ensures ok == (batchBuffer == [] || writeOk)
      ensures errorCount == old(errorCount) + if countErrors && !ok then 1 else 0
      ensures totalSent == old(totalSent) + if ok then n else 0
      ensures generated == old(generated) + n
      ensures |failed| == |old(failed)| + if ok then 0 else 1
      ensures sent == if ok && n > 0 then old(sent) + [batchBuffer] else old(sent)
    {
      hide Join, ReceivedTotal, LineTotal, Received, GoodBatch, Framed, Wired;
      ok := SendBatch(writeOk);
      if ok {
        totalSent := totalSent + n;
        if batchBuffer != [] {
          SentAccounts(old(wire), old(sent), batchBuffer);
        }
      } else {
        BatchesGrow(old(failed), batchBuffer);
        if countErrors {
          errorCount := errorCount + 1;
        }
      }
    }

    /** What the loops do at a tick: build a batch of `n` lines and send it. */
    method Transmit(n: nat, t: Tick, countErrors: bool) returns (ok: bool)
      requires Valid() && GoodTick(t)
      modifies this, generator`timestampCache, generator.pool, generator.pool.data
      ensures Valid() && generator.pool.data == old(generator.pool.data) && |batchBuffer| == n
      ensures ok == (n == 0 || t.writeOk)
      ensures errorCount == old(errorCount) + if countErrors && !ok then 1 else 0
      ensures totalSent == old(totalSent) + if ok then n else 0
      ensures generated == old(generated) + n
      ensures |failed| == |old(failed)| + if ok then 0 else 1
      ensures sent == (if ok && n > 0 then old(sent) + [batchBuffer] else old(sent)) && BatchAt(batchBuffer, t.timestamp)
      ensures EpsUnchanged() && epsCounts.samples == old(epsCounts.samples)
    {
      hide Framed, Accounted, SyslogLine.IsTimestamp, SyslogGenerator.SystemLogGenerator.Valid, GoodBatch, BatchAt;
      generator.UpdateTimestamp(t.timestamp);
      BuildBatch(n);
      ok := SendCounted(n, t.writeOk, countErrors);
    }

    /** One more datagram adds the same number on both sides of the count. */
    static lemma SentAccounts(wire: seq<string>, sent: seq<seq<string>>, batch: seq<string>)
      requires GoodBatch(batch)
      ensures ReceivedTotal(wire + [Join(batch)]) == ReceivedTotal(wire) + |batch|
      ensures LineTotal(sent + [batch]) == LineTotal(sent) + |batch|
    {
      WireGrows(wire, Join(batch));
      BatchesGrow(sent, batch);
      BatchReceived(batch);
    }

    twostate predicate EpsUnchanged()
      reads this
    {
      currentEPS == old(currentEPS) && lastMetricTime == old(lastMetricTime) && lastTotalSent == old(lastTotalSent)
    }

    /** What an update at `now` does to the estimate: nothing within 100 ms of the last
        one, and otherwise it folds in the rate since then. */
    twostate predicate EpsUpdated(now: real)
      reads this, epsCounts
    {
      if now - old(lastMetricTime) < 0.1 then EpsUnchanged() && epsCounts.samples == old(epsCounts.samples)
      else
        && lastTotalSent == totalSent && lastMetricTime == now
        && if old(lastTotalSent) > 0 then
             && currentEPS == Smoothing.Smooth(old(currentEPS), (totalSent - old(lastTotalSent)) as real / (now - old(lastMetricTime)))
             && epsCounts.samples == old(epsCounts.samples) + [currentEPS]
           else currentEPS == 0 && epsCounts.samples == old(epsCounts.samples)
    }

    /** At most every 100 ms: fold the rate since the last update into the
        estimate and record the new estimate in the ring. */
    method UpdateEPSMetrics(now: real)
      requires Valid()
      modifies this`currentEPS, this`lastMetricTime, this`lastTotalSent, epsCounts`index, epsCounts`samples, epsCounts.slots
      ensures Valid()
      ensures EpsUpdated(now)
      ensures now - old(lastMetricTime) >= 0.1 && 0 < old(lastTotalSent) <= totalSent && old(currentEPS) >= 0 ==>
                var c, e, x := old(currentEPS) as real, currentEPS as real, (totalSent - old(lastTotalSent)) as real / (now - old(lastMetricTime));
                if c != 0.0 then 10.0 * e <= 7.0 * c + 3.0 * x < 10.0 * e + 10.0 else e <= x < e + 1.0
    {
      hide Wired, Framed, Accounted;
      var duration := now - lastMetricTime;
      if duration >= 0.1 {
        if lastTotalSent > 0 {
          var instantEPS := (totalSent - lastTotalSent) as real / duration;
          if lastTotalSent <= totalSent && currentEPS >= 0 {
            RateNotNegative((totalSent - lastTotalSent) as real, duration);
            Smoothing.SmoothInTenths(currentEPS, instantEPS);
          }
          var smoothedEPS := instantEPS;
          if currentEPS != 0 {
            smoothedEPS := currentEPS as real * (1.0 - 0.3) + instantEPS * 0.3;
          }
          currentEPS := Trunc(smoothedEPS);
          epsCounts.Push(currentEPS);
        } else {
          currentEPS := 0;
        }
        lastTotalSent := totalSent;
        lastMetricTime := now;
      }
    }

    static lemma RateNotNegative(sent: real, duration: real)
      requires sent >= 0.0 && duration > 0.0
      ensures sent / duration >= 0.0
    {
    }

    /** One tick of a feedback loop: the batch is scaled by the factor, and when
        the window is over the factor is corrected. */
    method FeedbackTick(u: Setup, s: LoopState, t: Tick) returns (next: LoopState)
      requires Valid() && GoodTick(t) && u.Valid() && InRange(u.law, s.factor)
      modifies this, generator`timestampCache, generator.pool, generator.pool.data
      modifies epsCounts`index, epsCounts`samples, epsCounts.slots
      ensures Valid() && generator.pool.data == old(generator.pool.data)
      ensures EpsUpdated(t.now)
      ensures next == TickStep(u, s, t) && |batchBuffer| == BatchSize(u.logs, s.factor)
      ensures errorCount == old(errorCount)
      ensures totalSent == old(totalSent) + if t.writeOk then BatchSize(u.logs, s.factor) else 0
      ensures |failed| == |old(failed)| + if t.writeOk then 0 else 1
      ensures SentGrew(BatchSize(u.logs, u.law.hi))
    {
      hide Valid, Correct, WindowError, BatchAt;
      var batch := BatchSize(u.logs, s.factor);
      var ok := Transmit(batch, t, false);
      var windowSent, factor := s.windowSent, s.factor;
      if ok {
        windowSent := windowSent + batch;
      }
      if t.windowOver {
        factor := AdjustFactor(u.law, u.target, u.scale, windowSent, factor);
        windowSent := 0;
      }
      UpdateEPSMetrics(t.now);
      BatchGrows(u.logs, s.factor, u.law.hi);
      next := LoopState(factor, windowSent);
    }

    /** What was on the wire is still there, and every newer batch has at most `most` lines. */
    twostate predicate SentGrew(most: int)
      reads this
    {
      && |old(sent)| <= |sent| && sent[..|old(sent)|] == old(sent)
      && forall i | |old(sent)| <= i < |sent| :: |sent[i]| <= most
    }

    /** The estimate is less than 100 ms old at the last tick. */
    predicate FreshEstimate(ticks: seq<Tick>)
      reads this`lastMetricTime
    {
      ticks != [] ==> ticks[|ticks| - 1].now - lastMetricTime < 0.1
    }

    /** What a run of a feedback loop has sent, and the batch it has built last. */
    twostate predicate RanFeedback(u: Setup, start: LoopState, ticks: seq<Tick>)
      requires u.Valid()
      reads this
    {
      && totalSent == old(totalSent) + SentLines(u, start, ticks)
      && (ticks != [] ==> |batchBuffer| == BatchSize(u.logs, Run(u, start, ticks[..|ticks| - 1]).factor))
    }

    /** The same for a run of the ultra loop. */
    twostate predicate RanUltra(target: int, start: real, ticks: seq<Tick>)
      requires target > 0
      reads this
    {
      var s := UltraSchedule.UltraState(UltraSchedule.InitialLogs(target), 0, start);
      && totalSent == old(totalSent) + UltraSchedule.UltraLines(target, s, ticks)
      && (ticks != [] ==> |batchBuffer| == UltraSchedule.UltraRun(target, s, ticks[..|ticks| - 1]).logs)
    }

    function Target(default: int): int {
      if targetEPS == 0 then default else targetEPS
    }

    /** A run of the medium loop. Failed sends are not counted as errors. */
    method SendLoopMedium(ticks: seq<Tick>) returns (s: LoopState)
      requires Valid() && GoodTicks(ticks) && targetEPS >= 0
      modifies this, generator`timestampCache, generator.pool, generator.pool.data
      modifies epsCounts`index, epsCounts`samples, epsCounts.slots
      ensures Valid()
      ensures s == Run(MediumSetup(Target(25000)), LoopState(1.0, 0), ticks)
      ensures errorCount == old(errorCount)
      ensures |failed| == |old(failed)| + |ticks| - Successes(ticks)
      ensures SentGrew(BatchSize(MediumSetup(Target(25000)).logs, MEDIUM.hi))
      ensures RanFeedback(MediumSetup(Target(25000)), LoopState(1.0, 0), ticks) && FreshEstimate(ticks)
    {
      var u := MediumSetup(Target(25000));
      s := RunTicks(u, LoopState(1.0, 0), ticks);
    }

    /** A run of the performance loop. */
    method SendLoopPerformance(ticks: seq<Tick>) returns (s: LoopState)
      requires Valid() && GoodTicks(ticks) && targetEPS >= 0
      modifies this, generator`timestampCache, generator.pool, generator.pool.data
      modifies epsCounts`index, epsCounts`samples, epsCounts.slots
      ensures Valid()
      ensures s == Run(PerformanceSetup(Target(25000), IntervalMs()), LoopState(1.064, 0), ticks)
      ensures errorCount == old(errorCount)
      ensures |failed| == |old(failed)| + |ticks| - Successes(ticks)
      ensures SentGrew(BatchSize(PerformanceSetup(Target(25000), IntervalMs()).logs, PERFORMANCE.hi))
      ensures RanFeedback(PerformanceSetup(Target(25000), IntervalMs()), LoopState(1.064, 0), ticks) && FreshEstimate(ticks)
    {
      var u := PerformanceSetup(Target(25000), IntervalMs());
      s := RunTicks(u, LoopState(1.064, 0), ticks);
    }

    function IntervalMs(): int {
      if tickerInterval / 1000 < 1 then 10 else tickerInterval / 1000
    }

    /** The loop the two feedback modes share. */
    method RunTicks(u: Setup, start: LoopState, ticks: seq<Tick>) returns (s: LoopState)
      requires Valid() && GoodTicks(ticks) && u.Valid() && InRange(u.law, start.factor)
      modifies this, generator`timestampCache, generator.pool, generator.pool.data
      modifies epsCounts`index, epsCounts`samples, epsCounts.slots
      ensures Valid()
      ensures s == Run(u, start, ticks)
      ensures errorCount == old(errorCount)
      ensures |failed| == |old(failed)| + |ticks| - Successes(ticks)
      ensures SentGrew(BatchSize(u.logs, u.law.hi))
      ensures RanFeedback(u, start, ticks) && FreshEstimate(ticks)
    {
      hide Valid, BatchAt;
      s := start;
      for i := 0 to |ticks|
        invariant Valid() && generator.pool.data == old(generator.pool.data)
        invariant s == Run(u, start, ticks[..i]) && InRange(u.law, s.factor)
        invariant errorCount == old(errorCount)
        invariant |failed| == |old(failed)| + i - Successes(ticks[..i])
        invariant SentGrew(BatchSize(u.logs, u.law.hi))
        invariant RanFeedback(u, start, ticks[..i]) && FreshEstimate(ticks[..i])
      {
        assert ticks[..i + 1][..i] == ticks[..i];
        s := FeedbackTick(u, s, ticks[i]);
        RunStaysInRange(u, start, ticks[..i + 1]);
      }
      assert ticks[..|ticks|] == ticks;
    }

    /** A run of the default loop, and of the precise one, which differ only in
        the fixed batch size. */
    method SendLoopFixed(n: nat, ticks: seq<Tick>)
      requires Valid() && GoodTicks(ticks)
      modifies this, generator`timestampCache, generator.pool, generator.pool.data
      modifies epsCounts`index, epsCounts`samples, epsCounts.slots
      ensures Valid()
      ensures totalSent == old(totalSent) + n * Successes(ticks)
      ensures errorCount - old(errorCount) == |failed| - |old(failed)| == if n == 0 then 0 else |ticks| - Successes(ticks)
      ensures SentGrew(n) && FreshEstimate(ticks)
    {
      hide Valid, BatchAt;
      for i := 0 to |ticks|
        invariant Valid() && generator.pool.data == old(generator.pool.data)
        invariant totalSent == old(totalSent) + n * Successes(ticks[..i])
        invariant errorCount - old(errorCount) == |failed| - |old(failed)| == if n == 0 then 0 else i - Successes(ticks[..i])
        invariant SentGrew(n) && FreshEstimate(ticks[..i])
      {
        assert ticks[..i + 1][..i] == ticks[..i];
        NextMultiple(n, Successes(ticks[..i]));
        var ok := Transmit(n, ticks[i], true);
        UpdateEPSMetrics(ticks[i].now);
      }
      assert ticks[..|ticks|] == ticks;
    }

    static lemma NextMultiple(n: int, k: int)
      ensures n * (k + 1) == n * k + n
    {
    }

    /** The batch of the precise loop. */
    function PreciseBatch(): nat {
      if batchSize != 0 then batchSize
      else if Quot(Target(25000), 100) < 1 then 1 else Quot(Target(25000), 100)
    }

    /** A run of the ultra loop: the batch size itself is stepped every 100 ms. Neither
        it nor the realtime loop ever updates the estimate of the worker's rate. */
    method SendLoopUltra(ticks: seq<Tick>, start: real) returns (s: UltraSchedule.UltraState)
      requires Valid() && GoodTicks(ticks) && targetEPS >= 0
      modifies this, generator`timestampCache, generator.pool, generator.pool.data
      ensures Valid()
      ensures var initial := UltraSchedule.InitialLogs(Target(25000));
              && s == UltraSchedule.UltraRun(Target(25000), UltraSchedule.UltraState(initial, 0, start), ticks)
              && (initial < 100 ==> SentGrew(initial))
      ensures errorCount - old(errorCount) == |failed| - |old(failed)|
      ensures RanUltra(Target(25000), start, ticks) && EpsUnchanged()
    {
      hide Valid, UltraSchedule.StepLogs, UltraSchedule.InitialLogs, BatchAt, GoodTick;
      var target := Target(25000);
      UltraSchedule.SmallTargetsStartSmall(target);
      var logsPerBatch, windowSent, lastAdjustTime := UltraSchedule.InitialLogs(target), 0, start;
      ghost var begin := UltraSchedule.UltraState(logsPerBatch, 0, start);
      for i := 0 to |ticks|
        invariant Valid() && generator.pool.data == old(generator.pool.data)
        invariant errorCount - old(errorCount) == |failed| - |old(failed)|
        invariant logsPerBatch >= 0
        invariant UltraSchedule.UltraState(logsPerBatch, windowSent, lastAdjustTime) == UltraSchedule.UltraRun(target, begin, ticks[..i])
        invariant begin.logs < 100 ==> logsPerBatch <= begin.logs && SentGrew(begin.logs)
        invariant RanUltra(target, start, ticks[..i]) && EpsUnchanged()
      {
        assert ticks[..i + 1][..i] == ticks[..i];
        var ok := Transmit(logsPerBatch, ticks[i], true);
        if ok {
          windowSent := windowSent + logsPerBatch;
        }
        var now := ticks[i].now;
        if now - lastAdjustTime >= 0.1 {
          logsPerBatch := UltraSchedule.StepLogs(logsPerBatch, target, windowSent as real / (now - lastAdjustTime));
          windowSent, lastAdjustTime := 0, now;
        }
        UltraSchedule.SmallBatchNeverGrows(target, begin, ticks[..i + 1]);
      }
      assert ticks[..|ticks|] == ticks;
      s := UltraSchedule.UltraState(logsPerBatch, windowSent, lastAdjustTime);
    }

    /** Batches of `n` lines that a producer puts into its channel. */
    static ghost predicate GoodSupply(supply: seq<Option<seq<string>>>, n: int) {
      forall i | 0 <= i < |supply| && supply[i].Some? :: |supply[i].value| == n && GoodBatch(supply[i].value)
    }

    /** What the loop sent at the first `n` ticks: at every one whose write succeeded,
        what it had received for it, or else what it generated at the tick before. */
    static ghost predicate SentSupply(added: seq<seq<string>>, ticks: seq<Tick>, supply: seq<Option<seq<string>>>, n: nat)
      requires n <= |ticks| < |supply| && supply[0].Some?
    {
      && |added| == Successes(ticks[..n])
      && forall i | 0 <= i < n && ticks[i].writeOk ::
           Successes(ticks[..i]) < |added| && IsDue(added[Successes(ticks[..i])], ticks, supply, i)
    }

    static ghost predicate IsDue(batch: seq<string>, ticks: seq<Tick>, supply: seq<Option<seq<string>>>, i: nat)
      requires i < |ticks| < |supply| && supply[0].Some?
    {
      if supply[i].Some? then batch == supply[i].value else BatchAt(batch, ticks[i - 1].timestamp)
    }

    static lemma NothingSupplied(ticks: seq<Tick>, supply: seq<Option<seq<string>>>)
      requires |ticks| < |supply| && supply[0].Some?
      ensures SentSupply([], ticks, supply, 0)
    {
    }

    static lemma SupplyNext(added: seq<seq<string>>, ticks: seq<Tick>, supply: seq<Option<seq<string>>>, n: nat, batch: seq<string>)
      requires n < |ticks| < |supply| && supply[0].Some?
      requires SentSupply(added, ticks, supply, n) && IsDue(batch, ticks, supply, n)
      ensures SentSupply(if ticks[n].writeOk then added + [batch] else added, ticks, supply, n + 1)
    {
      hide IsDue;
      assert ticks[..n + 1][..n] == ticks[..n];
      forall i | 0 <= i < n ensures Successes(ticks[..i]) <= Successes(ticks[..n]) { SuccessesGrow(ticks, i, n); }
    }

    static lemma {:induction false} SuccessesGrow(ticks: seq<Tick>, i: nat, n: nat)
      requires i <= n <= |ticks|
      ensures Successes(ticks[..i]) <= Successes(ticks[..n])
      decreases n
    {
      if i < n {
        assert ticks[..n][..n - 1] == ticks[..n - 1];
        SuccessesGrow(ticks, i, n - 1);
      }
    }

    function RealtimeLogs(): int {
      Trunc(Target(25000) as real * 0.01064)
    }

    /** One tick: send the prepared batch of `n` lines, then take the next one if there
        is one, and otherwise make it. */
    method RealtimeTick(n: nat, current: seq<string>, t: Tick, received: Option<seq<string>>) returns (next: seq<string>)
      requires Valid() && GoodTick(t) && |current| == n && GoodBatch(current)
      requires received.Some? ==> |received.value| == n && GoodBatch(received.value)
      modifies this, generator`timestampCache, generator.pool, generator.pool.data
      ensures Valid() && generator.pool.data == old(generator.pool.data)
      ensures |next| == n && GoodBatch(next)
      ensures if received.Some? then next == received.value else BatchAt(next, t.timestamp)
      ensures errorCount - old(errorCount) == |failed| - |old(failed)|
      ensures totalSent == old(totalSent) + if t.writeOk then n else 0
      ensures sent == (if t.writeOk && n > 0 then old(sent) + [current] else old(sent)) && EpsUnchanged()
    {
      hide Valid, GoodBatch, BatchAt;
      batchBuffer := current;
      var _ := SendCounted(n, t.writeOk, true);
      if received.Some? {
        next := received.value;
      } else {
        MakeOwnBatch(n, t.timestamp);
        next := batchBuffer;
      }
    }

    /** A run of the realtime loop, as the loop itself sees it: what it receives
        when it asks the channel, first of all the batch it waits for, then one or
        none at every tick. RealtimeLoop has the producer's side. */
    method SendLoopRealtime(ticks: seq<Tick>, supply: seq<Option<seq<string>>>)
      requires Valid() && GoodTicks(ticks) && targetEPS >= 0
      requires |supply| == |ticks| + 1 && GoodSupply(supply, RealtimeLogs())
      modifies this, generator`timestampCache, generator.pool, generator.pool.data
      ensures Valid()
      ensures errorCount - old(errorCount) == |failed| - |old(failed)|
      ensures totalSent == old(totalSent) + if supply[0].Some? then RealtimeLogs() * Successes(ticks) else 0
      ensures SentGrew(RealtimeLogs()) && EpsUnchanged()
      ensures supply[0].Some? && RealtimeLogs() > 0 ==>
                |old(sent)| <= |sent| && SentSupply(sent[|old(sent)|..], ticks, supply, |ticks|)
    {
      hide Valid, GoodBatch, BatchAt, SentSupply, RealtimeLogs, GoodTick;
      var logsPerBatch := RealtimeLogs();
      if supply[0] == None {
        return;
      }
      var current := supply[0].value;
      assert SentSupply(sent[|old(sent)|..], ticks, supply, 0) by { NothingSupplied(ticks, supply); assert sent[|old(sent)|..] == []; }
      for i := 0 to |ticks|
        invariant Valid() && generator.pool.data == old(generator.pool.data)
        invariant |current| == logsPerBatch && GoodBatch(current)
        invariant errorCount - old(errorCount) == |failed| - |old(failed)|
        invariant totalSent == old(totalSent) + logsPerBatch * Successes(ticks[..i])
        invariant SentGrew(logsPerBatch) && EpsUnchanged()
        invariant i < |ticks| ==> IsDue(current, ticks, supply, i)
        invariant logsPerBatch > 0 ==> SentSupply(sent[|old(sent)|..], ticks, supply, i)
      {
        assert ticks[..i + 1][..i] == ticks[..i];
        NextMultiple(logsPerBatch, Successes(ticks[..i]));
        ghost var added, last := sent[|old(sent)|..], current;
        current := RealtimeTick(logsPerBatch, current, ticks[i], supply[i + 1]);
        if logsPerBatch > 0 {
          SupplyNext(added, ticks, supply, i, last);
          assert sent[|old(sent)|..] == if ticks[i].writeOk then added + [last] else added;
        }
      }
      assert ticks[..|ticks|] == ticks;
    }

    /** The loop generates a batch itself because the channel is empty. */
    method MakeOwnBatch(n: nat, timestamp: string)
      requires Valid() && SyslogLine.IsTimestamp(timestamp) && |timestamp| <= TIMESTAMP_WIDTH
      modifies this`batchBuffer, generator`timestampCache, generator.pool, generator.pool.data
      ensures Valid() && |batchBuffer| == n && GoodBatch(batchBuffer) && BatchAt(batchBuffer, timestamp)
      ensures generator.pool.data == old(generator.pool.data)
    {
      hide BatchAt;
      hide Framed, Accounted, SyslogLine.IsTimestamp, SyslogGenerator.SystemLogGenerator.Valid, GoodBatch;
      generator.UpdateTimestamp(timestamp);
      BuildBatch(n);
    }

    /** The worker's main loop in the mode its profile asks for. Whatever the mode,
        the counts stay true; failed sends show up as errors in every mode but the
        medium and the performance one. What each mode sends is stated in numbers
        in WorkerTuning. */
    method SendLoop(precisionMode: string, ticks: seq<Tick>, start: real, supply: seq<Option<seq<string>>>)
      requires Valid() && GoodTicks(ticks)
      requires targetEPS > 0 && precisionMode == "realtime" ==> |supply| == |ticks| + 1 && GoodSupply(supply, RealtimeLogs())
      modifies this, generator`timestampCache, generator.pool, generator.pool.data
      modifies epsCounts`index, epsCounts`samples, epsCounts.slots
      ensures Valid()
      ensures errorCount - old(errorCount) ==
              if targetEPS <= 0 || precisionMode in {"ultra", "realtime", "high"} then |failed| - |old(failed)| else 0
      ensures if targetEPS > 0 && precisionMode in {"ultra", "realtime"} then EpsUnchanged() else FreshEstimate(ticks)
      ensures targetEPS > 0 && precisionMode == "ultra" ==> RanUltra(targetEPS, start, ticks)
      ensures targetEPS > 0 && precisionMode == "realtime" ==>
                SentGrew(RealtimeLogs())
                && totalSent == old(totalSent) + if supply[0].Some? then RealtimeLogs() * Successes(ticks) else 0
      ensures targetEPS > 0 && precisionMode == "performance" ==>
                var u := PerformanceSetup(targetEPS, IntervalMs());
                RanFeedback(u, LoopState(1.064, 0), ticks) && SentGrew(BatchSize(u.logs, u.law.hi))
      ensures targetEPS > 0 && precisionMode == "high" ==>
                SentGrew(PreciseBatch()) && totalSent == old(totalSent) + PreciseBatch() * Successes(ticks)
      ensures targetEPS > 0 && precisionMode !in {"ultra", "realtime", "performance", "high"} ==>
                var u := MediumSetup(targetEPS);
                RanFeedback(u, LoopState(1.0, 0), ticks) && SentGrew(BatchSize(u.logs, u.law.hi))
      ensures targetEPS <= 0 ==> SentGrew(batchSize) && totalSent == old(totalSent) + batchSize * Successes(ticks)
    {
      hide Valid, GoodSupply;
      if targetEPS > 0 {
        if precisionMode == "ultra" {
          var _ := SendLoopUltra(ticks, start);
        } else if precisionMode == "realtime" {
          SendLoopRealtime(ticks, supply);
        } else if precisionMode == "performance" {
          var _ := SendLoopPerformance(ticks);
        } else if precisionMode == "high" {
          SendLoopFixed(PreciseBatch(), ticks);
        } else {
          var _ := SendLoopMedium(ticks);
        }
      } else {
        SendLoopFixed(batchSize, ticks);
      }
    }

    /** The mean of the positive estimates of the last minute. */
    method GetAverageEPS() returns (mean: int)
      requires Valid()
      ensures mean == AverageOf(Last(60, epsCounts.samples))
    {
      mean := epsCounts.Average();
    }
  }
}
