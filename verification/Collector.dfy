/** The metrics collector: one loop that samples once a second, restartable, and
    the history it keeps. */
module Collector {
  import opened Common
  import opened EpsRing
  import opened Aggregation
  import opened MetricsLog
  import opened Lifecycle
  import Consistency

  datatype Call = Start | Stop

  class MetricsCollector {
    var currentMetrics: PerformanceMetrics
    var metricsHistory: seq<PerformanceMetrics>
    var targetEPS: int
    var lastTotalSent: int
    var lastTimestamp: Option<real>
    const epsBuffer: Ring
    var isCollecting: bool
    var stopChan: Channel

    /** Every sample ever taken, the collect loops alive (which the wait group
        counts), and the stop channels made and closed so far. */
    ghost var log: seq<PerformanceMetrics>
    ghost var loops: nat
    ghost var channels: nat
    ghost var closes: nat

    /** Collecting means that exactly one loop is alive, and then its channel is
        open. Every channel but an open last one has been closed, none of them twice. */
    ghost predicate Restartable()
      reads this`loops, this`isCollecting, this`stopChan, this`channels, this`closes
    {
      && loops == (if isCollecting then 1 else 0)
      && (isCollecting ==> stopChan == Open)
      && channels == closes + if stopChan == Closed then 0 else 1
    }

    /** The ring and the rate computation continue the log, and the history is the
        end of it. */
    ghost predicate Logged()
      reads this, epsBuffer, epsBuffer.slots
    {
      && IsLog(log)
      && metricsHistory == Recent(HISTORY_SIZE, log)
      && epsBuffer.Valid() && epsBuffer.slots.Length == 60 && epsBuffer.samples == Rates(log)
      && (log == [] ==> lastTimestamp == None && lastTotalSent == 0)
      && (log != [] ==> lastTimestamp == Some(log[|log| - 1].timestamp) && lastTotalSent == log[|log| - 1].totalSent)
    }

    ghost predicate Valid()
      reads this, epsBuffer, epsBuffer.slots
    {
      Restartable() && Logged()
    }

    constructor (now: real)
      ensures Valid() && !isCollecting && log == [] && channels == 1 && targetEPS == 4_000_000
      ensures currentMetrics == PerformanceMetrics(0, 0, 0, 0.0, 0, 0, now, 4_000_000, 0.0, [])
      ensures fresh(epsBuffer) && fresh(epsBuffer.slots)
    {
      targetEPS := 4_000_000;
      currentMetrics := PerformanceMetrics(0, 0, 0, 0.0, 0, 0, now, 4_000_000, 0.0, []);
      metricsHistory, log := [], [];
      lastTotalSent, lastTimestamp := 0, None;
      epsBuffer := new Ring(60);
      isCollecting, loops, channels, closes := false, 0, 1, 0;
      stopChan := Open;
    }

    method SetTargetEPS(target: int)
      modifies this`targetEPS
      ensures targetEPS == target
    {
      targetEPS := target;
    }

    method Start()
      requires Restartable()
      modifies this`isCollecting, this`stopChan, this`loops, this`channels
      ensures Restartable() && isCollecting
      ensures channels == old(channels) + if old(stopChan) == Closed then 1 else 0
    {
      if isCollecting {
        return;
      }
      isCollecting := true;
      if stopChan == Closed {
        stopChan := Open;
        channels := channels + 1;
      }
      loops := loops + 1;
    }

    /** The collect loop sees the closed channel and returns. */
    ghost method LoopExits()
      requires loops > 0 && stopChan == Closed
      modifies this`loops
      ensures loops == old(loops) - 1
    {
      loops := loops - 1;
    }

    /** The wait group's wait: over only when every loop has returned. */
    ghost method Wait()
      requires stopChan == Closed
      modifies this`loops
      ensures loops == 0
    {
      while loops > 0 {
        LoopExits();
      }
    }

    /** The branch for a channel that is already closed cannot be reached; the wait
        ends because the loop watches the channel that was just closed. */
    method Stop()
      requires Restartable()
      modifies this`isCollecting, this`loops, this`closes, this`stopChan
      ensures Restartable() && !isCollecting && loops == 0
      ensures closes == old(closes) + if old(isCollecting) then 1 else 0
      ensures stopChan == if old(isCollecting) then Closed else old(stopChan)
    {
      if !isCollecting {
        return;
      }
      isCollecting := false;
      if stopChan == Closed {
        assert false;
        return;
      }
      stopChan := stopChan.Close();
      closes := closes + 1;
      Wait();
    }

    /** Any sequence of calls: the collector ends as its last call left it, every
        change from collecting to idle closed one channel, and no sample is touched. */
    method Calls(calls: seq<Call>)
      requires Valid()
      modifies this`isCollecting, this`stopChan, this`loops, this`channels, this`closes
      ensures Valid()
      ensures isCollecting == Collecting(old(isCollecting), calls)
      ensures closes == old(closes) + Pauses(old(isCollecting), calls)
      ensures loops <= 1 && closes <= channels <= closes + 1
    {
      for i := 0 to |calls|
        invariant Restartable()
        invariant isCollecting == Collecting(old(isCollecting), calls[..i])
        invariant closes == old(closes) + Pauses(old(isCollecting), calls[..i])
      {
        assert calls[..i + 1][..i] == calls[..i];
        match calls[i] {
          case Start => Start();
          case Stop => Stop();
        }
      }
      assert calls[..|calls|] == calls;
    }

    /** The rate since the last sample; zero for the first one and while nothing was sent. */
    method MeasureRate(now: real) returns (currentEPS: int)
      requires Logged()
      ensures currentEPS == NextRate(log, currentMetrics.totalSent, now)
    {
      hide IsLog, Recent, Rates, Ring.Valid;
      currentEPS := 0;
      if lastTimestamp.Some? && lastTotalSent > 0 {
        var duration := now - lastTimestamp.value;
        if duration > 0.0 {
          var sentSinceLastUpdate := currentMetrics.totalSent - lastTotalSent;
          currentEPS := Trunc(sentSinceLastUpdate as real / duration);
        }
      }
    }

    /** One tick of the collect loop: compute the rate since the last sample,
        record it, score the last minute, and store the new sample. */
    method CollectTick(now: real)
      requires Logged()
      modifies this`currentMetrics, this`metricsHistory, this`lastTotalSent, this`lastTimestamp, this`log
      modifies epsBuffer`index, epsBuffer`samples, epsBuffer.slots
      ensures Logged() && log == old(log) + [currentMetrics]
      ensures currentMetrics == old(currentMetrics).(
                currentEPS := NextRate(old(log), old(currentMetrics).totalSent, now),
                timestamp := now,
                targetEPS := targetEPS,
                consistencyScore := Consistency.ScoreOf(Last(60, Rates(log))))
      ensures 0.0 <= currentMetrics.consistencyScore <= 100.0
    {
      hide Recent, Last, Consistency.ScoreOf, IsLog, NextRate, Rates, Ring.Valid;
      var current := currentMetrics;
      var currentEPS := MeasureRate(now);
      epsBuffer.Push(currentEPS);
      var score := Consistency.CalculateConsistencyScore(epsBuffer);
      var m := current.(currentEPS := currentEPS, timestamp := now, targetEPS := targetEPS, consistencyScore := score);
      lastTotalSent, lastTimestamp := current.totalSent, Some(now);
      LogNext(log, m);
      UpdateMetrics(m);
    }

    method UpdateMetrics(m: PerformanceMetrics)
      requires metricsHistory == Recent(HISTORY_SIZE, log)
      modifies this`currentMetrics, this`metricsHistory, this`log
      ensures currentMetrics == m && log == old(log) + [m]
      ensures metricsHistory == Recent(HISTORY_SIZE, log) == log[if |log| < 1800 then 0 else |log| - 1800..]
    {
      currentMetrics := m;
      RecentNext(HISTORY_SIZE, log, m);
      log := log + [m];
      metricsHistory := metricsHistory + [m];
      if |metricsHistory| > HISTORY_SIZE {
        metricsHistory := metricsHistory[1..];
      }
    }

    /** The samples of the last `duration` seconds, as far as the history still
        holds them; the same as from the whole log if the samples were at least a
        second apart and the query reaches back at most 30 minutes. */
    method GetMetricsHistory(now: real, duration: real) returns (result: seq<PerformanceMetrics>)
      requires Logged()
      ensures result == Later(metricsHistory, now - duration)
      ensures SecondsApart(log) && (log != [] ==> log[|log| - 1].timestamp <= now) && duration <= 1800.0 ==>
                result == Later(log, now - duration)
    {
      hide Recent, SecondsApart, IsLog, Rates;
      var cutoff := now - duration;
      result := [];
      for i := 0 to |metricsHistory|
        invariant result == Later(metricsHistory[..i], cutoff)
      {
        assert metricsHistory[..i + 1][..i] == metricsHistory[..i];
        if metricsHistory[i].timestamp > cutoff {
          result := result + [metricsHistory[i]];
        }
      }
      assert metricsHistory[..|metricsHistory|] == metricsHistory;
      if SecondsApart(log) && (log != [] ==> log[|log| - 1].timestamp <= now) && duration <= 1800.0 {
        HalfHourIsExact(log, now, duration);
      }
    }

    /** Replaces the aggregated part of the current metrics. */
    method UpdateWorkerMetrics(workers: seq<WorkerMetric>)
      modifies this`currentMetrics
      ensures var t := TotalsOf(workers);
              currentMetrics == old(currentMetrics).(
                totalSent := t.sent, totalErrors := t.errors, packetLoss := MeanLoss(t),
                activeWorkers := t.active, totalWorkers := |workers|, workerDetails := workers)
      ensures 0 <= currentMetrics.activeWorkers <= currentMetrics.totalWorkers
    {
      var t, meanLoss := AddUp(workers);
      ActiveCount(workers);
      currentMetrics := currentMetrics.(
        totalSent := t.sent, totalErrors := t.errors, packetLoss := meanLoss,
        activeWorkers := t.active, totalWorkers := |workers|, workerDetails := workers);
    }
  }

  lemma LogNext(log: seq<PerformanceMetrics>, m: PerformanceMetrics)
    requires IsLog(log) && m.currentEPS == NextRate(log, m.totalSent, m.timestamp)
    ensures IsLog(log + [m]) && Rates(log + [m]) == Rates(log) + [m.currentEPS]
  {
    var next := log + [m];
    forall i | 0 <= i < |next|
      ensures next[i].currentEPS == NextRate(next[..i], next[i].totalSent, next[i].timestamp)
    {
      if i < |log| {
        assert next[..i] == log[..i] && next[i] == log[i];
      } else {
        assert next[..i] == log;
      }
    }
  }

  function Collecting(on: bool, calls: seq<Call>): bool {
    if calls == [] then on else calls[|calls| - 1] == Start
  }

  /** How often the calls turn a collecting collector off. */
  function Pauses(on: bool, calls: seq<Call>): nat {
    if calls == [] then 0
    else
      var n := |calls| - 1;
      Pauses(on, calls[..n]) + if Collecting(on, calls[..n]) && calls[n] == Stop then 1 else 0
  }
}
