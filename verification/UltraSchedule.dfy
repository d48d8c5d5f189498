/** The ultra loop: an absolute-time schedule that does not drift, and a batch
    size stepped by one percent. */
module UltraSchedule {
  import opened Common
  import opened FeedbackLoop

  // ---- the schedule ----

  /** The work between the starts of batches i and k if nothing waits. */
  function Work(work: seq<int>, i: nat, k: nat): int
    requires i <= k <= |work|
    decreases k - i
  {
    if i == k then 0 else work[i] + Work(work, i + 1, k)
  }

  lemma {:induction false} WorkNext(work: seq<int>, i: nat, k: nat)
    requires i <= k < |work|
    ensures Work(work, i, k + 1) == Work(work, i, k) + work[k]
    decreases k - i
  {
    if i < k { WorkNext(work, i + 1, k); }
  }

  /** When batch k would start if batch j started exactly on its slot and nothing
      waited in between. */
  function Path(t0: int, interval: int, work: seq<int>, j: nat, k: nat): int
    requires j <= k <= |work|
  {
    t0 + j * interval + Work(work, j, k)
  }

  /** The times a schedule promises: each start is the largest of its paths. */
  ghost predicate IsSchedule(t0: int, interval: int, work: seq<int>, starts: seq<int>) {
    && |starts| == |work| + 1
    && forall k | 0 <= k < |starts| :: IsMaxPath(t0, interval, work, k, starts[k])
  }

  ghost predicate IsMaxPath(t0: int, interval: int, work: seq<int>, k: nat, start: int)
    requires k <= |work|
  {
    && (forall j | 0 <= j <= k :: Path(t0, interval, work, j, k) <= start)
    && (exists j :: 0 <= j <= k && Path(t0, interval, work, j, k) == start)
  }

  /** One run of the loop: send, advance the slot by the interval, wait for it.
      `work[k]` is the time batch k takes; the result holds the start of every
      batch, and last the time the loop is ready for one more. */
  method RunSchedule(t0: int, interval: int, work: seq<int>) returns (starts: seq<int>)
    requires interval > 0 && forall i | 0 <= i < |work| :: work[i] >= 0
    ensures IsSchedule(t0, interval, work, starts)
  {
    var now, nextSendTime := t0, t0;
    starts := [];
    assert Path(t0, interval, work, 0, 0) == t0;
    for k := 0 to |work|
      invariant |starts| == k
      invariant nextSendTime == t0 + k * interval
      invariant IsMaxPath(t0, interval, work, k, now)
      invariant forall i | 0 <= i < k :: IsMaxPath(t0, interval, work, i, starts[i])
    {
      starts := starts + [now];
      ghost var before := now;
      now := now + work[k];
      nextSendTime := nextSendTime + interval;
      if now < nextSendTime {
        now := nextSendTime;
      }
      NextStart(t0, interval, work, k, before, now);
    }
    starts := starts + [now];
  }

  lemma NextStart(t0: int, interval: int, work: seq<int>, k: nat, start: int, next: int)
    requires k < |work| && IsMaxPath(t0, interval, work, k, start)
    requires next == (if start + work[k] < t0 + (k + 1) * interval then t0 + (k + 1) * interval else start + work[k])
    ensures IsMaxPath(t0, interval, work, k + 1, next)
  {
    var m := k + 1;
    var slot := Path(t0, interval, work, m, m);
    assert slot == t0 + m * interval;
    forall j | 0 <= j <= m
      ensures Path(t0, interval, work, j, m) <= next
    {
      if j <= k {
        WorkNext(work, j, k);
        assert Path(t0, interval, work, j, k) <= start;
      }
    }
    var j :| 0 <= j <= k && Path(t0, interval, work, j, k) == start;
    WorkNext(work, j, k);
    assert Path(t0, interval, work, j, k + 1) == start + work[k];
    assert next == slot || next == start + work[k];
  }

  /** A batch never starts before its slot. */
  lemma NeverAhead(t0: int, interval: int, work: seq<int>, starts: seq<int>, k: nat)
    requires IsSchedule(t0, interval, work, starts) && k < |starts|
    ensures t0 + k * interval <= starts[k]
  {
    assert Path(t0, interval, work, k, k) <= starts[k];
  }

  /** At most floor((t - t0) / interval) + 1 batches have started by time t. */
  lemma StartedBy(t0: int, interval: int, work: seq<int>, starts: seq<int>, t: int)
    requires IsSchedule(t0, interval, work, starts) && interval > 0 && t >= t0
    ensures var started := set k | 0 <= k < |starts| && starts[k] <= t;
            |started| <= (t - t0) / interval + 1
  {
    var started, q := set k | 0 <= k < |starts| && starts[k] <= t, (t - t0) / interval;
    SlotsPassed(0, interval, t - t0);
    forall k | k in started ensures 0 <= k < q + 1 {
      NeverAhead(t0, interval, work, starts, k);
      SlotsPassed(k, interval, t - t0);
    }
    RangeSize(started, q + 1);
  }

  lemma {:induction false} RangeSize(s: set<int>, n: nat)
    requires forall k | k in s :: 0 <= k < n
    ensures |s| <= n
  {
    if n > 0 {
      RangeSize(s - {n - 1}, n - 1);
    } else {
      assert forall k :: k !in s;
    }
  }

  lemma SlotsPassed(k: nat, interval: int, span: int)
    requires interval > 0 && k * interval <= span
    ensures k <= span / interval
  {
    var q := span / interval;
    assert span < q * interval + interval;
    if q + 1 <= k {
      assert (q + 1) * interval <= k * interval by { Grow(q + 1, k, interval); }
    }
  }

  lemma Grow(a: int, b: int, n: int)
    requires a <= b && n > 0
    ensures a * n <= b * n
  {
  }

  /** How late batch k starts. */
  function Lag(t0: int, interval: int, starts: seq<int>, k: nat): int
    requires k < |starts|
  {
    starts[k] - (t0 + k * interval)
  }

  lemma LagNext(t0: int, interval: int, work: seq<int>, starts: seq<int>, k: nat)
    requires IsSchedule(t0, interval, work, starts) && k < |work|
    ensures var next := Lag(t0, interval, starts, k) + work[k] - interval;
            Lag(t0, interval, starts, k + 1) == if next < 0 then 0 else next
  {
    var next := if starts[k] + work[k] < t0 + (k + 1) * interval then t0 + (k + 1) * interval else starts[k] + work[k];
    NextStart(t0, interval, work, k, starts[k], next);
    MaxPathUnique(t0, interval, work, k + 1, next, starts[k + 1]);
    assert (k + 1) * interval == k * interval + interval;
  }

  lemma MaxPathUnique(t0: int, interval: int, work: seq<int>, k: nat, a: int, b: int)
    requires k <= |work| && IsMaxPath(t0, interval, work, k, a) && IsMaxPath(t0, interval, work, k, b)
    ensures a == b
  {
  }

  /** While every batch leaves `delta` of its interval to spare, the lag shrinks
      by `delta` per batch until it is gone, and it stays gone: after n batches
      nothing is left of a lag of up to n * delta. */
  lemma {:induction false} LagDisappears(t0: int, interval: int, work: seq<int>, starts: seq<int>, from: nat, n: nat, delta: int)
    requires IsSchedule(t0, interval, work, starts) && delta >= 0 && from + n <= |work|
    requires forall i | from <= i < from + n :: work[i] <= interval - delta
    ensures var left := Lag(t0, interval, starts, from) - n * delta;
            0 <= Lag(t0, interval, starts, from + n) <= if left < 0 then 0 else left
    decreases n
  {
    hide Lag, IsMaxPath;
    if n == 0 {
      LagNotNegative(t0, interval, work, starts, from);
    } else {
      LagNext(t0, interval, work, starts, from);
      LagDisappears(t0, interval, work, starts, from + 1, n - 1, delta);
      assert n * delta == (n - 1) * delta + delta;
    }
  }

  lemma LagNotNegative(t0: int, interval: int, work: seq<int>, starts: seq<int>, k: nat)
    requires IsSchedule(t0, interval, work, starts) && k < |starts|
    ensures Lag(t0, interval, starts, k) >= 0
  {
    NeverAhead(t0, interval, work, starts, k);
  }

  // ---- the batch size ----

  function InitialLogs(target: int): int {
    Trunc(Quot(target * 10, 1000) as real * 1.064)
  }

  /** The batch size after a window that measured `actual` logs per second. */
  function StepLogs(logs: int, target: int, actual: real): int
    requires target > 0
  {
    var errorRate := (target as real - actual) / target as real;
    if errorRate > 0.01 then Trunc(logs as real * 1.01)
    else if errorRate < -0.01 then Trunc(logs as real * 0.99)
    else logs
  }

  /** A too small batch can be stepped up if and only if it has a hundred logs;
      stepping down always takes at least one until nothing is left. */
  lemma StepLogsMoves(logs: int, target: int, actual: real)
    requires target > 0 && logs >= 0
    ensures var next := StepLogs(logs, target, actual);
            && next >= 0
            && ((target as real - actual) / target as real > 0.01 ==> (next > logs <==> logs >= 100))
            && ((target as real - actual) / target as real < -0.01 ==> (next < logs <==> logs > 0))
            && (logs < 100 ==> next <= logs)
            && (next == 0 <== logs == 0)
  {
  }

  /** The loop between two ticks: the batch size, what the current window has sent
      and when it began. */
  datatype UltraState = UltraState(logs: int, windowSent: int, lastAdjustTime: real)

  function UltraTick(target: int, s: UltraState, t: Tick): UltraState
    requires target > 0
  {
    var sent := if t.writeOk then s.windowSent + s.logs else s.windowSent;
    var elapsed := t.now - s.lastAdjustTime;
    if elapsed >= 0.1 then UltraState(StepLogs(s.logs, target, sent as real / elapsed), 0, t.now)
    else UltraState(s.logs, sent, s.lastAdjustTime)
  }

  function UltraRun(target: int, s: UltraState, ticks: seq<Tick>): UltraState
    requires target > 0
  {
    if ticks == [] then s else UltraTick(target, UltraRun(target, s, ticks[..|ticks| - 1]), ticks[|ticks| - 1])
  }

  /** The lines in the batches of a run whose writes succeed. */
  function UltraLines(target: int, s: UltraState, ticks: seq<Tick>): int
    requires target > 0
  {
    if ticks == [] then 0
    else
      var n := |ticks| - 1;
      UltraLines(target, s, ticks[..n]) + if ticks[n].writeOk then UltraRun(target, s, ticks[..n]).logs else 0
  }

  /** Once below a hundred the batch never grows again, whatever is measured, and
      an empty batch stays empty. */
  lemma {:induction false} SmallBatchNeverGrows(target: int, s: UltraState, ticks: seq<Tick>)
    requires target > 0 && 0 <= s.logs
    ensures 0 <= UltraRun(target, s, ticks).logs
    ensures s.logs < 100 ==> UltraRun(target, s, ticks).logs <= s.logs
  {
    if ticks != [] {
      var n := |ticks| - 1;
      SmallBatchNeverGrows(target, s, ticks[..n]);
      TickMoves(target, UltraRun(target, s, ticks[..n]), ticks[n]);
    }
  }

  lemma TickMoves(target: int, s: UltraState, t: Tick)
    requires target > 0 && 0 <= s.logs
    ensures var next := UltraTick(target, s, t).logs; 0 <= next && (s.logs < 100 ==> next <= s.logs)
  {
    hide StepLogs;
    var sent := if t.writeOk then s.windowSent + s.logs else s.windowSent;
    var elapsed := t.now - s.lastAdjustTime;
    if elapsed >= 0.1 {
      StepLogsMoves(s.logs, target, sent as real / elapsed);
    }
  }

  /** So a worker whose target is below 9,400 starts with a batch it can only shrink. */
  lemma SmallTargetsStartSmall(target: int)
    requires target >= 0
    ensures 0 <= InitialLogs(target)
    ensures InitialLogs(target) < 100 <==> target < 9400
  {
  }
}
