/** Whether the ultra loop's one percent steps reach its target, when every line in
    a batch is worth the same to the measured rate. */
module UltraTuning {
  import opened Common
  import opened Arithmetic
  import opened FeedbackLoop
  import opened UltraSchedule

  /** The rate measured for batches of `logs` lines, each worth `worth` lines per second. */
  function Rate(worth: real, logs: int): real {
    worth * logs as real
  }

  /** The measured rate is within one percent of the target. */
  predicate OnTarget(target: int, worth: real, logs: int) {
    0.99 * target as real <= Rate(worth, logs) <= 1.01 * target as real
  }

  predicate Below(target: int, worth: real, logs: int) {
    Rate(worth, logs) < 0.99 * target as real
  }

  predicate Above(target: int, worth: real, logs: int) {
    Rate(worth, logs) > 1.01 * target as real
  }

  /** The batch size after `n` windows. */
  function Windows(target: int, worth: real, logs: int, n: nat): int
    requires target > 0
    decreases n
  {
    if n == 0 then logs else Windows(target, worth, StepLogs(logs, target, Rate(worth, logs)), n - 1)
  }

  lemma RateGrows(worth: real, a: int, b: int)
    requires worth > 0.0 && a <= b
    ensures Rate(worth, a) <= Rate(worth, b)
  {
    Scale(worth, a as real, b as real);
  }

  lemma RateScaled(worth: real, logs: int, ratio: real, scaled: real)
    requires scaled == logs as real * ratio
    ensures worth * scaled == Rate(worth, logs) * ratio
  {
    Associate(worth, logs as real, ratio);
  }

  /** Which way the step goes. */
  lemma StepTaken(target: int, worth: real, logs: int)
    requires target > 0
    ensures var next := StepLogs(logs, target, Rate(worth, logs));
            && (Below(target, worth, logs) ==> next == Trunc(logs as real * 1.01))
            && (Above(target, worth, logs) ==> next == Trunc(logs as real * 0.99))
            && (OnTarget(target, worth, logs) ==> next == logs)
  {
    hide Rate;
    ErrorSign(target as real, Rate(worth, logs));
  }

  lemma ErrorSign(t: real, actual: real)
    requires t > 0.0
    ensures var err := (t - actual) / t;
            (err > 0.01 <==> actual < 0.99 * t) && (err < -0.01 <==> actual > 1.01 * t)
  {
    var err := (t - actual) / t;
    assert err * t == t - actual;
    TimesAtMost(err, 0.01, t, t - actual);
    TimesAtMost(-0.01, err, t, -0.01 * t);
  }

  /** A step up from a hundred lines or more adds a line and stays below the target. */
  lemma StepUp(target: int, worth: real, logs: int)
    requires target > 0 && worth > 0.0 && logs >= 100 && Below(target, worth, logs)
    ensures var next := StepLogs(logs, target, Rate(worth, logs));
            next > logs && !Above(target, worth, next)
  {
    StepTaken(target, worth, logs);
    var next, exact := StepLogs(logs, target, Rate(worth, logs)), logs as real * 1.01;
    RateScaled(worth, logs, 1.01, exact);
    Scale(worth, next as real, exact);
  }

  /** A step down from more than a hundred lines takes a line and does not leave the band downwards. */
  lemma StepDown(target: int, worth: real, logs: int)
    requires target > 0 && worth > 0.0 && logs > 100 && Above(target, worth, logs)
    ensures var next := StepLogs(logs, target, Rate(worth, logs));
            0 <= next < logs && !Below(target, worth, next)
  {
    StepTaken(target, worth, logs);
    var next := StepLogs(logs, target, Rate(worth, logs));
    var share := logs as real * 0.99;
    assert next as real * 1.01 >= share;
    RatesInOrder(worth, logs, next);
    hide Rate;
  }

  lemma RatesInOrder(worth: real, logs: int, next: int)
    requires worth > 0.0 && next as real * 1.01 >= logs as real * 0.99
    ensures Rate(worth, next) * 1.01 >= Rate(worth, logs) * 0.99
  {
    RateScaled(worth, logs, 0.99, logs as real * 0.99);
    RateScaled(worth, next, 1.01, next as real * 1.01);
    hide Rate;
    Scale(worth, logs as real * 0.99, next as real * 1.01);
  }

  /** From a hundred lines down the steps are single lines. */
  lemma StepOne(target: int, worth: real, logs: int)
    requires target > 0 && worth > 0.0 && 0 <= logs <= 100 && Above(target, worth, logs)
    ensures logs > 0 && StepLogs(logs, target, Rate(worth, logs)) == logs - 1
  {
    StepTaken(target, worth, logs);
  }

  predicate Stays(target: int, worth: real, logs: int)
    requires target > 0
  {
    StepLogs(logs, target, Rate(worth, logs)) == logs
  }

  lemma {:induction false} StaysForever(target: int, worth: real, logs: int, n: nat)
    requires target > 0 && Stays(target, worth, logs)
    ensures Windows(target, worth, logs, n) == logs
    decreases n
  {
    if n > 0 { StaysForever(target, worth, logs, n - 1); }
  }

  lemma SmallStays(target: int, worth: real, logs: int)
    requires target > 0 && 0 <= logs < 100 && Below(target, worth, logs)
    ensures Stays(target, worth, logs)
  {
    StepTaken(target, worth, logs);
  }

  lemma OnTargetStays(target: int, worth: real, logs: int)
    requires target > 0 && OnTarget(target, worth, logs)
    ensures Stays(target, worth, logs)
  {
    StepTaken(target, worth, logs);
  }

  lemma {:induction false} FromBelow(target: int, worth: real, logs: int, n: nat)
    requires target > 0 && worth > 0.0 && logs >= 100 && !Above(target, worth, logs)
    requires target as real <= Rate(worth, logs + n)
    ensures var r := Windows(target, worth, logs, n); Stays(target, worth, r) && OnTarget(target, worth, r)
    decreases n
  {
    hide Rate, StepLogs;
    if OnTarget(target, worth, logs) {
      OnTargetStays(target, worth, logs);
      StaysForever(target, worth, logs, n);
    } else {
      StepUp(target, worth, logs);
      var next := StepLogs(logs, target, Rate(worth, logs));
      RateGrows(worth, logs + n, next + n - 1);
      FromBelow(target, worth, next, n - 1);
    }
  }

  lemma {:induction false} FromAbove(target: int, worth: real, logs: int, n: nat)
    requires target > 0 && worth > 0.0 && 0 <= logs <= n && Above(target, worth, logs)
    ensures var r := Windows(target, worth, logs, n);
            Stays(target, worth, r) && (OnTarget(target, worth, r) <==> exists b :: OnTarget(target, worth, b))
    decreases n
  {
    hide Rate, StepLogs;
    if logs > 100 { StepDown(target, worth, logs); } else { StepOne(target, worth, logs); }
    var next := StepLogs(logs, target, Rate(worth, logs));
    if Above(target, worth, next) {
      FromAbove(target, worth, next, n - 1);
    } else {
      if OnTarget(target, worth, next) {
        OnTargetStays(target, worth, next);
      } else {
        SmallStays(target, worth, next);
        forall b ensures !OnTarget(target, worth, b) {
          if b <= next { RateGrows(worth, b, next); } else { RateGrows(worth, logs, b); }
        }
      }
      StaysForever(target, worth, next, n - 1);
    }
  }

  /** Main result: from every batch size and for every constant worth of a line,
      after enough windows the batch never changes again, and the measured rate is
      then within one percent of the target if and only if some batch size is, one
      that is no larger than the first when that has less than a hundred lines. */
  lemma UltraEndsOnTargetIff(target: int, worth: real, logs: int, n: nat, later: nat)
    requires target > 0 && worth > 0.0 && 0 <= logs <= n <= later && target as real <= Rate(worth, n)
    ensures var r := Windows(target, worth, logs, n);
            && Windows(target, worth, logs, later) == r
            && (OnTarget(target, worth, r) <==> exists b :: OnTarget(target, worth, b) && (logs >= 100 || b <= logs))
  {
    hide Rate, StepLogs;
    if Above(target, worth, logs) {
      FromAbove(target, worth, logs, n);
      forall b | OnTarget(target, worth, b) ensures b <= logs {
        if b > logs { RateGrows(worth, logs, b); }
      }
    } else if OnTarget(target, worth, logs) {
      OnTargetStays(target, worth, logs);
      StaysForever(target, worth, logs, n);
    } else if logs >= 100 {
      RateGrows(worth, n, logs + n);
      FromBelow(target, worth, logs, n);
    } else {
      SmallStays(target, worth, logs);
      StaysForever(target, worth, logs, n);
      forall b | b <= logs ensures !OnTarget(target, worth, b) {
        RateGrows(worth, b, logs);
      }
    }
    Compose(target, worth, logs, n, later - n);
    StaysForever(target, worth, Windows(target, worth, logs, n), later - n);
  }

  lemma {:induction false} Compose(target: int, worth: real, logs: int, n: nat, m: nat)
    requires target > 0
    ensures Windows(target, worth, logs, n + m) == Windows(target, worth, Windows(target, worth, logs, n), m)
    decreases n
  {
    if n > 0 { Compose(target, worth, StepLogs(logs, target, Rate(worth, logs)), n - 1, m); }
  }

  // ---- tick by tick ----

  /** The ticks of a window that begins at `begin` and is over at its last tick,
      `elapsed` seconds later, with `m` successful writes. */
  predicate IsUltraWindow(ticks: seq<Tick>, begin: real, elapsed: real, m: nat) {
    && ticks != [] && Successes(ticks) == m
    && ticks[|ticks| - 1].now == begin + elapsed
    && forall i | 0 <= i < |ticks| - 1 :: ticks[i].now - begin < 0.1
  }

  lemma {:induction false} OpenUltraWindow(target: int, logs: int, begin: real, ticks: seq<Tick>)
    requires target > 0 && forall i | 0 <= i < |ticks| :: ticks[i].now - begin < 0.1
    ensures UltraRun(target, UltraState(logs, 0, begin), ticks) == UltraState(logs, Successes(ticks) * logs, begin)
  {
    hide StepLogs;
    if ticks != [] {
      var n := |ticks| - 1;
      OpenUltraWindow(target, logs, begin, ticks[..n]);
      var k := Successes(ticks[..n]);
      assert (k + 1) * logs == k * logs + logs;
    }
  }

  /** Until the first window is over every batch has the same size. */
  lemma {:induction false} FirstUltraWindowLines(target: int, logs: int, begin: real, ticks: seq<Tick>)
    requires target > 0 && forall i | 0 <= i < |ticks| - 1 :: ticks[i].now - begin < 0.1
    ensures UltraLines(target, UltraState(logs, 0, begin), ticks) == Successes(ticks) * logs
  {
    hide UltraTick;
    if ticks != [] {
      var n := |ticks| - 1;
      FirstUltraWindowLines(target, logs, begin, ticks[..n]);
      OpenUltraWindow(target, logs, begin, ticks[..n]);
      OneMore(Successes(ticks[..n]), logs);
    }
  }

  /** A window whose writes are worth the same per line is one step of the law. */
  lemma UltraWindowIsStep(target: int, logs: int, begin: real, elapsed: real, m: nat, worth: real, ticks: seq<Tick>)
    requires target > 0 && elapsed >= 0.1 && IsUltraWindow(ticks, begin, elapsed, m) && worth == m as real / elapsed
    ensures UltraRun(target, UltraState(logs, 0, begin), ticks)
            == UltraState(StepLogs(logs, target, Rate(worth, logs)), 0, begin + elapsed)
  {
    hide UltraTick, Rate, StepLogs;
    var n := |ticks| - 1;
    OpenUltraWindow(target, logs, begin, ticks[..n]);
    LastUltraTick(target, logs, Successes(ticks[..n]), m, begin, elapsed, worth, ticks[n]);
  }

  lemma LastUltraTick(target: int, logs: int, k: nat, m: nat, begin: real, elapsed: real, worth: real, t: Tick)
    requires target > 0 && elapsed >= 0.1 && t.now == begin + elapsed && worth == m as real / elapsed
    requires m == k + if t.writeOk then 1 else 0
    ensures UltraTick(target, UltraState(logs, k * logs, begin), t)
            == UltraState(StepLogs(logs, target, Rate(worth, logs)), 0, begin + elapsed)
  {
    hide StepLogs, Rate;
    var sent := if t.writeOk then k * logs + logs else k * logs;
    assert sent == m * logs;
    MeasuredRate(m, logs, elapsed, worth);
  }

  lemma MeasuredRate(m: nat, logs: int, elapsed: real, worth: real)
    requires elapsed > 0.0 && worth == m as real / elapsed
    ensures (m * logs) as real / elapsed == Rate(worth, logs)
  {
    assert worth * elapsed == m as real;
    var rate, sent := Rate(worth, logs), (m * logs) as real;
    Associate(worth, logs as real, elapsed);
    Associate(worth, elapsed, logs as real);
    assert rate * elapsed == sent;
    Divided(rate, elapsed, sent);
  }

  lemma Divided(rate: real, elapsed: real, sent: real)
    requires elapsed > 0.0 && rate * elapsed == sent
    ensures sent / elapsed == rate
  {
  }

  /** Windows of equal length with equally many successful writes, one after the other. */
  predicate AreUltraWindows(windows: seq<seq<Tick>>, begin: real, elapsed: real, m: nat) {
    windows == []
    || (IsUltraWindow(windows[0], begin, elapsed, m) && AreUltraWindows(windows[1..], begin + elapsed, elapsed, m))
  }

  /** A run of such windows of the loop ends with the batch size the law gives. */
  lemma {:induction false} UltraRunWindows(target: int, logs: int, begin: real, elapsed: real, m: nat, worth: real, windows: seq<seq<Tick>>)
    requires target > 0 && elapsed >= 0.1 && worth == m as real / elapsed && AreUltraWindows(windows, begin, elapsed, m)
    ensures var s := UltraRun(target, UltraState(logs, 0, begin), Concat(windows));
            s.logs == Windows(target, worth, logs, |windows|) && s.windowSent == 0
    decreases |windows|
  {
    hide StepLogs, Rate, IsUltraWindow;
    if windows != [] {
      var next := StepLogs(logs, target, Rate(worth, logs));
      UltraWindowIsStep(target, logs, begin, elapsed, m, worth, windows[0]);
      UltraRunAppend(target, UltraState(logs, 0, begin), windows[0], Concat(windows[1..]));
      UltraRunWindows(target, next, begin + elapsed, elapsed, m, worth, windows[1..]);
    }
  }

  lemma {:induction false} UltraRunAppend(target: int, s: UltraState, a: seq<Tick>, b: seq<Tick>)
    requires target > 0
    ensures UltraRun(target, s, a + b) == UltraRun(target, UltraRun(target, s, a), b)
  {
    hide StepLogs;
    if b == [] {
      assert a + b == a;
    } else {
      assert (a + b)[..|a + b| - 1] == a + b[..|b| - 1];
      UltraRunAppend(target, s, a, b[..|b| - 1]);
    }
  }

  /** The theorem for runs of the loop: it ends within one percent of its target
      if and only if a batch size in its reach sends within one percent. */
  lemma UltraLoopEndsOnTargetIff(target: int, begin: real, elapsed: real, m: nat, windows: seq<seq<Tick>>)
    requires target > 0 && elapsed >= 0.1 && m >= 1 && AreUltraWindows(windows, begin, elapsed, m)
    requires InitialLogs(target) <= |windows| && target as real <= Rate(m as real / elapsed, |windows|)
    ensures var worth, initial := m as real / elapsed, InitialLogs(target);
            var r := UltraRun(target, UltraState(initial, 0, begin), Concat(windows)).logs;
            OnTarget(target, worth, r) <==> exists b :: OnTarget(target, worth, b) && (initial >= 100 || b <= initial)
  {
    hide Rate, StepLogs, OnTarget, AreUltraWindows;
    var worth := m as real / elapsed;
    QuotientPositive(m as real, elapsed);
    SmallTargetsStartSmall(target);
    UltraRunWindows(target, InitialLogs(target), begin, elapsed, m, worth, windows);
    UltraEndsOnTargetIff(target, worth, InitialLogs(target), |windows|, |windows|);
  }
}
