/** Adding up the workers' metrics. The pool hands them over in a Go map, whose
    iteration order is arbitrary. */
module Aggregation {
  import opened Folds

  /** A worker's metrics as the pool stores them, by worker. */
  datatype PoolMetric = PoolMetric(workerID: int, port: int, currentEPS: int, totalSent: int,
                                   errorCount: int, packetLoss: real, cpuUsage: real)

  /** A worker's metrics as the collector receives them. */
  datatype WorkerMetric = WorkerMetric(workerID: int, port: int, currentEPS: int, totalSent: int,
                                       errorCount: int, packetLoss: real, isActive: bool, cpuUsage: real)

  /** A worker counts as active while its estimated rate is positive. */
  function Convert(m: PoolMetric): WorkerMetric {
    WorkerMetric(m.workerID, m.port, m.currentEPS, m.totalSent, m.errorCount, m.packetLoss, m.currentEPS > 0, m.cpuUsage)
  }

  datatype Totals = Totals(sent: int, errors: int, loss: real, active: int)

  const NOTHING := Totals(0, 0, 0.0, 0)

  function AddWorker(t: Totals, w: WorkerMetric): Totals {
    if w.isActive then Totals(t.sent + w.totalSent, t.errors + w.errorCount, t.loss + w.packetLoss, t.active + 1) else t
  }

  function TotalsOf(workers: seq<WorkerMetric>): Totals {
    Fold(AddWorker, NOTHING, workers)
  }

  function MeanLoss(t: Totals): real {
    if t.active > 0 then t.loss / t.active as real else 0.0
  }

  /** The sums of the active workers, in the order given. */
  method AddUp(workers: seq<WorkerMetric>) returns (t: Totals, meanLoss: real)
    ensures t == TotalsOf(workers) && meanLoss == MeanLoss(t)
  {
    var totalSent, totalErrors, activeWorkers, totalPacketLoss := 0, 0, 0, 0.0;
    for i := 0 to |workers|
      invariant Totals(totalSent, totalErrors, totalPacketLoss, activeWorkers) == TotalsOf(workers[..i])
    {
      if workers[i].isActive {
        activeWorkers := activeWorkers + 1;
        totalSent := totalSent + workers[i].totalSent;
        totalErrors := totalErrors + workers[i].errorCount;
        totalPacketLoss := totalPacketLoss + workers[i].packetLoss;
      }
      FoldNext(AddWorker, NOTHING, workers, i);
    }
    assert workers[..|workers|] == workers;
    meanLoss := 0.0;
    if activeWorkers > 0 {
      meanLoss := totalPacketLoss / activeWorkers as real;
    }
    t := Totals(totalSent, totalErrors, totalPacketLoss, activeWorkers);
  }

  // ---- order ----

  lemma TotalsIgnoreOrder(a: seq<WorkerMetric>, b: seq<WorkerMetric>)
    requires multiset(a) == multiset(b)
    ensures TotalsOf(a) == TotalsOf(b)
  {
    FoldPermutation(AddWorker, NOTHING, a, b);
  }

  /** One iteration over the map: every key once. */
  ghost predicate Enumerates(order: seq<int>, pool: map<int, PoolMetric>) {
    && (forall i | 0 <= i < |order| :: order[i] in pool)
    && (forall id | id in pool :: multiset(order)[id] == 1)
  }

  /** The list the metrics loop builds from the map in a given order. */
  function Listed(order: seq<int>, pool: map<int, PoolMetric>): seq<WorkerMetric>
    requires forall i | 0 <= i < |order| :: order[i] in pool
  {
    seq(|order|, i requires 0 <= i < |order| => Convert(pool[order[i]]))
  }

  /** Each worker is listed as the pool has it, and as active while its rate is positive. */
  lemma ListedAsStored(order: seq<int>, pool: map<int, PoolMetric>, i: nat)
    requires i < |order| && forall i | 0 <= i < |order| :: order[i] in pool
    ensures var w, m := Listed(order, pool)[i], pool[order[i]];
            && w.workerID == m.workerID && w.port == m.port && w.currentEPS == m.currentEPS && w.totalSent == m.totalSent
            && w.errorCount == m.errorCount && w.packetLoss == m.packetLoss && w.cpuUsage == m.cpuUsage
            && (w.isActive <==> m.currentEPS > 0)
  {
  }

  /** So workers that never estimate their rate are all inactive, and nothing they
      have sent or failed to send is in the totals. */
  lemma {:induction false} NoEstimateNoTotals(order: seq<int>, pool: map<int, PoolMetric>)
    requires forall i | 0 <= i < |order| :: order[i] in pool && pool[order[i]].currentEPS <= 0
    ensures TotalsOf(Listed(order, pool)) == NOTHING
  {
    if order != [] {
      var n := |order| - 1;
      NoEstimateNoTotals(order[..n], pool);
      assert Listed(order, pool)[..n] == Listed(order[..n], pool);
    }
  }

  function AddKey(pool: map<int, PoolMetric>): (Totals, int) -> Totals {
    (t: Totals, id: int) => if id in pool then AddWorker(t, Convert(pool[id])) else t
  }

  lemma {:induction false} FoldListed(order: seq<int>, pool: map<int, PoolMetric>)
    requires forall i | 0 <= i < |order| :: order[i] in pool
    ensures TotalsOf(Listed(order, pool)) == Fold(AddKey(pool), NOTHING, order)
  {
    if order != [] {
      var n := |order| - 1;
      FoldListed(order[..n], pool);
      assert Listed(order, pool)[..n] == Listed(order[..n], pool);
    }
  }

  lemma SameMultiset(a: seq<int>, b: seq<int>, pool: map<int, PoolMetric>)
    requires Enumerates(a, pool) && Enumerates(b, pool)
    ensures multiset(a) == multiset(b)
  {
    forall id ensures multiset(a)[id] == multiset(b)[id] {
      if id !in pool {
        assert id !in a && id !in b;
      }
    }
  }

  /** Whatever order the map is iterated in, the totals are the same. */
  lemma MapOrderDoesNotMatter(a: seq<int>, b: seq<int>, pool: map<int, PoolMetric>)
    requires Enumerates(a, pool) && Enumerates(b, pool)
    ensures TotalsOf(Listed(a, pool)) == TotalsOf(Listed(b, pool))
  {
    SameMultiset(a, b, pool);
    AddingKeysCommutes(pool);
    FoldPermutation(AddKey(pool), NOTHING, a, b);
    FoldListed(a, pool);
    FoldListed(b, pool);
  }

  lemma AddingKeysCommutes(pool: map<int, PoolMetric>)
    ensures Commutes(AddKey(pool))
  {
  }

  /** An active worker adds its own counts to the totals of the others, and an
      inactive one nothing. */
  lemma WorkerAdds(workers: seq<WorkerMetric>, i: nat)
    requires i < |workers|
    ensures var t, rest, w := TotalsOf(workers), TotalsOf(Without(workers, i)), workers[i];
            if w.isActive then
              && t.sent == rest.sent + w.totalSent && t.errors == rest.errors + w.errorCount
              && t.loss == rest.loss + w.packetLoss && t.active == rest.active + 1
            else t == rest
    ensures var none := TotalsOf([]); none.sent == none.errors == none.active == 0 && none.loss == 0.0
  {
    FoldLast(AddWorker, NOTHING, workers, i);
  }

  // ---- bounds ----

  function ActiveSet(workers: seq<WorkerMetric>): set<nat> {
    set i: nat | i < |workers| && workers[i].isActive
  }

  /** The active count is the number of active workers, at most all of them. */
  lemma {:induction false} ActiveCount(workers: seq<WorkerMetric>)
    ensures TotalsOf(workers).active == |ActiveSet(workers)| <= |workers|
  {
    if workers != [] {
      var n := |workers| - 1;
      ActiveCount(workers[..n]);
      var before := ActiveSet(workers[..n]);
      assert n !in before;
      assert ActiveSet(workers) == if workers[n].isActive then before + {n} else before;
    }
  }

  lemma {:induction false} LossBounds(workers: seq<WorkerMetric>, lo: real, hi: real)
    requires forall w | w in workers && w.isActive :: lo <= w.packetLoss <= hi
    ensures var t := TotalsOf(workers); t.active >= 0 && t.active as real * lo <= t.loss <= t.active as real * hi
  {
    if workers != [] {
      var n := |workers| - 1;
      LossBounds(workers[..n], lo, hi);
      OneMore(TotalsOf(workers[..n]).active, lo);
      OneMore(TotalsOf(workers[..n]).active, hi);
      assert workers[n] in workers;
    }
  }

  lemma OneMore(k: int, x: real)
    ensures (k + 1) as real * x == k as real * x + x
  {
    assert (k + 1) as real == k as real + 1.0;
  }

  /** The mean loss lies between the smallest and largest loss of an active worker;
      without one it is zero. */
  lemma MeanLossBetween(workers: seq<WorkerMetric>, lo: real, hi: real)
    requires forall w | w in workers && w.isActive :: lo <= w.packetLoss <= hi
    ensures var t := TotalsOf(workers);
            if exists w :: w in workers && w.isActive then lo <= MeanLoss(t) <= hi else MeanLoss(t) == 0.0
  {
    var t := TotalsOf(workers);
    LossBounds(workers, lo, hi);
    ActiveCount(workers);
    if w :| w in workers && w.isActive {
      var i :| 0 <= i < |workers| && workers[i] == w;
      assert i in ActiveSet(workers);
      QuotientBetween(t.loss, t.active as real, lo, hi);
    } else {
      assert ActiveSet(workers) == {};
    }
  }

  lemma QuotientBetween(x: real, n: real, lo: real, hi: real)
    requires n > 0.0 && n * lo <= x <= n * hi
    ensures lo <= x / n <= hi
  {
    var q := x / n;
    assert q * n == x;
  }

  // ---- from one update to the next ----

  /** What workers that are no longer active had contributed. */
  function Dropped(before: seq<WorkerMetric>, after: seq<WorkerMetric>): int
    requires |before| == |after|
  {
    if before == [] then 0
    else
      var n := |before| - 1;
      Dropped(before[..n], after[..n]) + if before[n].isActive && !after[n].isActive then before[n].totalSent else 0
  }

  /** What the workers that are active now have added: all they sent if they were
      not active before. */
  function Gained(before: seq<WorkerMetric>, after: seq<WorkerMetric>): int
    requires |before| == |after|
  {
    if before == [] then 0
    else
      var n := |before| - 1;
      Gained(before[..n], after[..n])
      + if after[n].isActive then after[n].totalSent - (if before[n].isActive then before[n].totalSent else 0) else 0
  }

  /** The published total of sent logs falls from one update to the next exactly
      when more was dropped with workers gone inactive than the others gained. */
  lemma {:induction false} TotalFallsIff(before: seq<WorkerMetric>, after: seq<WorkerMetric>)
    requires |before| == |after|
    ensures TotalsOf(after).sent == TotalsOf(before).sent - Dropped(before, after) + Gained(before, after)
    ensures TotalsOf(after).sent < TotalsOf(before).sent <==> Dropped(before, after) > Gained(before, after)
  {
    if before != [] {
      TotalFallsIff(before[..|before| - 1], after[..|after| - 1]);
    }
  }

  /** So it never falls while every active worker stays active and no counter goes back. */
  lemma {:induction false} TotalGrowsWhileActive(before: seq<WorkerMetric>, after: seq<WorkerMetric>)
    requires |before| == |after|
    requires forall i | 0 <= i < |before| ::
               0 <= before[i].totalSent <= after[i].totalSent && (before[i].isActive ==> after[i].isActive)
    ensures Dropped(before, after) == 0 <= Gained(before, after)
    ensures TotalsOf(before).sent <= TotalsOf(after).sent
  {
    if before != [] {
      TotalGrowsWhileActive(before[..|before| - 1], after[..|after| - 1]);
    }
    TotalFallsIff(before, after);
  }

  /** It does fall when a worker's estimate reads zero once, although the worker has sent more. */
  lemma TotalCanFall(m: PoolMetric)
    requires m.currentEPS > 0 && m.totalSent > 0
    ensures TotalsOf([Convert(m.(currentEPS := 0, totalSent := m.totalSent + 1))]).sent < TotalsOf([Convert(m)]).sent
  {
    var before, after := [Convert(m)], [Convert(m.(currentEPS := 0, totalSent := m.totalSent + 1))];
    TotalFallsIff(before, after);
    assert before[..0] == [] && after[..0] == [];
  }

  // ---- from one map to the next ----

  predicate IsActiveIn(pool: map<int, PoolMetric>, id: int) {
    id in pool && Convert(pool[id]).isActive
  }

  /** What worker `id` contributes to the total of sent logs. */
  function Part(pool: map<int, PoolMetric>, id: int): int {
    if IsActiveIn(pool, id) then pool[id].totalSent else 0
  }

  function SumOver(order: seq<int>, part: int -> int): int {
    if order == [] then 0 else SumOver(order[..|order| - 1], part) + part(order[|order| - 1])
  }

  /** What worker `id` took from the total by no longer being active. */
  function DroppedPart(before: map<int, PoolMetric>, after: map<int, PoolMetric>): int -> int {
    id => if IsActiveIn(after, id) then 0 else Part(before, id)
  }

  /** What worker `id`, active now, has added: all it sent if it was not active before. */
  function GainedPart(before: map<int, PoolMetric>, after: map<int, PoolMetric>): int -> int {
    id => if IsActiveIn(after, id) then Part(after, id) - Part(before, id) else 0
  }

  /** What worker `id` had contributed if it is active both times. */
  function KeptPart(before: map<int, PoolMetric>, after: map<int, PoolMetric>): int -> int {
    id => if IsActiveIn(after, id) then Part(before, id) else 0
  }

  lemma {:induction false} TotalIsSum(order: seq<int>, pool: map<int, PoolMetric>)
    requires forall i | 0 <= i < |order| :: order[i] in pool
    ensures TotalsOf(Listed(order, pool)).sent == SumOver(order, id => Part(pool, id))
  {
    if order != [] {
      var n := |order| - 1;
      TotalIsSum(order[..n], pool);
      assert Listed(order, pool)[..n] == Listed(order[..n], pool);
    }
  }

  lemma {:induction false} BeforeSplits(order: seq<int>, before: map<int, PoolMetric>, after: map<int, PoolMetric>)
    ensures SumOver(order, id => Part(before, id))
            == SumOver(order, DroppedPart(before, after)) + SumOver(order, KeptPart(before, after))
  {
    if order != [] { BeforeSplits(order[..|order| - 1], before, after); }
  }

  lemma {:induction false} AfterSplits(order: seq<int>, before: map<int, PoolMetric>, after: map<int, PoolMetric>)
    ensures SumOver(order, id => Part(after, id))
            == SumOver(order, GainedPart(before, after)) + SumOver(order, KeptPart(before, after))
  {
    if order != [] { AfterSplits(order[..|order| - 1], before, after); }
  }

  lemma {:induction false} SumWithout(order: seq<int>, part: int -> int, k: nat)
    requires k < |order|
    ensures SumOver(order, part) == SumOver(Without(order, k), part) + part(order[k])
  {
    var n := |order| - 1;
    if k == n {
      assert Without(order, k) == order[..n];
    } else {
      SumWithout(order[..n], part, k);
      var w := Without(order, k);
      assert w[..|w| - 1] == Without(order[..n], k) && w[|w| - 1] == order[n];
    }
  }

  lemma CountWithout(order: seq<int>, k: nat)
    requires k < |order|
    ensures multiset(Without(order, k)) == multiset(order) - multiset{order[k]}
  {
    assert order == order[..k] + [order[k]] + order[k + 1..];
  }

  lemma {:induction false} SumOfZeros(order: seq<int>, part: int -> int)
    requires forall i | 0 <= i < |order| :: part(order[i]) == 0
    ensures SumOver(order, part) == 0
  {
    if order != [] { SumOfZeros(order[..|order| - 1], part); }
  }

  /** The two lists hold every key that matters equally often. */
  ghost predicate SameWhereItMatters(a: seq<int>, b: seq<int>, part: int -> int) {
    forall id | part(id) != 0 :: multiset(a)[id] == multiset(b)[id]
  }

  lemma NothingElseMatters(a: seq<int>, b: seq<int>, part: int -> int)
    requires a == [] && SameWhereItMatters(a, b, part)
    ensures forall i | 0 <= i < |b| :: part(b[i]) == 0
  {
    forall i | 0 <= i < |b| ensures part(b[i]) == 0 {
      var id := b[i];
      assert multiset(b)[id] > 0 by { assert id in multiset(b); }
      assert part(id) != 0 ==> multiset(a)[id] == multiset(b)[id];
    }
  }

  /** Such lists have the same sum. */
  lemma {:induction false} SameSum(a: seq<int>, b: seq<int>, part: int -> int)
    requires SameWhereItMatters(a, b, part)
    ensures SumOver(a, part) == SumOver(b, part)
    decreases |a|
  {
    hide SameWhereItMatters;
    if a == [] {
      NothingElseMatters(a, b, part);
      SumOfZeros(b, part);
    } else {
      var n := |a| - 1;
      if part(a[n]) == 0 {
        DropZero(a, b, part);
        SameSum(a[..n], b, part);
      } else {
        var k := FindMatch(a, b, part);
        SumWithout(b, part, k);
        SameSum(a[..n], Without(b, k), part);
      }
    }
  }

  lemma DropZero(a: seq<int>, b: seq<int>, part: int -> int)
    requires a != [] && SameWhereItMatters(a, b, part) && part(a[|a| - 1]) == 0
    ensures SameWhereItMatters(a[..|a| - 1], b, part)
  {
    var n := |a| - 1;
    assert a == a[..n] + [a[n]];
    assert multiset(a) == multiset(a[..n]) + multiset{a[n]};
  }

  lemma FindMatch(a: seq<int>, b: seq<int>, part: int -> int) returns (k: nat)
    requires a != [] && SameWhereItMatters(a, b, part) && part(a[|a| - 1]) != 0
    ensures k < |b| && b[k] == a[|a| - 1] && SameWhereItMatters(a[..|a| - 1], Without(b, k), part)
  {
    var n := |a| - 1;
    var x := a[n];
    assert a == a[..n] + [x];
    assert multiset(a) == multiset(a[..n]) + multiset{x};
    assert x in multiset(b);
    k :| 0 <= k < |b| && b[k] == x;
    CountWithout(b, k);
  }

  /** From one map of workers to the next, whatever workers have come or gone and
      in whatever orders the two are iterated, the published total falls exactly
      when more was dropped with workers gone inactive than the active ones gained. */
  lemma MapTotalFallsIff(before: map<int, PoolMetric>, a: seq<int>, after: map<int, PoolMetric>, b: seq<int>)
    requires Enumerates(a, before) && Enumerates(b, after)
    ensures var dropped, gained := SumOver(a, DroppedPart(before, after)), SumOver(b, GainedPart(before, after));
            && TotalsOf(Listed(b, after)).sent == TotalsOf(Listed(a, before)).sent - dropped + gained
            && (TotalsOf(Listed(b, after)).sent < TotalsOf(Listed(a, before)).sent <==> dropped > gained)
  {
    TotalIsSum(a, before);
    TotalIsSum(b, after);
    BeforeSplits(a, before, after);
    AfterSplits(b, before, after);
    var kept := KeptPart(before, after);
    forall id | kept(id) != 0 ensures multiset(a)[id] == multiset(b)[id] {
      assert id in before && id in after;
    }
    SameSum(a, b, kept);
  }
}
