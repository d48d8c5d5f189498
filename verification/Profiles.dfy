/** The profile table and the arithmetic that turns a target rate into workers. */
module Profiles {
  import opened Arithmetic
  import opened Common

  datatype EPSProfile = EPSProfile(
    name: string, targetEPS: int, workerCount: int, batchSize: int, tickerInterval: int,
    sendBufferSize: int, receiveBufferSize: int, gogc: int, memoryLimit: int, precisionMode: string)

  const GIB := 1024 * 1024 * 1024
  const MAX_WORKERS := 200

  const EPS_PROFILES: map<string, EPSProfile> := map[
    "100k" := EPSProfile("100k", 100_000, 10, 100, 5000, 8192, 4096, 100, 2 * GIB, "high"),
    "500k" := EPSProfile("500k", 500_000, 50, 100, 5000, 16384, 8192, 150, 4 * GIB, "high"),
    "1m" := EPSProfile("1m", 1_000_000, 40, 250, 10000, 32768, 16384, 200, 6 * GIB, "performance"),
    "2m" := EPSProfile("2m", 2_000_000, 80, 250, 10000, 65536, 32768, 200, 8 * GIB, "performance"),
    "4m" := EPSProfile("4m", 4_000_000, 160, 250, 10000, 131072, 65536, 200, 12 * GIB, "performance"),
    "custom" := EPSProfile("custom", 0, 0, 100, 50, 65536, 32768, 200, 8 * GIB, "medium")]

  function GetProfile(name: string): Option<EPSProfile> {
    if name in EPS_PROFILES then Some(EPS_PROFILES[name]) else None
  }

  function Min(a: int, b: int): int { if a < b then a else b }

  function Max(a: int, b: int): int { if a > b then a else b }

  /** The rate one worker is meant to carry at this load. */
  function OptimalPerWorker(target: int): int {
    if target <= 100_000 then 10_000 else if target <= 500_000 then 20_000 else 25_000
  }

  /** One worker per optimal share, capped by ten workers per core and by 200. */
  function WorkerCount(target: int, cores: int): int {
    Min(MAX_WORKERS, Min(10 * cores, Max(1, target / OptimalPerWorker(target))))
  }

  /** The number of workers for a target rate on a machine with `cores` cores.
      None of the minimum-worker branches for one, two and four million ever
      raises it. */
  method CalculateWorkerCount(target: int, cores: int) returns (workers: int)
    ensures target >= 1 ==> workers == WorkerCount(target, cores)
    ensures target >= 1 && cores >= 1 ==> 1 <= workers <= MAX_WORKERS
    ensures workers <= MAX_WORKERS
  {
    var optimalEPSPerWorker;
    if target <= 100_000 {
      optimalEPSPerWorker := 10_000;
    } else if target <= 500_000 {
      optimalEPSPerWorker := 20_000;
    } else {
      optimalEPSPerWorker := 25_000;
    }
    workers := Quot(target, optimalEPSPerWorker);
    if workers == 0 {
      workers := 1;
    }
    ghost var share := workers;
    if target >= 4_000_000 && workers < 160 {
      workers := 160;
    } else if target >= 2_000_000 && workers < 80 {
      workers := 80;
    } else if target >= 1_000_000 && workers < 40 {
      workers := 40;
    }
    assert workers == share;
    var maxWorkers := cores * 10;
    if workers > maxWorkers {
      workers := maxWorkers;
    }
    if workers > MAX_WORKERS {
      workers := MAX_WORKERS;
    }
  }

  /** That is the most workers that can each be given the optimal share, but at least
      one, and within the two caps. */
  lemma MostWorkers(target: int, cores: int, share: int)
    requires target >= 1 && cores >= 1
    requires share == if target <= 100_000 then 10_000 else if target <= 500_000 then 20_000 else 25_000
    ensures var n := WorkerCount(target, cores);
            && 1 <= n <= 200 && n <= 10 * cores && (n == 1 || n * share <= target)
            && (n == 200 || n == 10 * cores || target < (n + 1) * share)
  {
  }

  /** The share of the target each worker is given. */
  function WorkerShare(target: int, workers: int): int
    requires workers != 0
  {
    Quot(target, workers)
  }

  /** The shares of all workers fall short of the target by less than one log per worker. */
  lemma SharesCoverTarget(target: int, workers: int)
    requires target >= 0 && workers >= 1
    ensures var share := WorkerShare(target, workers);
            0 <= share && workers * share <= target < workers * share + workers
  {
  }

  /** On 20 cores or more every worker is asked for less than 26,250 logs per
      second exactly while the whole target stays below 5,250,000, where the cap of
      200 workers begins to bite; in particular up to five million. */
  lemma ShareBounded(target: int, cores: int, workers: int)
    requires 1 <= target && cores >= 20
    requires workers == WorkerCount(target, cores)
    ensures target <= 5_000_000 ==> WorkerShare(target, workers) < 26_250
    ensures WorkerShare(target, workers) < 26_250 <==> target < 5_250_000
  {
    QuotientBelow(target, workers, 26_250);
  }

  lemma QuotientBelow(x: int, n: int, bound: int)
    requires n >= 1 && x >= 0
    ensures x / n < bound <==> x < n * bound
  {
    var q := x / n;
    assert n * q <= x < n * q + n;
    if q < bound {
      Multiples(n, q + 1, bound);
    } else {
      Multiples(n, bound, q);
    }
  }

  lemma Multiples(n: int, a: int, b: int)
    requires n >= 1 && a <= b
    ensures n * a <= n * b
  {
  }

  /** Where a larger target gets fewer workers: past 100,000 as long as it is below
      20,000 per worker of the smaller one, and past 500,000 as long as it is below
      25,000 per worker of the smaller one. */
  predicate CountFalls(target: int, larger: int, cores: int) {
    || (target <= 100_000 < larger <= 500_000 && larger / 20_000 < target / 10_000)
    || (100_000 < target <= 500_000 < larger && larger / 25_000 < Min(10 * cores, target / 20_000))
  }

  /** The number of workers grows with the target except exactly there. Within one
      band of the optimal share, and from below 100,000 to above 500,000, it never falls. */
  lemma WorkerCountFallsIff(target: int, larger: int, cores: int)
    requires 1 <= target <= larger && cores >= 1
    ensures WorkerCount(larger, cores) < WorkerCount(target, cores) <==> CountFalls(target, larger, cores)
  {
    QuotientsGrow(target, larger);
  }

  lemma QuotientsGrow(x: int, y: int)
    requires 1 <= x <= y
    ensures x / 10_000 <= y / 10_000 && x / 20_000 <= y / 20_000 && x / 25_000 <= y / 25_000
  {
  }

  /** For instance, on any machine 100,000 gets ten workers and 100,001 five. */
  lemma WorkerCountNotMonotone(cores: int)
    requires cores >= 1
    ensures WorkerCount(100_000, cores) == 10 && WorkerCount(100_001, cores) == 5
  {
  }

  /** The profile for a custom rate. */
  method CalculateCustomProfile(target: int, cores: int) returns (profile: EPSProfile)
    ensures profile.targetEPS == target && profile.name == "custom" && profile.precisionMode == "medium"
    ensures target >= 1 && cores >= 1 ==> 1 <= profile.workerCount <= MAX_WORKERS
    ensures target >= 1 ==> profile.workerCount == WorkerCount(target, cores)
    ensures target >= 1 ==> profile.memoryLimit == Min(12, 2 + Max(0, target / 500_000 - 1)) * GIB
    ensures profile.sendBufferSize == Min(262144, Max(8192, Quot(target, 10)))
    ensures profile.receiveBufferSize == profile.sendBufferSize / 2 && profile.gogc == 200
    ensures (profile.batchSize, profile.tickerInterval) ==
            if target <= 100_000 then (10, 100) else if target <= 500_000 then (20, 40)
            else (if target <= 1_000_000 then 50 else if target <= 2_000_000 then 100 else 200, 50)
  {
    profile := EPS_PROFILES["custom"];
    var workers := CalculateWorkerCount(target, cores);
    profile := profile.(targetEPS := target, workerCount := workers);
    if target <= 100_000 {
      profile := profile.(batchSize := 10, tickerInterval := 100);
    } else if target <= 500_000 {
      profile := profile.(batchSize := 20, tickerInterval := 40);
    } else if target <= 1_000_000 {
      profile := profile.(batchSize := 50, tickerInterval := 50);
    } else if target <= 2_000_000 {
      profile := profile.(batchSize := 100, tickerInterval := 50);
    } else {
      profile := profile.(batchSize := 200, tickerInterval := 50);
    }
    profile := profile.(memoryLimit := Min(12, Max(2, Quot(target, 500_000) + 1)) * GIB);
    profile := profile.(sendBufferSize := Min(262144, Max(8192, Quot(target, 10))));
    profile := profile.(receiveBufferSize := profile.sendBufferSize / 2);
  }

  /** The workers of a profile cut down to a smaller rate, in proportion but never to none. */
  function ScaledWorkers(p: EPSProfile, target: int): int
    requires p.targetEPS > 0
  {
    if target < p.targetEPS then Max(1, p.workerCount * target / p.targetEPS) else p.workerCount
  }

  /** That is the most workers that carry no more than the proportion, but at least one. */
  lemma MostOfProportion(p: EPSProfile, target: int)
    requires 0 < target < p.targetEPS && p.workerCount >= 1
    ensures var n := ScaledWorkers(p, target);
            && n >= 1 && (n == 1 || n * p.targetEPS <= p.workerCount * target)
            && p.workerCount * target < (n + 1) * p.targetEPS
  {
    var q := p.workerCount * target / p.targetEPS;
    Multiples(p.targetEPS, q, Max(1, q));
  }

  method ScaleDown(p: EPSProfile, target: int) returns (profile: EPSProfile)
    requires target < p.targetEPS && p.targetEPS > 0 && p.workerCount >= 1
    ensures profile == p.(workerCount := ScaledWorkers(p, target), targetEPS := target)
    ensures 1 <= profile.workerCount <= p.workerCount
  {
    var ratio := target as real / p.targetEPS as real;
    var exact := p.workerCount as real * ratio;
    var scaled := Trunc(exact);
    Proportion(p.workerCount, ratio, exact, target, p.targetEPS);
    profile := p.(workerCount := Max(1, scaled), targetEPS := target);
  }

  /** Truncating the real proportion is dividing integers, and gives no more than the whole. */
  lemma Proportion(count: int, ratio: real, exact: real, part: int, whole: int)
    requires count >= 1 && whole > 0 && part < whole
    requires ratio == part as real / whole as real && exact == count as real * ratio
    ensures Max(1, Trunc(exact)) == Max(1, count * part / whole) <= count
  {
    var product := count * part;
    assert ratio * whole as real == part as real;
    Associate(count as real, ratio, whole as real);
    assert exact * whole as real == product as real;
    FloorOfQuotient(exact, product, whole);
    if part >= 0 {
      Multiples(count, part, whole);
      QuotientBelow(product, whole, count + 1);
    } else {
      Multiples(count, part, -1);
      ScaleStrict(whole as real, exact, 0.0);
    }
  }

  lemma FloorOfQuotient(exact: real, product: int, whole: int)
    requires whole > 0 && exact * whole as real == product as real
    ensures exact.Floor == product / whole
  {
    var w, q, f := whole as real, product / whole, exact.Floor;
    assert whole * q <= product < whole * q + whole;
    if f < q {
      ScaleStrict(w, exact, q as real);
    } else if f > q {
      Scale(w, (q + 1) as real, exact);
    }
  }

  const PROFILE_ORDER := ["100k", "500k", "1m", "2m", "4m"]

  /** The table in numbers: each profile's name is its rate, its workers share that
      rate without a remainder at 10,000 or 25,000 logs per second, and its batches
      and ticker amount to that share in performance mode and to twice it in the mode
      that does not measure itself. Buffers double from profile to profile. */
  lemma ProfileNumbers(i: nat)
    requires i < |PROFILE_ORDER|
    ensures PROFILE_ORDER[i] in EPS_PROFILES
    ensures var p := EPS_PROFILES[PROFILE_ORDER[i]];
            var share := if i < 2 then 10_000 else 25_000;
            && p.name == PROFILE_ORDER[i] && p.targetEPS == [100_000, 500_000, 1_000_000, 2_000_000, 4_000_000][i]
            && p.workerCount * share == p.targetEPS && WorkerShare(p.targetEPS, p.workerCount) == share
            && p.precisionMode == (if i < 2 then "high" else "performance")
            && p.tickerInterval == (if i < 2 then 5_000 else 10_000)
            && p.batchSize * 1_000_000 == p.tickerInterval * (if i < 2 then 2 * share else share)
            && p.sendBufferSize == 2 * p.receiveBufferSize && p.sendBufferSize == [8, 16, 32, 64, 128][i] * 1024
            && p.memoryLimit == [2, 4, 6, 8, 12][i] * 1_073_741_824 && p.gogc == [100, 150, 200, 200, 200][i]
  {
  }

  /** Profile i is the first in order that can carry the rate. */
  predicate IsFirst(i: nat, target: int)
    requires i < |PROFILE_ORDER|
  {
    && target <= EPS_PROFILES[PROFILE_ORDER[i]].targetEPS
    && forall j | 0 <= j < i :: EPS_PROFILES[PROFILE_ORDER[j]].targetEPS < target
  }

  /** The first of the five profiles that can carry the rate, its workers scaled
      down in proportion but never to none; beyond the largest, a custom profile. */
  method GetProfileForEPS(target: int, cores: int) returns (profile: EPSProfile)
    ensures profile.targetEPS == target
    ensures target >= 1 && cores >= 1 ==> 1 <= profile.workerCount <= MAX_WORKERS
    ensures target > 4_000_000 ==>
              && profile.name == "custom" && profile.precisionMode == "medium" && profile.workerCount == WorkerCount(target, cores)
              && profile.batchSize == 100 && profile.tickerInterval == 50 && profile.gogc == 200
              && profile.sendBufferSize == 65_536 && profile.receiveBufferSize == 32_768 && profile.memoryLimit == 8_589_934_592
    ensures target <= 4_000_000 ==>
              exists i :: 0 <= i < |PROFILE_ORDER| && IsFirst(i, target)
                          && var p := EPS_PROFILES[PROFILE_ORDER[i]];
                             profile == p.(targetEPS := target, workerCount := ScaledWorkers(p, target))
  {
    for i := 0 to |PROFILE_ORDER|
      invariant forall j | 0 <= j < i :: EPS_PROFILES[PROFILE_ORDER[j]].targetEPS < target
    {
      var p := EPS_PROFILES[PROFILE_ORDER[i]];
      if p.targetEPS >= target {
        profile := p;
        if target < p.targetEPS {
          profile := ScaleDown(p, target);
        }
        assert IsFirst(i, target) && profile == p.(targetEPS := target, workerCount := ScaledWorkers(p, target));
        return;
      }
    }
    assert EPS_PROFILES[PROFILE_ORDER[4]].targetEPS < target;
    profile := EPS_PROFILES["custom"];
    var workers := CalculateWorkerCount(target, cores);
    profile := profile.(targetEPS := target, workerCount := workers);
  }
}
