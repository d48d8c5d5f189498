/** The proportional rate-control law shared by the medium and performance send
    loops, and what its closed loop does against a plant of constant gain.

    Rates are fractions of the target, so 1.0 is on target. A window in which `m`
    sends succeed, scaled to one second by `scale`, measures m * scale / target
    for every log in a batch; that number is the plant's quantum. */
module RateControl {
  import opened Arithmetic

  datatype Law = Law(k: real, c: real, d: real, lo: real, hi: real) {
    /** Gain, step clamp, deadband and range are positive, the deadband is less
        than half the target, and gain plus clamp does not exceed one. */
    predicate Sound() {
      0.0 < k && 0.0 < c && k + c <= 1.0 && 0.0 < d < 0.5 && 0.0 < lo <= hi
    }

    /** Gain at most one half and steps of at most a sixth: such a loop also finds
        its target when one log more or less is worth more than the deadband. */
    predicate Cautious() {
      Sound() && k <= 0.5 && 6.0 * c <= 1.0
    }

    /** The smallest relative correction made outside the deadband. */
    function MinStep(): real {
      if k * d < c then k * d else c
    }

    /** The least a window outside the deadband moves a factor that stays inside the range. */
    function Progress(): real {
      lo * MinStep()
    }
  }

  const MEDIUM := Law(0.4, 0.08, 0.02, 0.7, 1.3)
  const PERFORMANCE := Law(0.5, 0.1, 0.01, 0.5, 2.0)
  const ULTRA_PERFORMANCE := Law(0.3, 0.05, 0.01, 0.8, 1.2)
  const PRECISE_OLD := Law(0.8, 0.02, 0.005, 0.95, 1.05)

  function Clamp(x: real, lo: real, hi: real): real {
    if x < lo then lo else if x > hi then hi else x
  }

  function Abs(x: real): real {
    if x < 0.0 then -x else x
  }

  /** The relative correction for a relative error `err`. */
  function Step(law: Law, err: real): real {
    Clamp(-err * law.k, -law.c, law.c)
  }

  /** The corrected factor for a relative error `err`. */
  function Correct(law: Law, factor: real, err: real): real {
    if Abs(err) > law.d then Clamp(factor * (1.0 + Step(law, err)), law.lo, law.hi)
    else factor
  }

  /** The relative error of a window that sent `windowSent` logs. */
  function WindowError(target: int, scale: int, windowSent: int): real
    requires target > 0
  {
    (windowSent as real * scale as real - target as real) / target as real
  }

  /** Logs in one batch: the scaled batch rounded down, but never fewer than one. */
  function BatchSize(logsPerBatch: int, factor: real): (b: int)
    ensures b >= 1
  {
    var scaled := (logsPerBatch as real * factor).Floor;
    if scaled < 1 then 1 else scaled
  }

  /** The correction as the loops write it: compute the error, leave the factor
      alone inside the deadband, clamp the step, then clamp the factor. */
  method AdjustFactor(law: Law, target: int, scale: int, windowSent: int, factor: real) returns (adjusted: real)
    requires target > 0 && law.Sound()
    ensures adjusted == Correct(law, factor, WindowError(target, scale, windowSent))
  {
    var actual := windowSent as real * scale as real;
    var err := (actual - target as real) / target as real;
    adjusted := factor;
    if Abs(err) > law.d {
      var adjustment := -err * law.k;
      if adjustment > law.c {
        adjustment := law.c;
      } else if adjustment < -law.c {
        adjustment := -law.c;
      }
      assert adjustment == Step(law, err);
      adjusted := adjusted * (1.0 + adjustment);
      CorrectBy(law, factor, err, adjustment, adjusted);
      if adjusted < law.lo {
        adjusted := law.lo;
      } else if adjusted > law.hi {
        adjusted := law.hi;
      }
    }
  }

  lemma CorrectBy(law: Law, factor: real, err: real, step: real, scaled: real)
    requires Abs(err) > law.d && step == Step(law, err) && scaled == factor * (1.0 + step)
    ensures Correct(law, factor, err) == Clamp(scaled, law.lo, law.hi)
  {
  }

  /** A loop that asks for `logs` logs per batch at factor one, seen through its
      measurements: every log in the batch adds `quantum` times the target to the
      measured rate. */
  datatype Plant = Plant(logs: int, quantum: real) {
    predicate Valid() {
      logs >= 1 && quantum > 0.0
    }

    /** The rate measured for batches of `b` logs, as a fraction of the target. */
    function RateOf(b: int): real {
      quantum * b as real
    }

    function Rate(f: real): real {
      RateOf(BatchSize(logs, f))
    }

    /** The rate per unit of factor if batches were not rounded: the plant meets
        its target at factor 1 / Efficiency(). */
    function Efficiency(): real {
      quantum * logs as real
    }

    /** The rate a fractional batch would give. */
    function Ideal(f: real): real
    {
      Efficiency() * f
    }

    predicate InBand(law: Law, f: real)
    {
      Abs(Rate(f) - 1.0) <= law.d
    }

    /** The factor after one more window. */
    function Window(law: Law, f: real): real
    {
      Correct(law, f, Rate(f) - 1.0)
    }

    function Windows(law: Law, f: real, n: nat): real
      decreases n
    {
      if n == 0 then f else Windows(law, Window(law, f), n - 1)
    }
  }

  /** A batch size whose rate is inside the deadband. */
  predicate OnTarget(law: Law, p: Plant, b: int) {
    b >= 1 && Abs(p.RateOf(b) - 1.0) <= law.d
  }

  /** Some batch size the range of the factor reaches is on target. */
  ghost predicate TargetReachable(law: Law, p: Plant) {
    exists b :: BatchSize(p.logs, law.lo) <= b <= BatchSize(p.logs, law.hi) && OnTarget(law, p, b)
  }

  /** The loops whose behaviour is settled below: one log per batch is worth no
      more than the deadband, or the law is cautious and some batch size is on target. */
  ghost predicate Tame(law: Law, p: Plant) {
    law.Sound() && p.Valid() && (p.quantum <= law.d || (law.Cautious() && exists b :: OnTarget(law, p, b)))
  }

  predicate InRange(law: Law, f: real) {
    law.lo <= f <= law.hi
  }

  // ---- arithmetic of one step ----

  /** Rounding loses less than one quantum, and only the one-log floor can raise the rate. */
  lemma RoundingLoss(p: Plant, f: real)
    requires p.Valid() && f > 0.0
    ensures p.Ideal(f) - p.quantum < p.Rate(f)
    ensures p.Rate(f) <= p.Ideal(f) || p.Rate(f) == p.quantum
    ensures 0.0 < p.Ideal(f) && 0.0 < p.quantum
  {
    var x := p.logs as real * f;
    Associate(p.quantum, p.logs as real, f);
    ScaleStrict(p.logs as real, 0.0, f);
    RoundedProduct(p.quantum, x, BatchSize(p.logs, f) as real, p.Ideal(f), p.Rate(f));
  }

  lemma RoundedProduct(q: real, x: real, b: real, ideal: real, rate: real)
    requires 0.0 < q && 0.0 < x && x - 1.0 < b && (b <= x || b == 1.0)
    requires ideal == q * x && rate == q * b
    ensures ideal - q < rate && (rate <= ideal || rate == q) && 0.0 < ideal
  {
    OrderedProducts(q, x - 1.0, b, ideal - q, rate);
    OrderedProducts(q, 0.0, x, 0.0, ideal);
    if b < x {
      OrderedProducts(q, b, x, rate, ideal);
    }
  }

  lemma OrderedProducts(q: real, x: real, y: real, qx: real, qy: real)
    requires 0.0 < q && x < y && qx == q * x && qy == q * y
    ensures qx < qy
  {
    ScaleStrict(q, x, y);
  }

  /** y' - 1 = (y - 1)(1 - k y), plus what the rounding adds. */
  lemma RaiseStaysBelow(k: real, d: real, q: real, y: real, z: real)
    requires 0.0 < k <= 1.0 && 0.0 < q <= d && y < 1.0 - d && z - q < y && 0.0 < z
    ensures z * (1.0 + k * (1.0 - y)) <= 1.0 + d
  {
    var s, zk, pull := 1.0 - z, z * k, k * (1.0 - y);
    assert zk <= 1.0 by { ProductAtMost(z, 1.0, k, zk); }
    assert pull <= k * (s + q) by { Scale(k, 1.0 - y, s + q); }
    calc {
      z * (1.0 + pull);
    ==  { Distribute(z, 1.0, pull); }
      z + z * pull;
    <=  { Scale(z, pull, k * (s + q)); }
      z + z * (k * (s + q));
    ==  { Associate(z, k, s + q); }
      z + zk * (s + q);
    ==  { Distribute(zk, s, q); }
      z + zk * s + zk * q;
    <=  { Scale(s, zk, 1.0); Scale(q, zk, 1.0); }
      z + s + q;
    }
  }

  lemma LowerStaysAbove(k: real, c: real, z: real, step: real)
    requires 0.0 < k && 0.0 < c && k + c <= 1.0 && z > 1.0
    requires 0.0 <= step <= c && step <= k * (z - 1.0)
    ensures z * (1.0 - step) >= 1.0
  {
    Distribute(z, 1.0, step);
    if k * z <= 1.0 {
      Scale(z, step, k * (z - 1.0));
      Associate(z, k, z - 1.0);
      Scale(z - 1.0, k * z, 1.0);
    } else {
      Scale(z, k, 1.0 - step);
    }
  }

  /** A pull of k times a distance beyond the deadband, clamped, is at least MinStep. */
  lemma ClampedPull(law: Law, distance: real, pull: real)
    requires law.Sound() && distance > law.d && pull == law.k * distance
    ensures 0.0 < law.MinStep() <= Clamp(pull, -law.c, law.c) <= pull
    ensures Clamp(pull, -law.c, law.c) <= law.c
    ensures Clamp(-pull, -law.c, law.c) == -Clamp(pull, -law.c, law.c)
  {
    Scale(law.k, law.d, distance);
    ScaleStrict(law.k, 0.0, law.d);
    hide Clamp;
    ClampAtLeast(law.k * law.d, pull, law.c);
  }

  lemma ClampAtLeast(least: real, pull: real, c: real)
    requires 0.0 < least <= pull && 0.0 < c
    ensures 0.0 < (if least < c then least else c) <= Clamp(pull, -c, c) <= pull
    ensures Clamp(pull, -c, c) <= c && Clamp(-pull, -c, c) == -Clamp(pull, -c, c)
  {
  }

  lemma StepBelow(law: Law, y: real)
    requires law.Sound() && y < 1.0 - law.d
    ensures 0.0 < law.MinStep() <= Step(law, y - 1.0) <= law.k * (1.0 - y)
  {
    var pull := law.k * (1.0 - y);
    assert -(y - 1.0) * law.k == pull;
    ClampedPull(law, 1.0 - y, pull);
  }

  lemma StepAbove(law: Law, y: real)
    requires law.Sound() && y > 1.0 + law.d
    ensures var step := -Step(law, y - 1.0);
            0.0 < law.MinStep() <= step <= law.c && step <= law.k * (y - 1.0)
  {
    var pull := law.k * (y - 1.0);
    assert -(y - 1.0) * law.k == -pull;
    ClampedPull(law, y - 1.0, pull);
  }

  /** Raising `f` by a relative step of at least `m` moves it by at least lo * m. */
  lemma Raised(f: real, lo: real, step: real, m: real, progress: real, raised: real)
    requires 0.0 < lo <= f && 0.0 < m <= step
    requires progress == lo * m && raised == f * (1.0 + step)
    ensures 0.0 < progress && f + progress <= raised
  {
    ScaleStrict(lo, 0.0, m);
    Scale(lo, m, step);
    Scale(step, lo, f);
    Distribute(f, 1.0, step);
  }

  lemma Lowered(f: real, lo: real, step: real, m: real, progress: real, lowered: real)
    requires 0.0 < lo <= f && 0.0 < m <= step
    requires progress == lo * m && lowered == f * (1.0 - step)
    ensures 0.0 < progress && lowered <= f - progress
  {
    ScaleStrict(lo, 0.0, m);
    Scale(lo, m, step);
    Scale(step, lo, f);
    Distribute(f, 1.0, step);
  }

  lemma CorrectRaises(law: Law, f: real, y: real, step: real, raised: real)
    requires law.Sound() && InRange(law, f) && y < 1.0 - law.d
    requires step == Step(law, y - 1.0) && raised == f * (1.0 + step)
    ensures Correct(law, f, y - 1.0) == Clamp(raised, law.lo, law.hi)
    ensures 0.0 < law.Progress() && f + law.Progress() <= raised
  {
    hide Law.MinStep, Correct, Step, Clamp;
    StepBelow(law, y);
    CorrectBy(law, f, y - 1.0, step, raised);
    Raised(f, law.lo, step, law.MinStep(), law.Progress(), raised);
  }

  lemma CorrectLowers(law: Law, f: real, y: real, step: real, lowered: real)
    requires law.Sound() && InRange(law, f) && y > 1.0 + law.d
    requires step == -Step(law, y - 1.0) && lowered == f * (1.0 - step)
    ensures Correct(law, f, y - 1.0) == Clamp(lowered, law.lo, law.hi)
    ensures 0.0 < law.Progress() && lowered <= f - law.Progress()
  {
    hide Law.MinStep, Correct, Step, Clamp;
    StepAbove(law, y);
    CorrectBy(law, f, y - 1.0, -step, lowered);
    Lowered(f, law.lo, step, law.MinStep(), law.Progress(), lowered);
  }

  lemma IdealAfterRaise(law: Law, q: real, y: real, e: real, f: real, z: real, step: real, raised: real, g: real, after: real)
    requires law.Sound() && 0.0 < q <= law.d && 0.0 < e && 0.0 < f
    requires y < 1.0 - law.d && z - q < y && step <= law.k * (1.0 - y)
    requires z == e * f && raised == f * (1.0 + step) && g <= raised && after == e * g
    ensures after <= 1.0 + law.d
  {
    var pull := law.k * (1.0 - y);
    ScaleStrict(e, 0.0, f);
    calc {
      e * g;
    <=  { Scale(e, g, f * (1.0 + step)); }
      e * (f * (1.0 + step));
    ==  { Associate(e, f, 1.0 + step); }
      z * (1.0 + step);
    <=  { Scale(z, 1.0 + step, 1.0 + pull); }
      z * (1.0 + pull);
    <=  { RaiseStaysBelow(law.k, law.d, q, y, z); }
      1.0 + law.d;
    }
  }

  lemma IdealAfterLower(law: Law, y: real, e: real, f: real, z: real, step: real, lowered: real, g: real, after: real)
    requires law.Sound() && 0.0 < e
    requires 1.0 + law.d < y <= z && 0.0 <= step <= law.c && step <= law.k * (y - 1.0)
    requires z == e * f && lowered == f * (1.0 - step) && lowered <= g && after == e * g
    ensures after >= 1.0
  {
    assert step <= law.k * (z - 1.0) by { Scale(law.k, y - 1.0, z - 1.0); }
    calc {
      e * g;
    >=  { Scale(e, f * (1.0 - step), g); }
      e * (f * (1.0 - step));
    ==  { Associate(e, f, 1.0 - step); }
      z * (1.0 - step);
    >=  { LowerStaysAbove(law.k, law.c, z, step); }
      1.0;
    }
  }

  /** A coarse loop below its target: the step stays short of the batch size after `x`. */
  lemma CoarseRaise(k: real, d: real, q: real, x: real, y: real, z: real, step: real)
    requires 0.0 < k <= 0.5 && 0.0 < d < q && 1.0 - d <= x <= 1.0 + d
    requires 0.0 < y <= x - q && 0.0 < z < y + q && step <= k * (1.0 - y) && y < 1.0
    ensures z * (1.0 + step) < x + q
  {
    var w, pull := x - y, z * (1.0 - y);
    CoarsePull(d, q, x, y, z, pull);
    calc {
      z * (1.0 + step);
    ==  { Distribute(z, 1.0, step); }
      z + z * step;
    <=  { Scale(z, step, k * (1.0 - y)); }
      z + z * (k * (1.0 - y));
    ==  { Associate(z, k, 1.0 - y); Associate(k, z, 1.0 - y); }
      z + k * pull;
    <=  { Scale(k, pull, 2.0 * w); }
      z + k * (2.0 * w);
    <=  { Scale(2.0 * w, k, 0.5); }
      z + w;
    }
  }

  lemma CoarsePull(d: real, q: real, x: real, y: real, z: real, pull: real)
    requires 0.0 < d < q && 1.0 - d <= x && 0.0 < y <= x - q && 0.0 < z < y + q && y < 1.0
    requires pull == z * (1.0 - y)
    ensures pull <= 2.0 * (x - y)
  {
    if x >= 1.0 {
      ProductAtMost(z, x, 1.0 - y, pull);
      ScaledGap(x, y);
    } else {
      ProductAtMost(z, 1.0, 1.0 - y, pull);
    }
  }

  lemma ScaledGap(x: real, y: real)
    requires x >= 1.0 && y > 0.0
    ensures x * (1.0 - y) <= x - y
  {
    Distribute(x, 1.0, y);
    Scale(y, 1.0, x);
  }

  lemma ProductAtMost(z: real, most: real, n: real, product: real)
    requires 0.0 <= n && z <= most && product == z * n
    ensures product <= most * n
  {
    Scale(n, z, most);
  }

  /** A coarse loop above its target: the step stays at or above `x`, the smallest
      rate on target. */
  lemma CoarseLower(law: Law, q: real, x: real, y: real, z: real, step: real)
    requires law.Cautious() && x - q < 1.0 - law.d && x <= 1.0 + law.d < y
    requires x + q <= y <= z && 0.0 <= step <= law.c && step <= law.k * (y - 1.0)
    ensures z * (1.0 - step) >= x
  {
    StepBack(law, q, x, y, y - 1.0, step, y * step);
    Distribute(y, 1.0, step);
    Scale(1.0 - step, y, z);
  }

  lemma SixthAtMost(y: real, step: real, back: real)
    requires 0.0 <= y && 6.0 * step <= 1.0 && back == y * step
    ensures 6.0 * back <= y
  {
    Scale(y, 6.0 * step, 1.0);
  }

  lemma FarAbove(d: real, q: real, x: real, y: real)
    requires x - q < 1.0 - d && x <= 1.0 + d && x + q <= y
    ensures y - 1.0 > 3.0 * (x - 1.0)
  {
  }

  /** A rate above one is more than three times as far from one as the smallest
      rate on target; the proof splits where the clamp takes over. */
  lemma StepBack(law: Law, q: real, x: real, y: real, over: real, step: real, back: real)
    requires law.Cautious() && x - q < 1.0 - law.d && x <= 1.0 + law.d && x + q <= y
    requires over == y - 1.0 && over > 0.0
    requires 0.0 <= step <= law.c && step <= law.k * over && back == y * step
    ensures back <= y - x
  {
    ProductAtMost(law.k, 0.5, over, law.k * over);
    if x <= 1.0 {
      if y <= 2.0 { ProductAtMost(y, 2.0, step, back); } else { SixthAtMost(y, step, back); }
    } else {
      FarAbove(law.d, q, x, y);
      if 3.0 * over <= 1.0 {
        ProductAtMost(y, 4.0 / 3.0, step, back);
      } else {
        SixthAtMost(y, step, back);
      }
    }
  }

  /** What a window does below and above the band, whichever way the loop is tame. */
  lemma RateAfterRaise(law: Law, p: Plant, f: real, step: real, raised: real, g: real)
    requires Tame(law, p) && 0.0 < f && 0.0 < g && p.Rate(f) < 1.0 - law.d
    requires step <= law.k * (1.0 - p.Rate(f)) && raised == f * (1.0 + step) && g <= raised
    ensures p.Rate(g) <= 1.0 + law.d
  {
    hide Plant.Rate, Plant.RateOf, Plant.Ideal, Plant.Efficiency, BatchSize, Law.Cautious;
    if p.quantum <= law.d {
      RateAfterFineRaise(law, p, f, step, raised, g);
    } else {
      var b :| OnTarget(law, p, b);
      RateAfterCoarseRaise(law, p, f, step, raised, g, b);
    }
  }

  lemma RateAfterFineRaise(law: Law, p: Plant, f: real, step: real, raised: real, g: real)
    requires law.Sound() && p.Valid() && p.quantum <= law.d && 0.0 < f && 0.0 < g && p.Rate(f) < 1.0 - law.d
    requires step <= law.k * (1.0 - p.Rate(f)) && raised == f * (1.0 + step) && g <= raised
    ensures p.Rate(g) <= 1.0 + law.d
  {
    hide Plant.Rate, Plant.RateOf, Plant.Ideal, Plant.Efficiency, BatchSize;
    RoundingLoss(p, f);
    RoundingLoss(p, g);
    EfficiencyPositive(p);
    IdealIs(p, f);
    IdealIs(p, g);
    IdealAfterRaise(law, p.quantum, p.Rate(f), p.Efficiency(), f, p.Ideal(f), step, raised, g, p.Ideal(g));
  }

  lemma RateAfterCoarseRaise(law: Law, p: Plant, f: real, step: real, raised: real, g: real, b: int)
    requires law.Cautious() && p.Valid() && p.quantum > law.d && OnTarget(law, p, b)
    requires 0.0 < f && 0.0 < g && p.Rate(f) < 1.0 - law.d
    requires step <= law.k * (1.0 - p.Rate(f)) && raised == f * (1.0 + step) && g <= raised
    ensures p.Rate(g) <= 1.0 + law.d
  {
    hide Plant.Rate, Plant.RateOf, Plant.Ideal, Plant.Efficiency, BatchSize;
    RoundingLoss(p, f);
    EfficiencyPositive(p);
    IdealIs(p, f);
    IdealIs(p, g);
    RateBelow(p, f, b);
    IdealAfterCoarseRaise(law, p.quantum, p.RateOf(b), p.Rate(f), p.Efficiency(), f, p.Ideal(f), step, raised, g, p.Ideal(g));
    RateNotAbove(p, g, b);
  }

  lemma IdealAfterCoarseRaise(law: Law, q: real, x: real, y: real, e: real, f: real, z: real, step: real, raised: real, g: real, after: real)
    requires law.Cautious() && law.d < q && 1.0 - law.d <= x <= 1.0 + law.d && 0.0 < e
    requires 0.0 < y <= x - q && 0.0 < z < y + q && step <= law.k * (1.0 - y) && y < 1.0
    requires z == e * f && raised == f * (1.0 + step) && g <= raised && after == e * g
    ensures after < x + q
  {
    CoarseRaise(law.k, law.d, q, x, y, z, step);
    IdealMoves(e, f, z, 1.0 + step, raised);
    Scale(e, g, raised);
  }

  /** The smallest batch on target: one log less would be below the deadband. */
  lemma {:induction false} LeastOnTarget(law: Law, p: Plant, b: int) returns (least: int)
    requires law.Sound() && p.Valid() && OnTarget(law, p, b)
    ensures OnTarget(law, p, least) && p.RateOf(least) - p.quantum < 1.0 - law.d
    decreases b
  {
    hide Plant.RateOf;
    RateOfNext(p, b - 1);
    if b == 1 {
      RateOfOne(p);
      least := b;
    } else if OnTarget(law, p, b - 1) {
      least := LeastOnTarget(law, p, b - 1);
    } else {
      least := b;
    }
  }

  lemma RateAfterLower(law: Law, p: Plant, f: real, step: real, lowered: real, g: real)
    requires Tame(law, p) && 0.0 < f && 0.0 < g && p.Rate(f) > 1.0 + law.d
    requires 0.0 <= step <= law.c && step <= law.k * (p.Rate(f) - 1.0) && lowered == f * (1.0 - step) && lowered <= g
    ensures p.Rate(g) >= 1.0 - law.d
  {
    hide Plant.Rate, Plant.RateOf, Plant.Ideal, Plant.Efficiency, BatchSize, Law.Cautious;
    if p.quantum <= law.d {
      RateAfterFineLower(law, p, f, step, lowered, g);
    } else {
      var b :| OnTarget(law, p, b);
      var least := LeastOnTarget(law, p, b);
      RateAfterCoarseLower(law, p, f, step, lowered, g, least);
    }
  }

  lemma RateAfterFineLower(law: Law, p: Plant, f: real, step: real, lowered: real, g: real)
    requires law.Sound() && p.Valid() && p.quantum <= law.d && 0.0 < f && 0.0 < g && p.Rate(f) > 1.0 + law.d
    requires 0.0 <= step <= law.c && step <= law.k * (p.Rate(f) - 1.0) && lowered == f * (1.0 - step) && lowered <= g
    ensures p.Rate(g) >= 1.0 - law.d
  {
    hide Plant.Rate, Plant.RateOf, Plant.Ideal, Plant.Efficiency, BatchSize;
    RoundingLoss(p, f);
    RoundingLoss(p, g);
    EfficiencyPositive(p);
    IdealIs(p, f);
    IdealIs(p, g);
    IdealAfterLower(law, p.Rate(f), p.Efficiency(), f, p.Ideal(f), step, lowered, g, p.Ideal(g));
  }

  lemma RateAfterCoarseLower(law: Law, p: Plant, f: real, step: real, lowered: real, g: real, b: int)
    requires law.Cautious() && p.Valid() && OnTarget(law, p, b) && p.RateOf(b) - p.quantum < 1.0 - law.d
    requires 0.0 < f && 0.0 < g && p.Rate(f) > 1.0 + law.d
    requires 0.0 <= step <= law.c && step <= law.k * (p.Rate(f) - 1.0) && lowered == f * (1.0 - step) && lowered <= g
    ensures p.Rate(g) >= 1.0 - law.d
  {
    hide Plant.Rate, Plant.RateOf, Plant.Ideal, Plant.Efficiency, BatchSize;
    EfficiencyPositive(p);
    IdealIs(p, f);
    IdealIs(p, g);
    RateAbove(p, f, b);
    IdealAfterCoarseLower(law, p.quantum, p.RateOf(b), p.Rate(f), p.Efficiency(), f, p.Ideal(f), step, lowered, g, p.Ideal(g));
    RateNotBelow(p, g, b);
  }

  lemma IdealAfterCoarseLower(law: Law, q: real, x: real, y: real, e: real, f: real, z: real, step: real, lowered: real, g: real, after: real)
    requires law.Cautious() && x - q < 1.0 - law.d && x <= 1.0 + law.d < y && 0.0 < e
    requires x + q <= y <= z && 0.0 <= step <= law.c && step <= law.k * (y - 1.0)
    requires z == e * f && lowered == f * (1.0 - step) && lowered <= g && after == e * g
    ensures x <= after
  {
    CoarseLower(law, q, x, y, z, step);
    IdealMoves(e, f, z, 1.0 - step, lowered);
    Scale(e, lowered, g);
  }

  lemma IdealMoves(e: real, f: real, z: real, ratio: real, moved: real)
    requires z == e * f && moved == f * ratio
    ensures e * moved == z * ratio
  {
    Associate(e, f, ratio);
  }

  lemma RateOfNext(p: Plant, b: int)
    ensures p.RateOf(b + 1) == p.RateOf(b) + p.quantum
  {
    Distribute(p.quantum, b as real, 1.0);
  }

  lemma RateOfGrows(p: Plant, b: int, c: int)
    requires p.Valid() && b <= c
    ensures p.RateOf(b) <= p.RateOf(c)
  {
    Scale(p.quantum, b as real, c as real);
  }

  lemma RateBelow(p: Plant, f: real, b: int)
    requires p.Valid() && p.Rate(f) < p.RateOf(b)
    ensures 0.0 < p.Rate(f) <= p.RateOf(b) - p.quantum
  {
    hide Plant.RateOf;
    var n := BatchSize(p.logs, f);
    if n >= b { RateOfGrows(p, b, n); } else { RateOfGrows(p, n, b - 1); }
    RateOfNext(p, b - 1);
    RateOfGrows(p, 1, n);
    RateOfOne(p);
  }

  lemma RateOfOne(p: Plant)
    ensures p.RateOf(1) == p.quantum
  {
  }

  lemma RateAbove(p: Plant, f: real, b: int)
    requires p.Valid() && 0.0 < f && b >= 1 && p.Rate(f) > p.RateOf(b)
    ensures p.RateOf(b) + p.quantum <= p.Rate(f) <= p.Ideal(f)
  {
    hide Plant.RateOf, Plant.Ideal;
    var n := BatchSize(p.logs, f);
    if n <= b { RateOfGrows(p, n, b); } else { RateOfGrows(p, b + 1, n); }
    RateOfNext(p, b);
    RateOfGrows(p, 1, b);
    RateOfOne(p);
    RoundingLoss(p, f);
  }

  lemma RateNotAbove(p: Plant, g: real, b: int)
    requires p.Valid() && 0.0 < g && b >= 1 && p.Ideal(g) < p.RateOf(b) + p.quantum
    ensures p.Rate(g) <= p.RateOf(b)
  {
    hide Plant.RateOf, Plant.Ideal;
    var n := BatchSize(p.logs, g);
    RoundingLoss(p, g);
    RateOfNext(p, b);
    RateOfOne(p);
    RateOfGrows(p, 1, b);
    if n > b { RateOfGrows(p, b + 1, n); } else { RateOfGrows(p, n, b); }
  }

  lemma RateNotBelow(p: Plant, g: real, b: int)
    requires p.Valid() && 0.0 < g && p.Ideal(g) >= p.RateOf(b)
    ensures p.Rate(g) >= p.RateOf(b)
  {
    hide Plant.RateOf, Plant.Ideal;
    var n := BatchSize(p.logs, g);
    RoundingLoss(p, g);
    RateOfNext(p, b - 1);
    if n < b { RateOfGrows(p, n, b - 1); } else { RateOfGrows(p, b, n); }
  }

  /** Below the band a window raises the factor by at least Progress unless it
      hits the upper limit, and never jumps past the far edge. */
  lemma RaiseStep(law: Law, p: Plant, f: real)
    requires Tame(law, p) && InRange(law, f) && p.Rate(f) < 1.0 - law.d
    ensures var g := p.Window(law, f);
            && InRange(law, g)
            && 0.0 < law.Progress()
            && (g == law.hi || g >= f + law.Progress())
            && p.Rate(g) <= 1.0 + law.d
  {
    hide Plant.Rate, Correct, Step, Law.Progress, Law.MinStep;
    var y, g := p.Rate(f), p.Window(law, f);
    var step := Step(law, y - 1.0);
    StepBelow(law, y);
    CorrectRaises(law, f, y, step, f * (1.0 + step));
    RateAfterRaise(law, p, f, step, f * (1.0 + step), g);
  }

  /** The mirror image above the band. */
  lemma LowerStep(law: Law, p: Plant, f: real)
    requires Tame(law, p) && InRange(law, f) && p.Rate(f) > 1.0 + law.d
    ensures var g := p.Window(law, f);
            && InRange(law, g)
            && 0.0 < law.Progress()
            && (g == law.lo || g <= f - law.Progress())
            && p.Rate(g) >= 1.0 - law.d
  {
    hide Plant.Rate, Correct, Step, Law.Progress, Law.MinStep;
    var y, g := p.Rate(f), p.Window(law, f);
    var step := -Step(law, y - 1.0);
    StepAbove(law, y);
    CorrectLowers(law, f, y, step, f * (1.0 - step));
    RateAfterLower(law, p, f, step, f * (1.0 - step), g);
  }

  lemma IdealIs(p: Plant, f: real)
    ensures p.Ideal(f) == p.Efficiency() * f
  {
  }

  lemma EfficiencyPositive(p: Plant)
    requires p.Valid()
    ensures 0.0 < p.Efficiency() && 0.0 < p.quantum
  {
    ScaleStrict(p.quantum, 0.0, p.logs as real);
  }

  // ---- whole runs ----

  /** A factor the controller will never move again. */
  predicate Settled(law: Law, p: Plant, f: real)
  {
    p.Window(law, f) == f
  }

  /** What a settled factor means: on target, or pinned at the limit nearest to it. */
  ghost predicate GoodRest(law: Law, p: Plant, f: real)
  {
    || p.InBand(law, f)
    || (f == law.hi && p.Rate(f) < 1.0 - law.d)
    || (f == law.lo && p.Rate(f) > 1.0 + law.d)
  }

  lemma {:induction false} SettledForever(law: Law, p: Plant, f: real, n: nat)
    requires p.Valid() && Settled(law, p, f)
    ensures p.Windows(law, f, n) == f
    decreases n
  {
    if n > 0 { SettledForever(law, p, f, n - 1); }
  }

  function Times(x: real, n: nat): real {
    if n == 0 then 0.0 else x + Times(x, n - 1)
  }

  lemma {:induction false} TimesIsProduct(x: real, n: nat)
    ensures Times(x, n) == n as real * x
  {
    if n > 0 {
      TimesIsProduct(x, n - 1);
      Distribute(x, n as real, 1.0);
    }
  }

  lemma LimitIsSettled(law: Law, p: Plant, f: real)
    requires Tame(law, p)
    requires (f == law.hi && p.Rate(f) <= 1.0 + law.d) || (f == law.lo && p.Rate(f) >= 1.0 - law.d)
    ensures Settled(law, p, f) && GoodRest(law, p, f)
  {
    if !p.InBand(law, f) {
      if f == law.hi && p.Rate(f) < 1.0 - law.d {
        RaiseStep(law, p, f);
      } else {
        LowerStep(law, p, f);
      }
    }
  }

  lemma {:induction false} SettlesFromBelow(law: Law, p: Plant, f: real, n: nat)
    requires Tame(law, p) && InRange(law, f) && p.Rate(f) <= 1.0 + law.d
    requires law.hi - f <= Times(law.Progress(), n)
    decreases n
    ensures var r := p.Windows(law, f, n); InRange(law, r) && Settled(law, p, r) && GoodRest(law, p, r)
  {
    if p.InBand(law, f) {
      SettledForever(law, p, f, n);
    } else if f == law.hi {
      LimitIsSettled(law, p, f);
      SettledForever(law, p, f, n);
    } else {
      RaiseStep(law, p, f);
      var g := p.Window(law, f);
      if g == law.hi {
        LimitIsSettled(law, p, g);
        SettledForever(law, p, g, n - 1);
      } else {
        SettlesFromBelow(law, p, g, n - 1);
      }
    }
  }

  lemma {:induction false} SettlesFromAbove(law: Law, p: Plant, f: real, n: nat)
    requires Tame(law, p) && InRange(law, f) && p.Rate(f) >= 1.0 - law.d
    requires f - law.lo <= Times(law.Progress(), n)
    decreases n
    ensures var r := p.Windows(law, f, n); InRange(law, r) && Settled(law, p, r) && GoodRest(law, p, r)
  {
    if p.InBand(law, f) {
      SettledForever(law, p, f, n);
    } else if f == law.lo {
      LimitIsSettled(law, p, f);
      SettledForever(law, p, f, n);
    } else {
      LowerStep(law, p, f);
      var g := p.Window(law, f);
      if g == law.lo {
        LimitIsSettled(law, p, g);
        SettledForever(law, p, g, n - 1);
      } else {
        SettlesFromAbove(law, p, g, n - 1);
      }
    }
  }

  /** Main result. For a cautious law on every plant, and for any sound law on a
      plant whose quantum fits the deadband: after `n` windows, from every factor
      in range, the loop is inside the deadband if and only if some batch size in
      reach is on target. A tame loop has then stopped moving for good, and if it
      is not on target it is pinned at the limit nearest to it. */
  lemma Converges(law: Law, p: Plant, f: real, n: nat, later: nat)
    requires law.Sound() && p.Valid() && (p.quantum <= law.d || law.Cautious())
    requires InRange(law, f) && n <= later
    requires law.hi - law.lo <= n as real * law.Progress()
    ensures var r := p.Windows(law, f, n);
            && InRange(law, r)
            && (p.InBand(law, r) <==> TargetReachable(law, p))
            && (Tame(law, p) ==> p.Windows(law, f, later) == r && GoodRest(law, p, r))
  {
    hide Plant.Rate, Plant.RateOf, Plant.Windows, Law.Progress, BatchSize, GoodRest, Settled;
    var r := p.Windows(law, f, n);
    StaysInRange(law, p, f, n);
    if Tame(law, p) {
      TimesIsProduct(law.Progress(), n);
      if p.Rate(f) <= 1.0 + law.d {
        SettlesFromBelow(law, p, f, n);
      } else {
        SettlesFromAbove(law, p, f, n);
      }
      WindowsCompose(law, p, f, n, later - n);
      SettledForever(law, p, r, later - n);
      RestsOnTarget(law, p, r);
    } else if p.InBand(law, r) {
      InBandIsOnTarget(law, p, r);
    }
  }

  lemma InBandIsOnTarget(law: Law, p: Plant, f: real)
    requires p.InBand(law, f)
    ensures OnTarget(law, p, BatchSize(p.logs, f))
  {
  }

  lemma RestsOnTarget(law: Law, p: Plant, r: real)
    requires law.Sound() && p.Valid() && InRange(law, r) && GoodRest(law, p, r)
    ensures p.InBand(law, r) <==> TargetReachable(law, p)
  {
    hide Plant.RateOf;
    var low, high := BatchSize(p.logs, law.lo), BatchSize(p.logs, law.hi);
    BatchGrows(p.logs, law.lo, r);
    BatchGrows(p.logs, r, law.hi);
    if p.InBand(law, r) {
      assert OnTarget(law, p, BatchSize(p.logs, r));
    } else if TargetReachable(law, p) {
      var b :| low <= b <= high && OnTarget(law, p, b);
      RateOfGrows(p, b, high);
      RateOfGrows(p, low, b);
    }
  }

  lemma BatchGrows(logs: int, f: real, g: real)
    requires logs >= 1 && f <= g
    ensures BatchSize(logs, f) <= BatchSize(logs, g)
  {
    Scale(logs as real, f, g);
  }

  lemma {:induction false} StaysInRange(law: Law, p: Plant, f: real, n: nat)
    requires law.Sound() && InRange(law, f)
    ensures InRange(law, p.Windows(law, f, n))
    decreases n
  {
    if n > 0 { StaysInRange(law, p, p.Window(law, f), n - 1); }
  }

  /** A fine loop reaches its target when 1 / efficiency lies inside the range. */
  lemma FineTargetReachable(law: Law, p: Plant)
    requires law.Sound() && p.Valid() && p.quantum <= law.d
    requires p.Ideal(law.lo) <= 1.0 <= p.Ideal(law.hi)
    ensures TargetReachable(law, p)
  {
    hide Plant.RateOf, Plant.Ideal;
    RoundingLoss(p, law.lo);
    RoundingLoss(p, law.hi);
    BatchGrows(p.logs, law.lo, law.hi);
    var b := ReachBand(law, p, BatchSize(p.logs, law.lo), BatchSize(p.logs, law.hi));
  }

  lemma {:induction false} ReachBand(law: Law, p: Plant, low: int, high: int) returns (b: int)
    requires law.Sound() && p.Valid() && p.quantum <= law.d && 1 <= low <= high
    requires p.RateOf(low) <= 1.0 + law.d && p.RateOf(high) >= 1.0 - law.d
    ensures low <= b <= high && OnTarget(law, p, b)
    decreases high - low
  {
    hide Plant.RateOf;
    b := low;
    if !OnTarget(law, p, low) {
      RateOfNext(p, low);
      b := ReachBand(law, p, low + 1, high);
    }
  }

  lemma {:induction false} WindowsCompose(law: Law, p: Plant, f: real, n: nat, m: nat)
    requires p.Valid()
    ensures p.Windows(law, f, n + m) == p.Windows(law, p.Windows(law, f, n), m)
    decreases n
  {
    if n > 0 { WindowsCompose(law, p, p.Window(law, f), n - 1, m); }
  }

  /** No window takes the measured rate from one side of the deadband to the other. */
  lemma NeverJumpsTheBand(law: Law, p: Plant, f: real)
    requires Tame(law, p) && InRange(law, f)
    ensures var g := p.Window(law, f);
            && InRange(law, g)
            && (p.Rate(f) < 1.0 - law.d ==> g >= f && p.Rate(g) <= 1.0 + law.d)
            && (p.Rate(f) > 1.0 + law.d ==> g <= f && p.Rate(g) >= 1.0 - law.d)
            && (p.InBand(law, f) ==> g == f)
  {
    if p.Rate(f) < 1.0 - law.d {
      RaiseStep(law, p, f);
    } else if p.Rate(f) > 1.0 + law.d {
      LowerStep(law, p, f);
    }
  }

  /** The four parameter sets of the send loops, and how long each takes at most. */
  lemma LawsOfTheLoops()
    ensures MEDIUM.Cautious() && PERFORMANCE.Cautious() && ULTRA_PERFORMANCE.Cautious() && PRECISE_OLD.Sound()
    ensures MEDIUM.hi - MEDIUM.lo <= 108.0 * MEDIUM.Progress()
    ensures PERFORMANCE.hi - PERFORMANCE.lo <= 600.0 * PERFORMANCE.Progress()
    ensures ULTRA_PERFORMANCE.hi - ULTRA_PERFORMANCE.lo <= 167.0 * ULTRA_PERFORMANCE.Progress()
    ensures PRECISE_OLD.hi - PRECISE_OLD.lo <= 27.0 * PRECISE_OLD.Progress()
  {
  }

  /** The correction of the medium loop in numbers: nothing up to two percent, then
      four tenths of the error, at most eight percent, and never outside 0.7 to 1.3. */
  lemma MediumCorrection(f: real, err: real, step: real, scaled: real)
    requires step == if err < -0.2 then 0.08 else if err > 0.2 then -0.08 else -0.4 * err
    requires scaled == f * (1.0 + step)
    ensures Correct(MEDIUM, f, err) ==
            if -0.02 <= err <= 0.02 then f else if scaled < 0.7 then 0.7 else if scaled > 1.3 then 1.3 else scaled
  {
    assert step == Step(MEDIUM, err);
    hide Step;
    if Abs(err) > 0.02 {
      CorrectBy(MEDIUM, f, err, step, scaled);
    }
  }

  /** That of the performance loop: one percent, half the error, ten percent, 0.5 to 2. */
  lemma PerformanceCorrection(f: real, err: real, step: real, scaled: real)
    requires step == if err < -0.2 then 0.1 else if err > 0.2 then -0.1 else -0.5 * err
    requires scaled == f * (1.0 + step)
    ensures Correct(PERFORMANCE, f, err) ==
            if -0.01 <= err <= 0.01 then f else if scaled < 0.5 then 0.5 else if scaled > 2.0 then 2.0 else scaled
  {
    assert step == Step(PERFORMANCE, err);
    hide Step;
    if Abs(err) > 0.01 {
      CorrectBy(PERFORMANCE, f, err, step, scaled);
    }
  }
}
