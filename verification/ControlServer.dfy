/** The control server: its request handlers, which run one at a time under a
    mutex, and what every sequence of them keeps. */
module ControlServer {
  import opened Common
  import opened Profiles
  import opened WorkerPool
  import opened Lifecycle
  import opened Collector

  datatype GeneratorConfig = GeneratorConfig(
    targetHost: string, profile: string, targetEPS: int, enableOptimization: bool, workerCount: int,
    batchSize: int, sendInterval: int, memoryLimitGB: int, gcPercent: int)

  const DEFAULT_CONFIG := GeneratorConfig("127.0.0.1", "4m", 4_000_000, true, 40, 200, 50, 12, 200)

  datatype StartBody = StartBody(profile: string, targetHost: string, targetEPS: int)

  /** A request that changes the server. A body that cannot be parsed is None, and
      `sockets` is how many sockets the host can open when a pool is built. */
  datatype Request =
    | SetConfig(body: Option<GeneratorConfig>)
    | StartRequest(start: Option<StartBody>, sockets: nat)
    | StopRequest
    | RestartRequest(sockets: nat)
    | Shutdown

  /** A profile the configuration names other than the custom one. */
  predicate NamesProfile(cfg: GeneratorConfig) {
    cfg.profile != "" && cfg.profile != "custom" && GetProfile(cfg.profile).Some?
  }

  predicate InLimits(cfg: GeneratorConfig) {
    1 <= cfg.targetEPS <= 10_000_000 && 1 <= cfg.workerCount <= 200 && 1 <= cfg.memoryLimitGB <= 64
  }

  /** A named profile overrides the rate and the number of workers, and with that
      every configuration that names one passes. */
  method ValidateConfig(cfg: GeneratorConfig) returns (ok: bool, checked: GeneratorConfig)
    ensures ok == (NamesProfile(cfg) || InLimits(cfg))
    ensures NamesProfile(cfg) <==> cfg.profile in {"100k", "500k", "1m", "2m", "4m"}
    ensures InLimits(cfg) <==>
              0 < cfg.targetEPS < 10_000_001 && 0 < cfg.workerCount < 201 && 0 < cfg.memoryLimitGB < 65
    ensures ok ==> 1 <= checked.targetEPS <= 10_000_000 && 1 <= checked.workerCount <= 200
    ensures !NamesProfile(cfg) ==> checked == cfg
    ensures NamesProfile(cfg) ==>
              checked == cfg.(targetEPS := checked.targetEPS, workerCount := checked.workerCount)
              && checked.targetEPS == EPS_PROFILES[cfg.profile].targetEPS
              && checked.workerCount == EPS_PROFILES[cfg.profile].workerCount
  {
    checked := cfg;
    if cfg.profile != "" && cfg.profile != "custom" {
      var profile := GetProfile(cfg.profile);
      if profile.Some? {
        checked := cfg.(targetEPS := profile.value.targetEPS, workerCount := profile.value.workerCount);
        return true, checked;
      }
    }
    if cfg.targetEPS <= 0 || cfg.targetEPS > 10_000_000 {
      return false, checked;
    }
    if cfg.workerCount <= 0 || cfg.workerCount > 200 {
      return false, checked;
    }
    if cfg.memoryLimitGB <= 0 || cfg.memoryLimitGB > 64 {
      return false, checked;
    }
    return true, checked;
  }

  /** The configuration a start request leaves to build from. */
  function Merged(cfg: GeneratorConfig, body: Option<StartBody>): GeneratorConfig {
    match body
    case None => cfg
    case Some(b) =>
      cfg.(profile := if b.profile != "" then b.profile else cfg.profile,
           targetHost := if b.targetHost != "" then b.targetHost else cfg.targetHost,
           targetEPS := if b.targetEPS > 0 then b.targetEPS else cfg.targetEPS)
  }

  lemma MergedPositive(cfg: GeneratorConfig, body: Option<StartBody>)
    requires cfg.targetEPS > 0
    ensures Merged(cfg, body).targetEPS > 0
  {
  }

  /** What a start request asks for, a setting at a time: its own if it has one, and
      otherwise what the server had. */
  lemma AskedLoad(cfg: GeneratorConfig, body: Option<StartBody>, asked: string, rate: int, host: string, cores: int)
    requires asked == if body.Some? && body.value.profile != "" then body.value.profile else cfg.profile
    requires rate == if body.Some? && body.value.targetEPS > 0 then body.value.targetEPS else cfg.targetEPS
    requires host == if body.Some? && body.value.targetHost != "" then body.value.targetHost else cfg.targetHost
    requires Known(Merged(cfg, body))
    ensures asked == "custom" ==> LoadOf(Merged(cfg, body), cores) == Load(rate, WorkerCount(rate, cores), host)
    ensures asked != "custom" ==>
              var name := if asked == "" then "4m" else asked;
              && name == ProfileName(Merged(cfg, body)) && name in EPS_PROFILES
              && LoadOf(Merged(cfg, body), cores) == Load(EPS_PROFILES[name].targetEPS, EPS_PROFILES[name].workerCount, host)
  {
  }

  function ProfileName(cfg: GeneratorConfig): string {
    if cfg.profile == "" then "4m" else cfg.profile
  }

  predicate Known(cfg: GeneratorConfig) {
    ProfileName(cfg) in EPS_PROFILES
  }

  /** The workers a pool built from this configuration has. */
  function WorkersFor(cfg: GeneratorConfig, cores: int): int
    requires Known(cfg)
  {
    if ProfileName(cfg) == "custom"
    then WorkerCount(cfg.targetEPS, cores)
    else Min(MAX_WORKERS, EPS_PROFILES[ProfileName(cfg)].workerCount)
  }

  /** What such a pool carries, and where it sends it. */
  function LoadOf(cfg: GeneratorConfig, cores: int): Load
    requires Known(cfg)
  {
    Load(ResolvedTarget(cfg), WorkersFor(cfg, cores), cfg.targetHost)
  }

  /** Building succeeds when the profile exists and the host has enough sockets. */
  predicate Buildable(cfg: GeneratorConfig, cores: int, sockets: nat) {
    Known(cfg) && WorkersFor(cfg, cores) <= sockets
  }

  lemma BuildableIsKnown(cfg: GeneratorConfig, cores: int, sockets: nat)
    ensures Buildable(cfg, cores, sockets) ==> Known(cfg)
  {
  }

  // ---- what a sequence of requests comes to ----

  /** The settings that decide what a build does; the others are blanked. */
  function Essentials(cfg: GeneratorConfig): GeneratorConfig {
    GeneratorConfig(cfg.targetHost, cfg.profile, cfg.targetEPS, cfg.enableOptimization, 0, 0, 0, 0, 0)
  }

  /** What a pool was built for: the whole rate, the number of workers, and the host
      they send to. */
  datatype Load = Load(rate: int, workers: int, host: string)

  predicate Carries(workers: seq<WorkerSetup>, load: Load) {
    && |workers| == load.workers && CarriesTarget(workers, load.rate)
    && forall i | 0 <= i < |workers| :: workers[i].targetHost == load.host
  }

  /** The server as far as what it does and leaves behind is concerned: whether it
      runs, whether it holds an active optimizer, how many active ones it has lost,
      how many pools could not be built, how many timestamp updaters were started,
      and what the last pool that was built carries. */
  datatype Tracked = Tracked(config: GeneratorConfig, running: bool, held: bool, lost: nat, failures: nat,
                             updaters: int, load: Load)

  const FRESH := Tracked(Essentials(DEFAULT_CONFIG), false, false, 0, 0, 0, Load(0, 0, ""))

  /** The rate after a build: the profile's own, unless it is the custom one. */
  function ResolvedTarget(cfg: GeneratorConfig): int {
    if Known(cfg) && ProfileName(cfg) != "custom" then EPS_PROFILES[ProfileName(cfg)].targetEPS else cfg.targetEPS
  }

  lemma UnknownKeepsTarget(cfg: GeneratorConfig)
    ensures !Known(cfg) ==> ResolvedTarget(cfg) == cfg.targetEPS
  {
  }

  lemma MergedEssentials(cfg: GeneratorConfig, body: Option<StartBody>)
    ensures Essentials(Merged(cfg, body)) == Merged(Essentials(cfg), body)
  {
  }

  /** One build. An optimizer is lost when a build that makes a new one finds that
      of an earlier, failed build still there. */
  function Build(t: Tracked, cores: int, sockets: nat): Tracked {
    var cfg := Essentials(t.config.(profile := ProfileName(t.config), targetEPS := ResolvedTarget(t.config)));
    if !Known(t.config) then t.(config := cfg)
    else
      var ok, optimizes := WorkersFor(t.config, cores) <= sockets, t.config.enableOptimization;
      Tracked(cfg, ok, t.held || optimizes, t.lost + (if t.held && optimizes then 1 else 0),
              t.failures + (if ok then 0 else 1), t.updaters + (if ok then WorkersFor(t.config, cores) else sockets + 1),
              if ok then Load(cfg.targetEPS, WorkersFor(t.config, cores), cfg.targetHost) else t.load)
  }

  /** A build looks at nothing else. */
  lemma EssentialsDecide(t: Tracked, cfg: GeneratorConfig, cores: int, sockets: nat)
    requires t.config == Essentials(cfg)
    ensures Build(t, cores, sockets) ==
            var after := cfg.(profile := ProfileName(cfg), targetEPS := ResolvedTarget(cfg));
            if !Known(cfg) then t.(config := Essentials(after))
            else
              var ok, optimizes := WorkersFor(cfg, cores) <= sockets, cfg.enableOptimization;
              Tracked(Essentials(after), ok, t.held || optimizes, t.lost + (if t.held && optimizes then 1 else 0),
                      t.failures + (if ok then 0 else 1), t.updaters + (if ok then WorkersFor(cfg, cores) else sockets + 1),
                      if ok then LoadOf(cfg, cores) else t.load)
  {
    var e := Essentials(cfg);
    assert ProfileName(e) == ProfileName(cfg) && Known(e) == Known(cfg) && ResolvedTarget(e) == ResolvedTarget(cfg);
    assert Known(cfg) ==> WorkersFor(e, cores) == WorkersFor(cfg, cores);
    hide WorkersFor, ResolvedTarget, ProfileName, Known;
  }

  lemma SameEssentials(a: GeneratorConfig, b: GeneratorConfig)
    requires a.targetHost == b.targetHost && a.profile == b.profile && a.targetEPS == b.targetEPS
    requires a.enableOptimization == b.enableOptimization
    ensures Essentials(a) == Essentials(b)
  {
  }

  function Halt(t: Tracked): Tracked {
    if t.running then t.(running := false, held := false) else t
  }

  /** The configuration a request saves, if it passes. */
  function Saved(body: Option<GeneratorConfig>): Option<GeneratorConfig> {
    match body
    case None => None
    case Some(cfg) =>
      if NamesProfile(cfg) then
        var p := EPS_PROFILES[cfg.profile];
        Some(cfg.(targetEPS := p.targetEPS, workerCount := p.workerCount))
      else if InLimits(cfg) then Some(cfg)
      else None
  }

  function Served(t: Tracked, r: Request, cores: int): Tracked {
    match r
    case SetConfig(body) => if Saved(body).Some? then t.(config := Essentials(Saved(body).value)) else t
    case StartRequest(start, sockets) =>
      if t.running then t else Build(t.(config := Essentials(Merged(t.config, start))), cores, sockets)
    case StopRequest => Halt(t)
    case RestartRequest(sockets) => Build(Halt(t), cores, sockets)
    case Shutdown => Halt(t)
  }

  function ServedAll(cores: int, requests: seq<Request>): Tracked {
    if requests == [] then FRESH else Served(ServedAll(cores, requests[..|requests| - 1]), requests[|requests| - 1], cores)
  }

  function Total(sizes: seq<nat>): nat {
    if sizes == [] then 0 else Total(sizes[..|sizes| - 1]) + sizes[|sizes| - 1]
  }

  lemma TotalNext(sizes: seq<nat>, n: nat)
    ensures Total(sizes + [n]) == Total(sizes) + n
  {
    assert (sizes + [n])[..|sizes|] == sizes;
  }

  /** The active optimizers that no running pool belongs to: every lost one, and one
      held while idle. */
  function LeftBehind(t: Tracked): nat {
    t.lost + if t.held && !t.running then 1 else 0
  }

  predicate Optimizes(t: Tracked, r: Request) {
    match r
    case StartRequest(start, _) => Merged(t.config, start).enableOptimization
    case RestartRequest(_) => t.config.enableOptimization
    case _ => false
  }

  /** One request leaves at most one more behind, and then it is a build with
      optimization on that failed. */
  lemma ServedLeaves(t: Tracked, r: Request, cores: int)
    ensures var u := Served(t, r, cores);
            && t.failures <= u.failures <= t.failures + 1
            && LeftBehind(u) <= LeftBehind(t) + if u.failures > t.failures && Optimizes(t, r) then 1 else 0
  {
    hide WorkersFor, Known, ResolvedTarget, ProfileName, Merged;
    match r {
      case StartRequest(start, sockets) =>
        if !t.running { BuildLeaves(t.(config := Essentials(Merged(t.config, start))), cores, sockets); }
      case RestartRequest(sockets) => BuildLeaves(Halt(t), cores, sockets);
      case _ =>
    }
  }

  lemma BuildLeaves(t: Tracked, cores: int, sockets: nat)
    requires !t.running
    ensures var u := Build(t, cores, sockets);
            && t.failures <= u.failures <= t.failures + 1
            && LeftBehind(u) <= LeftBehind(t) + if u.failures > t.failures && t.config.enableOptimization then 1 else 0
  {
    hide WorkersFor, Known, ResolvedTarget, ProfileName;
  }

  /** The default configuration shows other numbers than a start from it uses: it
      names the 4m profile but has neither its workers, nor its batch and ticker. */
  lemma DefaultConfigDiffers()
    ensures DEFAULT_CONFIG.profile == "4m" && DEFAULT_CONFIG.targetHost == "127.0.0.1" && DEFAULT_CONFIG.enableOptimization
    ensures var p := EPS_PROFILES["4m"];
            && DEFAULT_CONFIG.targetEPS == p.targetEPS && DEFAULT_CONFIG.memoryLimitGB * GIB == p.memoryLimit
            && DEFAULT_CONFIG.gcPercent == p.gogc
            && DEFAULT_CONFIG.workerCount * 4 == p.workerCount && DEFAULT_CONFIG.batchSize + 50 == p.batchSize
            && DEFAULT_CONFIG.sendInterval * 200 == p.tickerInterval
  {
  }

  /** A start request to an idle server takes effect, whatever came before: with the
      sockets it needs, the server runs, and its pool carries the rate that was asked
      for, or that of the profile that was asked for, to the host that was asked for. */
  lemma StartTakesEffect(t: Tracked, b: StartBody, sockets: nat, cores: int)
    requires cores >= 1 && !t.running
    ensures var u := Served(t, StartRequest(Some(b), sockets), cores);
            var host := if b.targetHost != "" then b.targetHost else t.config.targetHost;
            && (b.profile == "custom" && b.targetEPS > 0 && WorkerCount(b.targetEPS, cores) <= sockets ==>
                  u.running && u.load == Load(b.targetEPS, WorkerCount(b.targetEPS, cores), host))
            && (b.profile in {"100k", "500k", "1m", "2m", "4m"} && EPS_PROFILES[b.profile].workerCount <= sockets ==>
                  u.running && u.load == Load(EPS_PROFILES[b.profile].targetEPS, EPS_PROFILES[b.profile].workerCount, host))
            && (b.profile == "" && t.config.profile == "custom" && b.targetEPS <= 0
                && WorkerCount(t.config.targetEPS, cores) <= sockets ==>
                  u.running && u.load == Load(t.config.targetEPS, WorkerCount(t.config.targetEPS, cores), host))
            && u.config.targetHost == host && (b.profile != "" ==> u.config.profile == b.profile)
            && u.config.enableOptimization == t.config.enableOptimization
  {
    hide WorkerCount;
  }

  /** Every optimizer left behind was left by a pool that could not be built. */
  lemma {:induction false} LostAtMostFailures(cores: int, requests: seq<Request>)
    ensures LeftBehind(ServedAll(cores, requests)) <= ServedAll(cores, requests).failures
  {
    hide Served;
    if requests != [] {
      var n := |requests| - 1;
      LostAtMostFailures(cores, requests[..n]);
      ServedLeaves(ServedAll(cores, requests[..n]), requests[n], cores);
    }
  }

  /** The builds with optimization on that fail, each leaving an optimizer behind. */
  function WastedBuilds(cores: int, requests: seq<Request>): nat {
    if requests == [] then 0
    else
      var t, r := ServedAll(cores, requests[..|requests| - 1]), requests[|requests| - 1];
      WastedBuilds(cores, requests[..|requests| - 1])
      + if Served(t, r, cores).failures > t.failures && Optimizes(t, r) then 1 else 0
  }

  /** Builds that fail with optimization off leave none. */
  lemma {:induction false} LostAtMostWasted(cores: int, requests: seq<Request>)
    ensures LeftBehind(ServedAll(cores, requests)) <= WastedBuilds(cores, requests)
  {
    hide Served, Optimizes;
    if requests != [] {
      var n := |requests| - 1;
      LostAtMostWasted(cores, requests[..n]);
      ServedLeaves(ServedAll(cores, requests[..n]), requests[n], cores);
    }
  }

  /** No request ends an updater, and every start or stop cycle leaves those of its pool. */
  lemma {:induction false} UpdatersNeverFall(cores: int, requests: seq<Request>, more: seq<Request>)
    requires cores >= 1
    ensures ServedAll(cores, requests).updaters <= ServedAll(cores, requests + more).updaters
    decreases |more|
  {
    if more == [] {
      assert requests + more == requests;
    } else {
      var n := |more| - 1;
      UpdatersNeverFall(cores, requests, more[..n]);
      assert (requests + more)[..|requests| + n] == requests + more[..n];
      ServedAddsUpdaters(ServedAll(cores, requests + more[..n]), more[n], cores);
    }
  }

  lemma ServedAddsUpdaters(t: Tracked, r: Request, cores: int)
    requires cores >= 1
    ensures Served(t, r, cores).updaters >= t.updaters
  {
    var cfg := match r
      case StartRequest(start, _) => Essentials(Merged(t.config, start))
      case _ => Halt(t).config;
    if Known(cfg) {
      WorkersNotNegative(cfg, cores);
    }
    hide WorkersFor, Known, ResolvedTarget, ProfileName;
  }

  lemma WorkersNotNegative(cfg: GeneratorConfig, cores: int)
    requires Known(cfg) && cores >= 1
    ensures WorkersFor(cfg, cores) >= 0
  {
  }

  class ControlServer {
    const cores: int
    const metricsCollector: MetricsCollector
    var workerPool: WorkerPool?
    var memoryOptimizer: MemoryOptimizer?
    var isRunning: bool
    var currentConfig: GeneratorConfig

    /** Every pool and every optimizer ever made, the active optimizers the server
        no longer knows, and the number of pools that could not be built. */
    ghost var pools: set<WorkerPool>
    ghost var optimizers: set<MemoryOptimizer>
    ghost var stray: set<MemoryOptimizer>
    ghost var failures: nat

    /** The same pools in the order they were made, the number of workers each was
        built with, and the timestamp updaters alive. */
    ghost var order: seq<WorkerPool>
    ghost var sizes: seq<nat>
    ghost var updaters: nat

    /** What the last pool that was built carries. */
    ghost var load: Load

    /** One updater is alive for every worker ever built, and one more for every
        build that failed. */
    ghost predicate Listed()
      reads this`pools, this`order, this`sizes, this`failures, this`updaters, order`workers
    {
      && |order| == |sizes| && pools == (set p | p in order)
      && (forall i, j | 0 <= i < j < |order| :: order[i] != order[j])
      && (forall i | 0 <= i < |order| :: |order[i].workers| == sizes[i])
      && updaters == Total(sizes) + failures
    }

    /** Every pool is started at most once and stopped at most once, only with 1
        to 200 workers, and only the current one is ever running. */
    ghost predicate PoolsInv()
      reads this`workerPool, this`pools, pools
    {
      && (workerPool != null ==> workerPool in pools)
      && forall p | p in pools ::
           && p.Valid() && p.starts <= 1
           && (p.starts > 0 ==> 1 <= |p.workers| <= MAX_WORKERS)
           && (p.isRunning ==> p == workerPool)
    }

    /** Every active optimizer is the current one or stray. */
    ghost predicate OptimizersInv()
      reads this`memoryOptimizer, this`optimizers, this`stray, optimizers
    {
      && stray <= optimizers
      && (memoryOptimizer != null ==> memoryOptimizer in optimizers - stray)
      && forall o | o in optimizers ::
           && o.Valid() && (o.isActive <==> o in stray || o == memoryOptimizer)
           && (o.isActive ==> o.stopChan == Open)
    }

    ghost predicate Parts()
      reads this, pools, order, optimizers, metricsCollector
    {
      && cores >= 1 && currentConfig.targetEPS > 0
      && PoolsInv() && Listed() && OptimizersInv() && metricsCollector.Restartable()
    }

    /** The server runs exactly when its pool runs and exactly when the collector
        collects, the running pool carries its load, and the collector knows the rate. */
    ghost predicate Status()
      reads this, workerPool, metricsCollector
    {
      && (isRunning <==> workerPool != null && workerPool.isRunning)
      && (isRunning <==> metricsCollector.isCollecting)
      && (isRunning ==> Carries(workerPool.workers, load) && metricsCollector.targetEPS == load.rate)
    }

    ghost predicate Valid()
      reads this, pools, order, optimizers, workerPool, metricsCollector
    {
      Parts() && Status()
    }

    ghost function ActiveOptimizers(): set<MemoryOptimizer>
      reads this, optimizers
    {
      set o | o in optimizers && o.isActive
    }

    /** Where the server stands, as the requests determine it. */
    ghost function Tracks(): Tracked
      reads this`currentConfig, this`isRunning, this`memoryOptimizer, this`stray, this`failures, this`updaters, this`load
    {
      Tracked(Essentials(currentConfig), isRunning, memoryOptimizer != null, |stray|, failures, updaters, load)
    }

    /** The active optimizers are the lost ones and the one the server holds. */
    lemma ActiveCount()
      requires Valid()
      ensures |ActiveOptimizers()| == Tracks().lost + if Tracks().held then 1 else 0
    {
      if memoryOptimizer == null {
        assert ActiveOptimizers() == stray;
      } else {
        assert ActiveOptimizers() == stray + {memoryOptimizer};
      }
    }

    constructor (cores: int, now: real)
      requires cores >= 1
      ensures Valid() && !isRunning && currentConfig == DEFAULT_CONFIG && failures == 0
      ensures this.cores == cores && pools == {} && optimizers == {} && Tracks() == FRESH
      ensures fresh(metricsCollector)
    {
      this.cores := cores;
      metricsCollector := new MetricsCollector(now);
      workerPool, memoryOptimizer, isRunning, currentConfig := null, null, false, DEFAULT_CONFIG;
      pools, optimizers, stray, failures := {}, {}, {}, 0;
      order, sizes, updaters, load := [], [], 0, Load(0, 0, "");
    }

    /** Only objects made since then have been added. */
    twostate predicate Grown()
      reads this, metricsCollector
    {
      && old(pools) <= pools && fresh(pools - old(pools))
      && old(optimizers) <= optimizers && fresh(optimizers - old(optimizers))
    }

    /** Saves a configuration that passes validation, whether or not the server runs. */
    method HandleConfig(body: Option<GeneratorConfig>) returns (ok: bool)
      requires Valid()
      modifies this`currentConfig
      ensures Valid()
      ensures ok == (body.Some? && (NamesProfile(body.value) || InLimits(body.value)))
      ensures ok == Saved(body).Some? && currentConfig == if ok then Saved(body).value else old(currentConfig)
      ensures ok ==> 1 <= currentConfig.targetEPS <= 10_000_000 && 1 <= currentConfig.workerCount <= 200
      ensures ok ==> currentConfig == body.value.(targetEPS := currentConfig.targetEPS, workerCount := currentConfig.workerCount)
      ensures ok && body.value.profile !in {"100k", "500k", "1m", "2m", "4m"} ==> currentConfig == body.value
      ensures ok && body.value.profile in {"100k", "500k", "1m", "2m", "4m"} ==>
                var p := EPS_PROFILES[body.value.profile];
                currentConfig.targetEPS == p.targetEPS && currentConfig.workerCount == p.workerCount
      ensures Tracks() == Served(old(Tracks()), SetConfig(body), cores)
    {
      if body == None {
        return false;
      }
      var valid, checked := ValidateConfig(body.value);
      if !valid {
        return false;
      }
      currentConfig := checked;
      return true;
    }

    static predicate IsProfile(p: EPSProfile, name: string) {
      if name == "custom" then p.precisionMode == "medium" else name in EPS_PROFILES && p == EPS_PROFILES[name]
    }

    /** The profile to build from; None for an unknown name. */
    method ChooseProfile() returns (profile: Option<EPSProfile>)
      requires cores >= 1 && currentConfig.targetEPS > 0
      modifies this`currentConfig
      ensures currentConfig == old(currentConfig).(profile := ProfileName(old(currentConfig)))
      ensures profile.Some? <==> Known(old(currentConfig))
      ensures profile.Some? ==> profile.value.targetEPS == ResolvedTarget(old(currentConfig)) > 0
      ensures profile.Some? ==>
                1 <= PoolSize(profile.value) == WorkersFor(old(currentConfig), cores) <= MAX_WORKERS
      ensures profile.Some? ==> IsProfile(profile.value, ProfileName(old(currentConfig)))
    {
      if currentConfig.profile == "" {
        currentConfig := currentConfig.(profile := "4m");
      }
      if currentConfig.profile == "custom" {
        var custom := CalculateCustomProfile(currentConfig.targetEPS, cores);
        return Some(custom);
      }
      return GetProfile(currentConfig.profile);
    }

    /** Shows the profile's settings in the configuration. */
    method ApplyProfile(p: EPSProfile)
      modifies this`currentConfig
      ensures currentConfig == old(currentConfig).(
                targetEPS := p.targetEPS, workerCount := p.workerCount, batchSize := p.batchSize,
                sendInterval := p.tickerInterval, memoryLimitGB := Quot(p.memoryLimit, GIB), gcPercent := p.gogc)
    {
      currentConfig := currentConfig.(
        targetEPS := p.targetEPS, workerCount := p.workerCount, batchSize := p.batchSize,
        sendInterval := p.tickerInterval, memoryLimitGB := Quot(p.memoryLimit, GIB), gcPercent := p.gogc);
    }

    /** The first step of a build. An unknown profile ends it. */
    method LoadProfile() returns (profile: Option<EPSProfile>)
      requires cores >= 1 && currentConfig.targetEPS > 0
      modifies this`currentConfig
      ensures currentConfig.profile == ProfileName(old(currentConfig)) && currentConfig.targetHost == old(currentConfig).targetHost
      ensures currentConfig.enableOptimization == old(currentConfig).enableOptimization
      ensures currentConfig.targetEPS == ResolvedTarget(old(currentConfig)) > 0
      ensures profile.Some? <==> Known(old(currentConfig))
      ensures profile.Some? ==>
                1 <= PoolSize(profile.value) == WorkersFor(old(currentConfig), cores) <= MAX_WORKERS
                && 0 < currentConfig.targetEPS == profile.value.targetEPS
      ensures profile.Some? ==> IsProfile(profile.value, ProfileName(old(currentConfig)))
    {
      hide Known, ProfileName, WorkersFor, PoolSize, IsProfile;
      UnknownKeepsTarget(currentConfig);
      profile := ChooseProfile();
      if profile.Some? {
        ApplyProfile(profile.value);
      }
    }

    /** If optimization is enabled, makes and starts an optimizer. One that was
        left from a failed build is forgotten without being stopped. */
    method StartOptimizer()
      requires OptimizersInv()
      modifies this`memoryOptimizer, this`optimizers, this`stray
      ensures OptimizersInv()
      ensures (memoryOptimizer != null) == (old(memoryOptimizer) != null || currentConfig.enableOptimization)
      ensures |stray| == |old(stray)| + if old(memoryOptimizer) != null && currentConfig.enableOptimization then 1 else 0
      ensures old(optimizers) <= optimizers && fresh(optimizers - old(optimizers))
    {
      if currentConfig.enableOptimization {
        var o := new MemoryOptimizer();
        o.Start();
        if memoryOptimizer != null {
          stray := stray + {memoryOptimizer};
        }
        optimizers := optimizers + {o};
        memoryOptimizer := o;
      }
    }

    /** Makes the pool of a profile and builds its workers. A pool whose workers
        cannot all be built stays the current one, but is never started. */
    method BuildPool(profile: EPSProfile, sockets: nat) returns (ok: bool)
      requires PoolsInv() && Listed() && PoolSize(profile) >= 1 && profile.targetEPS > 0
      requires workerPool != null ==> !workerPool.isRunning
      modifies this`workerPool, this`pools, this`failures, this`order, this`sizes, this`updaters
      ensures PoolsInv() && Listed() && fresh(workerPool) && pools == old(pools) + {workerPool}
      ensures ok == (PoolSize(profile) <= sockets) && failures == old(failures) + if ok then 0 else 1
      ensures updaters == old(updaters) + if ok then PoolSize(profile) else sockets + 1
      ensures !workerPool.isRunning && workerPool.starts == 0
      ensures workerPool.profile == profile && workerPool.AreSetUp(workerPool.workers)
      ensures ok ==> Carries(workerPool.workers, Load(profile.targetEPS, PoolSize(profile), currentConfig.targetHost))
    {
      hide CarriesTarget, Listed, WorkerPool.AreSetUp;
      FullPool(profile, currentConfig.targetHost);
      var pool := new WorkerPool(currentConfig.targetHost, profile);
      workerPool := pool;
      ok := pool.Initialize(sockets);
      assert [] + Setups(profile, pool.targetHost, pool.Count()) == Setups(profile, pool.targetHost, PoolSize(profile));
      assert pool.workers[0..] == pool.workers;
      SetUpHosts(pool);
      ListPool(pool, ok);
    }

    static lemma SetUpHosts(pool: WorkerPool)
      requires pool.AreSetUp(pool.workers)
      ensures forall i | 0 <= i < |pool.workers| :: pool.workers[i].targetHost == pool.targetHost
    {
      forall i | 0 <= i < |pool.workers| ensures pool.workers[i].targetHost == pool.targetHost {
        assert pool.IsSetUp(pool.workers[i], i);
      }
    }

    ghost method ListPool(pool: WorkerPool, ok: bool)
      requires Listed() && pool !in pools && pool.updaters == |pool.workers| + if ok then 0 else 1
      modifies this`pools, this`failures, this`order, this`sizes, this`updaters
      ensures Listed() && pools == old(pools) + {pool} && updaters == old(updaters) + pool.updaters
      ensures failures == old(failures) + if ok then 0 else 1
    {
      TotalNext(sizes, |pool.workers|);
      order, sizes, updaters := order + [pool], sizes + [|pool.workers|], updaters + pool.updaters;
      pools, failures := pools + {pool}, failures + if ok then 0 else 1;
    }

    /** The rest of a build: the pool with its workers, then the collector. */
    method BuildRun(profile: EPSProfile, sockets: nat) returns (ok: bool)
      requires PoolsInv() && Listed() && metricsCollector.Restartable()
      requires 1 <= PoolSize(profile) <= MAX_WORKERS && profile.targetEPS > 0
      requires workerPool != null ==> !workerPool.isRunning
      modifies this`workerPool, this`pools, this`failures, this`order, this`sizes, this`updaters, this`load
      modifies metricsCollector
      ensures PoolsInv() && Listed() && metricsCollector.Restartable() && Ready(ok)
      ensures old(pools) <= pools && fresh(pools - old(pools)) && fresh(workerPool)
      ensures ok == (PoolSize(profile) <= sockets) && failures == old(failures) + if ok then 0 else 1
      ensures updaters == old(updaters) + if ok then PoolSize(profile) else sockets + 1
      ensures workerPool.profile == profile && workerPool.AreSetUp(workerPool.workers)
      ensures load == if ok then Load(profile.targetEPS, PoolSize(profile), currentConfig.targetHost) else old(load)
      ensures ok ==> Carries(workerPool.workers, load) && metricsCollector.targetEPS == currentConfig.targetEPS
      ensures metricsCollector.isCollecting == (ok || old(metricsCollector.isCollecting))
    {
      hide PoolsInv, Listed, PoolSize, CarriesTarget, WorkerPool.AreSetUp;
      metricsCollector.SetTargetEPS(currentConfig.targetEPS);
      ok := BuildPool(profile, sockets);
      if ok {
        load := Load(profile.targetEPS, PoolSize(profile), currentConfig.targetHost);
        metricsCollector.Start();
      }
    }

    /** Builds everything a run needs, in the source's order: optimizer, pool with
        its workers, collector. */
    method InitializeGenerator(sockets: nat) returns (ok: bool)
      requires Valid() && !isRunning
      modifies this, metricsCollector
      ensures Parts() && Grown() && !isRunning
      ensures Tracks().(running := ok) == Build(old(Tracks()), cores, sockets)
      ensures ok == Buildable(old(currentConfig), cores, sockets)
      ensures ok ==> metricsCollector.isCollecting && Ready(true) && fresh(workerPool)
      ensures ok ==> Carries(workerPool.workers, load) && load == LoadOf(old(currentConfig), cores)
      ensures ok ==> metricsCollector.targetEPS == load.rate
      ensures ok ==> HasProfile(ProfileName(old(currentConfig)))
      ensures !ok ==> Status()
    {
      hide PoolsInv, Listed, OptimizersInv, MetricsCollector.Restartable, PoolSize, WorkersFor, ProfileName, Known, ResolvedTarget;
      hide Carries, WorkerPool.AreSetUp, IsProfile;
      hide Build, Essentials;
      ghost var cfg := currentConfig;
      EssentialsDecide(Tracks(), cfg, cores, sockets);
      var chosen := LoadProfile();
      SameEssentials(currentConfig, cfg.(profile := ProfileName(cfg), targetEPS := ResolvedTarget(cfg)));
      if chosen == None {
        return false;
      }
      StartOptimizer();
      ok := BuildRun(chosen.value, sockets);
    }

    /** The pool is that of the named profile, whose settings its workers have. */
    ghost predicate HasProfile(name: string)
      reads this`workerPool, workerPool
    {
      && workerPool != null && workerPool.AreSetUp(workerPool.workers)
      && IsProfile(workerPool.profile, name)
    }

    /** The current pool has never been started, and if it is built, has its workers. */
    ghost predicate Ready(built: bool)
      reads this`workerPool, workerPool
    {
      && workerPool != null && workerPool.starts == 0 && !workerPool.isRunning
      && (built ==> 1 <= |workerPool.workers| <= MAX_WORKERS)
    }

    method StartGenerator() returns (ok: bool)
      requires Parts() && (workerPool == null || workerPool.isRunning || Ready(true))
      modifies workerPool
      ensures Parts() && ok == (workerPool != null && !old(workerPool != null && workerPool.isRunning))
      ensures workerPool != null ==> workerPool.isRunning && workerPool.workers == old(workerPool.workers)
    {
      hide Listed;
      if workerPool == null {
        return false;
      }
      ok := workerPool.Start();
    }

    /** Stops the current pool, if any, and forgets it. */
    method StopPool() returns (ok: bool)
      requires PoolsInv() && Listed()
      modifies this`workerPool, workerPool
      ensures PoolsInv() && Listed() && workerPool == null
      ensures ok == (old(workerPool) == null || old(workerPool != null && workerPool.isRunning))
    {
      hide Listed;
      ok := true;
      if workerPool != null {
        ok := workerPool.Stop();
        workerPool := null;
      }
    }

    method StopOptimizer()
      requires OptimizersInv()
      modifies this`memoryOptimizer, memoryOptimizer
      ensures OptimizersInv() && memoryOptimizer == null
    {
      if memoryOptimizer != null {
        memoryOptimizer.Stop();
        memoryOptimizer := null;
      }
    }

    /** Stops the pool, the collector and the optimizer. The answer is an error if
        the pool was not running. */
    method StopGenerator() returns (ok: bool)
      requires Parts()
      modifies this`workerPool, this`memoryOptimizer, workerPool, memoryOptimizer
      modifies metricsCollector
      ensures Parts() && workerPool == null && memoryOptimizer == null && !metricsCollector.isCollecting
      ensures ok == (old(workerPool) == null || old(workerPool != null && workerPool.isRunning))
    {
      hide Listed, PoolsInv, OptimizersInv;
      ok := StopPool();
      metricsCollector.Stop();
      StopOptimizer();
    }

    /** What starting and restarting have in common: build, start, mark as running. */
    method BuildAndStart(sockets: nat) returns (ok: bool)
      requires Valid() && !isRunning
      modifies this, metricsCollector
      ensures Valid() && Grown()
      ensures ok == isRunning == Buildable(old(currentConfig), cores, sockets)
      ensures Tracks() == Build(old(Tracks()), cores, sockets)
      ensures ok ==> load == LoadOf(old(currentConfig), cores) && HasProfile(ProfileName(old(currentConfig)))
    {
      hide PoolsInv, Listed, OptimizersInv, MetricsCollector.Restartable, Buildable, Build, Carries, LoadOf;
      hide WorkerPool.AreSetUp, ProfileName, IsProfile;
      ok := InitializeGenerator(sockets);
      if !ok {
        return false;
      }
      ok := StartGenerator();
      if !ok {
        assert false;
        return false;
      }
      isRunning := true;
    }

    /** What restarting and shutting down have in common. */
    method StopIfRunning()
      requires Valid()
      modifies this, workerPool, memoryOptimizer, metricsCollector
      ensures Valid() && Grown() && !isRunning && currentConfig == old(currentConfig)
      ensures Tracks() == Halt(old(Tracks()))
    {
      hide PoolsInv, Listed, OptimizersInv, MetricsCollector.Restartable, Carries;
      if isRunning {
        var _ := StopGenerator();
        isRunning := false;
      }
    }

    method HandleStart(body: Option<StartBody>, sockets: nat) returns (ok: bool)
      requires Valid()
      modifies this, metricsCollector
      ensures Valid() && Grown()
      ensures ok == (!old(isRunning) && Buildable(Merged(old(currentConfig), body), cores, sockets))
      ensures isRunning == (ok || old(isRunning))
      ensures ok ==>
                var before := old(currentConfig);
                var asked := if body.Some? && body.value.profile != "" then body.value.profile else before.profile;
                var rate := if body.Some? && body.value.targetEPS > 0 then body.value.targetEPS else before.targetEPS;
                var host := if body.Some? && body.value.targetHost != "" then body.value.targetHost else before.targetHost;
                if asked == "custom" then Carries(workerPool.workers, Load(rate, WorkerCount(rate, cores), host))
                else
                  var name := if asked == "" then "4m" else asked;
                  && name in EPS_PROFILES && HasProfile(name)
                  && Carries(workerPool.workers, Load(EPS_PROFILES[name].targetEPS, EPS_PROFILES[name].workerCount, host))
      ensures Tracks() == Served(old(Tracks()), StartRequest(body, sockets), cores)
    {
      hide PoolsInv, Listed, OptimizersInv, MetricsCollector.Restartable, Buildable, Merged, Build, Carries, LoadOf;
      hide WorkerPool.AreSetUp, ProfileName, IsProfile;
      if isRunning {
        return false;
      }
      MergedPositive(currentConfig, body);
      MergedEssentials(currentConfig, body);
      ghost var before := currentConfig;
      currentConfig := Merged(currentConfig, body);
      ok := BuildAndStart(sockets);
      if ok {
        BuildableIsKnown(Merged(before, body), cores, sockets);
        AskedLoad(before, body,
                  if body.Some? && body.value.profile != "" then body.value.profile else before.profile,
                  if body.Some? && body.value.targetEPS > 0 then body.value.targetEPS else before.targetEPS,
                  if body.Some? && body.value.targetHost != "" then body.value.targetHost else before.targetHost, cores);
      }
    }

    /** Stopping while running never fails. */
    method HandleStop() returns (ok: bool)
      requires Valid()
      modifies this, workerPool, memoryOptimizer, metricsCollector
      ensures Valid() && Grown() && !isRunning
      ensures ok == old(isRunning)
      ensures ok ==> workerPool == null && memoryOptimizer == null
      ensures Tracks() == Served(old(Tracks()), StopRequest, cores) && optimizers == old(optimizers)
    {
      hide Listed;
      if !isRunning {
        return false;
      }
      ok := StopGenerator();
      if !ok {
        assert false;
        return false;
      }
      isRunning := false;
    }

    method HandleRestart(sockets: nat) returns (ok: bool)
      requires Valid()
      modifies this, workerPool, memoryOptimizer, metricsCollector
      ensures Valid() && Grown()
      ensures ok == isRunning == Buildable(old(currentConfig), cores, sockets)
      ensures Tracks() == Served(old(Tracks()), RestartRequest(sockets), cores)
      ensures ok ==>
                var before := old(currentConfig);
                if before.profile == "custom" then
                  Carries(workerPool.workers, Load(before.targetEPS, WorkerCount(before.targetEPS, cores), before.targetHost))
                else
                  var name := if before.profile == "" then "4m" else before.profile;
                  && name in EPS_PROFILES && HasProfile(name)
                  && Carries(workerPool.workers, Load(EPS_PROFILES[name].targetEPS, EPS_PROFILES[name].workerCount, before.targetHost))
    {
      hide PoolsInv, Listed, OptimizersInv, MetricsCollector.Restartable, Buildable, Build, Halt, Carries, LoadOf;
      StopIfRunning();
      ok := BuildAndStart(sockets);
      if ok {
        ghost var before := old(currentConfig);
        BuildableIsKnown(before, cores, sockets);
        AskedLoad(before, None, before.profile, before.targetEPS, before.targetHost, cores);
      }
    }

    /** Shutting the server down. */
    method Stop()
      requires Valid()
      modifies this, workerPool, memoryOptimizer, metricsCollector
      ensures Valid() && Grown() && !isRunning
      ensures Tracks() == Served(old(Tracks()), Shutdown, cores)
    {
      hide PoolsInv, Listed, OptimizersInv, MetricsCollector.Restartable;
      StopIfRunning();
    }

    method Handle(r: Request) returns (ok: bool)
      requires Valid()
      modifies this, workerPool, memoryOptimizer, metricsCollector
      ensures Valid() && Grown()
      ensures Tracks() == Served(old(Tracks()), r, cores)
      ensures r.StopRequest? ==> ok == old(isRunning) && !isRunning
      ensures r.Shutdown? ==> ok && !isRunning
    {
      hide Listed;
      match r {
        case SetConfig(body) => ok := HandleConfig(body);
        case StartRequest(start, sockets) => ok := HandleStart(start, sockets);
        case StopRequest => ok := HandleStop();
        case RestartRequest(sockets) => ok := HandleRestart(sockets);
        case Shutdown => Stop(); ok := true;
      }
    }
  }

  /** Main result: whatever requests a fresh server serves, in whatever order, and
      whatever fails on the way, it runs exactly when its pool and its collector
      do, no pool was ever started or stopped twice or with a number of workers
      outside 1 to 200, the rate stays positive and no channel was closed twice. The
      requests determine how many optimizers are active: those it has lost, one for
      every build that made a new one while that of a failed build was still held,
      and the one it holds. They also determine how many timestamp updaters are
      alive, running or not: one for every worker of every pool ever made, and one
      more for every build that failed. */
  method Serve(cores: int, now: real, requests: seq<Request>) returns (cs: ControlServer)
    requires cores >= 1
    ensures cs.isRunning <==> cs.workerPool != null && cs.workerPool.isRunning
    ensures cs.isRunning <==> cs.metricsCollector.isCollecting
    ensures cs.metricsCollector.loops == if cs.isRunning then 1 else 0
    ensures forall p | p in cs.pools :: p.stops <= p.starts <= 1 && (p.starts == 1 ==> 1 <= |p.workers| <= MAX_WORKERS)
    ensures forall p | p in cs.pools && p.isRunning :: p == cs.workerPool
    ensures cs.currentConfig.targetEPS > 0
    ensures cs.Tracks() == ServedAll(cores, requests)
    ensures var load := ServedAll(cores, requests).load;
            cs.isRunning ==> Carries(cs.workerPool.workers, load) && cs.metricsCollector.targetEPS == load.rate
    ensures var t := ServedAll(cores, requests);
            && |cs.ActiveOptimizers()| == t.lost + (if t.held then 1 else 0)
            && (!cs.isRunning ==> (cs.ActiveOptimizers() == {} <==> t.lost == 0 && !t.held))
            && |cs.ActiveOptimizers()| <= cs.failures + if cs.isRunning then 1 else 0
    ensures cs.Listed() && cs.updaters == ServedAll(cores, requests).updaters == Total(cs.sizes) + cs.failures
  {
    cs := new ControlServer(cores, now);
    for i := 0 to |requests|
      invariant cs.Valid() && fresh(cs) && fresh(cs.metricsCollector) && cs.cores == cores
      invariant fresh(cs.pools) && fresh(cs.optimizers)
      invariant cs.Tracks() == ServedAll(cores, requests[..i])
    {
      assert requests[..i + 1][..i] == requests[..i];
      var ok := cs.Handle(requests[i]);
    }
    assert requests[..|requests|] == requests;
    cs.ActiveCount();
    LostAtMostFailures(cores, requests);
  }

  /** A failed start with optimization on, a start that succeeds and a stop leave
      one active optimizer that the server has lost, and all updaters. */
  lemma FailedStartLeaks(cores: int)
    ensures var t := ServedAll(cores, [StartRequest(None, 0), StartRequest(None, 200), StopRequest]);
            !t.running && !t.held && t.lost == 1 && t.updaters == 161
  {
    var r1, r2, r3 := StartRequest(None, 0), StartRequest(None, 200), StopRequest;
    assert [r1][..0] == [] && [r1, r2][..1] == [r1] && [r1, r2, r3][..2] == [r1, r2];
    var t1 := Served(FRESH, r1, cores);
    assert t1 == Tracked(Essentials(DEFAULT_CONFIG), false, true, 0, 1, 1, Load(0, 0, ""));
    var t2 := Served(t1, r2, cores);
    assert t2 == Tracked(Essentials(DEFAULT_CONFIG), true, true, 1, 1, 161, Load(4_000_000, 160, "127.0.0.1"));
    hide Served;
    assert ServedAll(cores, []) == FRESH;
    assert ServedAll(cores, [r1]) == t1;
    assert ServedAll(cores, [r1, r2]) == t2;
    assert ServedAll(cores, [r1, r2, r3]) == Served(t2, r3, cores);
    StopHalts(t2, cores);
  }

  lemma StopHalts(t: Tracked, cores: int)
    ensures Served(t, StopRequest, cores) == Halt(t)
  {
  }
}
