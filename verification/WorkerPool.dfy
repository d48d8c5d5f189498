/** The worker pool as its owner sees it: built once from a profile, started once,
    stopped once. What its goroutines do in between is the subject of PoolShutdown. */
module WorkerPool {
  import opened Common
  import opened Profiles
  import opened EpsRing

  const FIRST_PORT := 10514
  const MAX_PORT := 10714
  const UDP_SEND_BUFFER_SIZE := 2 * 1024 * 1024
  const UDP_RECV_BUFFER_SIZE := 1024 * 1024

  /** How one worker is set up. */
  datatype WorkerSetup = WorkerSetup(id: int, port: int, targetHost: string, batchSize: int, tickerInterval: int,
                                     sendBufferSize: int, recvBufferSize: int, targetEPS: int, precisionMode: string)

  /** The number of workers a profile asks for, capped. */
  function PoolSize(p: EPSProfile): int {
    if p.workerCount > MAX_WORKERS then MAX_WORKERS else p.workerCount
  }

  /** The setup of worker number i of the pool, counted from zero. */
  function SetupOf(p: EPSProfile, host: string, i: nat): WorkerSetup
    requires PoolSize(p) != 0
  {
    WorkerSetup(i + 1, FIRST_PORT + i, host, p.batchSize, p.tickerInterval,
                if p.sendBufferSize > 0 then p.sendBufferSize * 1024 else UDP_SEND_BUFFER_SIZE,
                if p.sendBufferSize > 0 then p.receiveBufferSize * 1024 else UDP_RECV_BUFFER_SIZE,
                WorkerShare(p.targetEPS, PoolSize(p)), p.precisionMode)
  }

  function Setups(p: EPSProfile, host: string, n: nat): (s: seq<WorkerSetup>)
    requires PoolSize(p) != 0
    ensures |s| == n
  {
    seq(n, i requires i >= 0 => SetupOf(p, host, i))
  }

  function TotalTarget(workers: seq<WorkerSetup>): int {
    if workers == [] then 0 else TotalTarget(workers[..|workers| - 1]) + workers[|workers| - 1].targetEPS
  }

  lemma {:induction false} TotalOfEqualShares(p: EPSProfile, host: string, n: nat)
    requires PoolSize(p) != 0
    ensures TotalTarget(Setups(p, host, n)) == n * WorkerShare(p.targetEPS, PoolSize(p))
  {
    if n > 0 {
      TotalOfEqualShares(p, host, n - 1);
      assert Setups(p, host, n)[..n - 1] == Setups(p, host, n - 1);
    }
  }

  /** One worker per port, all below the end of the range set aside for workers,
      whose shares add up to the target but for less than one log per second and worker. */
  predicate CarriesTarget(workers: seq<WorkerSetup>, target: int) {
    && (forall i, j | 0 <= i < j < |workers| ::
          FIRST_PORT <= workers[i].port < workers[j].port < MAX_PORT && workers[i].id < workers[j].id)
    && target - |workers| < TotalTarget(workers) <= target
  }

  lemma FullPool(p: EPSProfile, host: string)
    requires p.targetEPS >= 0 && p.workerCount >= 1
    ensures CarriesTarget(Setups(p, host, PoolSize(p)), p.targetEPS)
  {
    TotalOfEqualShares(p, host, PoolSize(p));
    SharesCoverTarget(p.targetEPS, PoolSize(p));
  }

  class WorkerPool {
    const profile: EPSProfile
    const targetHost: string
    var workers: seq<WorkerSetup>
    var workerCount: int
    var isRunning: bool
    var cancelled: bool

    /** How often the pool went from stopped to running and back, and how many
        timestamp updaters its build started. Nothing ever ends one. */
    ghost var starts: nat
    ghost var stops: nat
    ghost var updaters: nat

    ghost predicate Valid()
      reads this
    {
      && starts == stops + (if isRunning then 1 else 0)
      && (cancelled <==> stops > 0)
    }

    constructor (targetHost: string, profile: EPSProfile)
      ensures this.profile == profile && this.targetHost == targetHost
      ensures Valid() && workers == [] && workerCount == 0 && !isRunning && !cancelled && starts == updaters == 0
    {
      this.profile, this.targetHost, workers, workerCount, isRunning, cancelled := profile, targetHost, [], 0, false, false;
      starts, stops, updaters := 0, 0, 0;
    }

    function Count(): nat {
      if PoolSize(profile) > 0 then PoolSize(profile) else 0
    }

    /** What the profile means for worker number i, whatever its place in the pool. */
    predicate IsSetUp(w: WorkerSetup, i: int) {
      && w.id == i + 1 && w.port == 10_514 + i && w.targetHost == targetHost
      && w.batchSize == profile.batchSize && w.tickerInterval == profile.tickerInterval
      && w.precisionMode == profile.precisionMode
      && (profile.sendBufferSize > 0 ==>
            w.sendBufferSize == 1024 * profile.sendBufferSize && w.recvBufferSize == 1024 * profile.receiveBufferSize)
      && (profile.sendBufferSize <= 0 ==> w.sendBufferSize == 2_097_152 && w.recvBufferSize == 1_048_576)
      && (profile.targetEPS >= 0 && profile.workerCount > 0 ==>
            var n := Min(profile.workerCount, 200);
            n * w.targetEPS <= profile.targetEPS < n * w.targetEPS + n)
    }

    predicate AreSetUp(built: seq<WorkerSetup>) {
      forall i | 0 <= i < |built| :: IsSetUp(built[i], i)
    }

    lemma SetupsAreSetUp(n: nat)
      requires PoolSize(profile) != 0
      ensures AreSetUp(Setups(profile, targetHost, n))
    {
      if profile.targetEPS >= 0 && profile.workerCount > 0 {
        SharesCoverTarget(profile.targetEPS, PoolSize(profile));
      }
    }

    /** Builds the workers of the profile on a host that can open `sockets` more
        sockets. When one cannot be opened the workers before it stay, and so does
        its own updater: a worker makes its generator before its socket. The share
        divides by the number of workers, so a profile without any would panic. */
    method Initialize(sockets: nat) returns (ok: bool)
      requires PoolSize(profile) != 0
      modifies this`workers, this`workerCount, this`updaters
      ensures ok == (!isRunning && Count() <= sockets)
      ensures ok ==> workers == old(workers) + Setups(profile, targetHost, Count()) && workerCount == |workers|
      ensures !ok ==> workers == old(workers) + (if isRunning then [] else Setups(profile, targetHost, sockets))
                      && workerCount == old(workerCount)
      ensures ok ==> |workers| - |old(workers)| == if profile.workerCount < 0 then 0 else Min(profile.workerCount, 200)
      ensures |old(workers)| <= |workers| && AreSetUp(workers[|old(workers)|..])
      ensures updaters == old(updaters) + if isRunning then 0 else if ok then Count() else sockets + 1
    {
      if isRunning {
        assert workers[|workers|..] == [];
        return false;
      }
      var count := profile.workerCount;
      if count > MAX_WORKERS {
        count := MAX_WORKERS;
      }
      hide AreSetUp;
      ghost var start := workers;
      var i := 0;
      while i < count
        invariant 0 <= i <= Count() && i <= sockets
        invariant workers == start + Setups(profile, targetHost, i) && workerCount == old(workerCount)
        invariant updaters == old(updaters) + i
      {
        updaters := updaters + 1;
        if i == sockets {
          SetupsAreSetUp(i);
          assert workers[|start|..] == Setups(profile, targetHost, i);
          return false;
        }
        var sendBufferSize, recvBufferSize := UDP_SEND_BUFFER_SIZE, UDP_RECV_BUFFER_SIZE;
        if profile.sendBufferSize > 0 {
          sendBufferSize, recvBufferSize := profile.sendBufferSize * 1024, profile.receiveBufferSize * 1024;
        }
        var share := Quot(profile.targetEPS, count);
        workers := workers + [WorkerSetup(i + 1, FIRST_PORT + i, targetHost, profile.batchSize, profile.tickerInterval,
                                          sendBufferSize, recvBufferSize, share, profile.precisionMode)];
        i := i + 1;
        assert Setups(profile, targetHost, i) == Setups(profile, targetHost, i - 1) + [SetupOf(profile, targetHost, i - 1)];
      }
      workerCount := |workers|;
      SetupsAreSetUp(Count());
      assert workers[|start|..] == Setups(profile, targetHost, Count());
      return true;
    }

    /** Fails if the pool is running already. */
    method Start() returns (ok: bool)
      requires Valid()
      modifies this`isRunning, this`starts
      ensures Valid() && isRunning
      ensures ok == !old(isRunning) && starts == old(starts) + if ok then 1 else 0
    {
      if isRunning {
        return false;
      }
      isRunning := true;
      starts := starts + 1;
      return true;
    }

    /** Fails if the pool is not running; otherwise cancels its context for good. */
    method Stop() returns (ok: bool)
      requires Valid()
      modifies this`isRunning, this`cancelled, this`stops
      ensures Valid() && !isRunning
      ensures ok == old(isRunning) && stops == old(stops) + if ok then 1 else 0
      ensures cancelled == (ok || old(cancelled))
    {
      if !isRunning {
        return false;
      }
      isRunning := false;
      cancelled := true;
      stops := stops + 1;
      return true;
    }
  }

  /** The pool's record of its total rate: a ring of 300 samples, at most one a second. */
  class EPSHistory {
    const epsHistory: Ring
    var lastHistoryTime: Option<real>
    ghost var times: seq<real>

    ghost predicate Valid()
      reads this, epsHistory, epsHistory.slots
    {
      && epsHistory.Valid() && epsHistory.slots.Length == 300
      && |times| == |epsHistory.samples|
      && lastHistoryTime == (if times == [] then None else Some(times[|times| - 1]))
      && forall i | 0 <= i < |times| - 1 :: times[i] + 1.0 <= times[i + 1]
    }

    constructor ()
      ensures Valid() && times == [] && fresh(epsHistory) && fresh(epsHistory.slots)
    {
      epsHistory := new Ring(300);
      lastHistoryTime, times := None, [];
    }

    /** Records a rate unless less than a second has passed since the last one. */
    method UpdateEPSHistory(now: real, currentEPS: int)
      requires Valid()
      modifies this, epsHistory`index, epsHistory`samples, epsHistory.slots
      ensures Valid()
      ensures if old(lastHistoryTime) == None || now - old(lastHistoryTime).value >= 1.0
              then times == old(times) + [now] && epsHistory.samples == old(epsHistory.samples) + [currentEPS]
              else times == old(times) && epsHistory.samples == old(epsHistory.samples)
    {
      if lastHistoryTime == None || now - lastHistoryTime.value >= 1.0 {
        epsHistory.Push(currentEPS);
        lastHistoryTime, times := Some(now), times + [now];
      }
    }

    /** Every sample of the last five minutes is still in the ring, at its place
        in the order of time. */
    lemma FiveMinutesKept(i: nat)
      requires Valid() && i < |times| && times[i] > times[|times| - 1] - 300.0
      ensures var at := i - (|times| - 300);
              0 <= at < 300 && Last(300, epsHistory.samples)[at] == epsHistory.samples[i]
    {
      Spaced(times, i, |times| - 1);
      LastIsSuffix(300, epsHistory.samples);
    }
  }

  lemma {:induction false} Spaced(times: seq<real>, i: nat, j: nat)
    requires i <= j < |times| && forall k | 0 <= k < |times| - 1 :: times[k] + 1.0 <= times[k + 1]
    ensures times[i] + (j - i) as real <= times[j]
    decreases j - i
  {
    if i < j { Spaced(times, i + 1, j); }
  }
}
