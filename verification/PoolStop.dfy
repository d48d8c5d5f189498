/** What Stop of a worker pool can still do, from any state of the machine of
    PoolShutdown: when it can return, and when it has joined all that the wait
    groups count. Both answers rest on one schedule that always takes the step that helps Stop. */
module PoolStop {
  import opened PoolShutdown

  /** Worker j keeps Stop from ever returning: Stop has not passed it, and its
      realtime loop waits for a first batch that a cancelled producer will not make. */
  predicate Blocks(s: Pool, j: nat)
    requires j < |s.workers|
  {
    Visit(s.stop, j) != 3 && (s.workers[j].feed == Starved || (s.workers[j].feed == Dry && s.cancelled))
  }

  predicate NoneBlocks(s: Pool) {
    forall j | 0 <= j < |s.workers| :: !Blocks(s, j)
  }

  /** The send loop of worker `keep` has not exited, and will not be up before
      Stop has passed its worker; a negative number keeps none. */
  predicate Kept(s: Pool, keep: int) {
    0 <= keep < |s.workers| ==>
      s.workers[keep].sender != Exited && (Progress(s.workers[keep].starter) <= 3 || Visit(s.stop, keep) == 3)
  }

  /** Steps that bring no worker into the way of Stop: starters move only behind
      Stop, and cancelling waits until every realtime loop has its first batch coming. */
  predicate Helps(s: Pool, a: Action, keep: int)
    requires Enabled(s, a)
  {
    match a
    case StarterStep(j) => Visit(s.stop, j) == 3 || s.workers[j].starter == SenderUp
    case SenderExit(j) => j != keep
    case ProducerExit(_) => false
    case Cancel => forall j | 0 <= j < |s.workers| :: s.workers[j].feed != Dry
    case _ => true
  }

  lemma HelpfulStep(s: Pool, a: Action, keep: int)
    requires Inv(s) && NoneBlocks(s) && Kept(s, keep) && Enabled(s, a) && Helps(s, a, keep)
    ensures NoneBlocks(Apply(s, a)) && Kept(Apply(s, a), keep)
  {
    var t := Apply(s, a);
    if IsWorkerStep(a) {
      WorkerStepIsLocal(s, a);
      assert AtInv(s, a.i) && !Blocks(s, a.i);
      HelpfulWorkerStep(s, a, keep);
      hide Inv, Apply, Enabled, Helps;
      forall j | 0 <= j < |t.workers| ensures !Blocks(t, j) {
        assert !Blocks(s, j);
      }
    } else {
      HelpfulCallerStep(s, a, keep);
    }
  }

  lemma HelpfulWorkerStep(s: Pool, a: Action, keep: int)
    requires Enabled(s, a) && IsWorkerStep(a) && AtInv(s, a.i) && Helps(s, a, keep)
    requires !Blocks(s, a.i) && Kept(s, keep)
    ensures var t := Apply(s, a); !Blocks(t, a.i) && Kept(t, keep)
  {
    hide Visit, SpawnInv, VisitInv;
    WorkerStepIsLocal(s, a);
    if a.StarterStep? {
      var w := s.workers[a.i];
      assert Apply(s, a).workers[a.i] == StarterNext(w);
    }
  }

  lemma HelpfulCallerStep(s: Pool, a: Action, keep: int)
    requires CallersInv(s) && NoneBlocks(s) && Kept(s, keep) && Enabled(s, a) && Helps(s, a, keep) && !IsWorkerStep(a)
    ensures NoneBlocks(Apply(s, a)) && Kept(Apply(s, a), keep)
  {
    var t := Apply(s, a);
    forall j | 0 <= j < |t.workers| ensures !Blocks(t, j) {
      assert !Blocks(s, j);
    }
  }

  /** No producer of a waiting realtime loop gives up in the course of a run. */
  predicate NoProducerLeaves(run: seq<Action>) {
    forall k | 0 <= k < |run| :: !run[k].ProducerExit?
  }

  /** Until Stop has returned there is a helpful step. */
  lemma NextHelp(s: Pool, keep: int) returns (a: Action)
    requires Inv(s) && NoneBlocks(s) && Kept(s, keep) && s.stop != StopDone
    ensures Enabled(s, a) && Helps(s, a, keep)
  {
    if s.start == StartIdle {
      return StartCall;
    } else if s.start == Launching {
      return Launch;
    } else if s.start.next < |s.workers| {
      return Spawn;
    } else if s.stop == StopIdle {
      return StopCall;
    } else if s.stop == Cancelling {
      if j: nat :| j < |s.workers| && s.workers[j].feed == Dry {
        return Produce(j);
      }
      return Cancel;
    } else if s.aggregator == Alive {
      return AggregatorExit;
    } else {
      a := HelpAfterCancel(s, keep);
    }
  }

  lemma HelpAfterCancel(s: Pool, keep: int) returns (a: Action)
    requires Inv(s) && NoneBlocks(s) && Kept(s, keep) && s.stop != StopDone
    requires s.cancelled && s.aggregator != Alive
    ensures Enabled(s, a) && Helps(s, a, keep)
  {
    if j: nat :| j < |s.workers| && IsStarting(s.workers[j]) && Visit(s.stop, j) == 3 {
      return StarterStep(j);
    } else if j: nat :| j < |s.workers| && s.workers[j].collector == Alive {
      return CollectorExit(j);
    } else if j: nat :| j < |s.workers| && j != keep && s.workers[j].sender == Alive && Visit(s.stop, j) != 3 {
      assert !Blocks(s, j);
      return if s.workers[j].feed == Filled then First(j) else SenderExit(j);
    } else {
      a := StopStep;
      WaitsAreOver(s, keep);
    }
  }

  lemma WaitsAreOver(s: Pool, keep: int)
    requires Inv(s) && Kept(s, keep) && s.cancelled && s.stop != StopDone && s.aggregator != Alive
    requires forall j | 0 <= j < |s.workers| ::
               && !(IsStarting(s.workers[j]) && Visit(s.stop, j) == 3) && s.workers[j].collector != Alive
               && (j == keep || s.workers[j].sender != Alive || Visit(s.stop, j) == 3)
    ensures Enabled(s, StopStep)
  {
    if s.stop.WaitingWorker? {
      assert AtInv(s, s.stop.i);
    } else if s.stop == AtWorker(|s.workers|) {
      NoneStarting(s.workers);
      hide Starting;
    }
  }

  lemma {:induction false} Escort(s: Pool, keep: int) returns (run: seq<Action>)
    requires Inv(s) && NoneBlocks(s) && Kept(s, keep)
    ensures IsRun(s, run) && After(s, run).stop == StopDone && Kept(After(s, run), keep)
    ensures NoProducerLeaves(run)
    decreases if Measure(s) < 0 then 0 else Measure(s)
  {
    hide Inv, NoneBlocks, Kept, Apply, Enabled, Helps, Measure;
    if s.stop == StopDone {
      run := [];
    } else {
      var a := NextHelp(s, keep);
      StepKeepsInv(s, a);
      HelpfulStep(s, a, keep);
      StepDecreases(s, a);
      MeasureNotNegative(Apply(s, a));
      var rest := Escort(Apply(s, a), keep);
      run := [a] + rest;
      assert run[1..] == rest;
    }
  }

  // ---- when Stop can return ----

  lemma BlocksForever(s: Pool, a: Action, j: nat)
    requires Inv(s) && j < |s.workers| && Blocks(s, j) && Enabled(s, a)
    ensures j < |Apply(s, a).workers| && Blocks(Apply(s, a), j)
  {
    assert AtInv(s, j);
    hide WorkersInv, CountInv, WorkerInv, VisitInv, SpawnInv;
    if IsWorkerStep(a) {
      WorkerStepIsLocal(s, a);
    }
  }

  lemma {:induction false} NeverReturns(s: Pool, run: seq<Action>, j: nat)
    requires Inv(s) && j < |s.workers| && Blocks(s, j) && IsRun(s, run)
    ensures After(s, run).stop != StopDone
    decreases |run|
  {
    if run != [] {
      StepKeepsInv(s, run[0]);
      BlocksForever(s, run[0], j);
      NeverReturns(Apply(s, run[0]), run[1..], j);
    }
  }

  /** From any reachable state Stop can still return if and only if it has passed
      every realtime loop whose producer was cancelled before it had a batch. */
  lemma StopCanReturnIff(s: Pool)
    requires Inv(s)
    ensures (exists run :: IsRun(s, run) && After(s, run).stop == StopDone) <==> NoneBlocks(s)
  {
    if NoneBlocks(s) {
      var run := Escort(s, -1);
    } else {
      var j :| 0 <= j < |s.workers| && Blocks(s, j);
      forall run | IsRun(s, run) ensures After(s, run).stop != StopDone {
        NeverReturns(s, run, j);
      }
    }
  }

  // ---- when Stop has joined everything ----

  /** A worker that has not registered its send loop when Stop is called: some
      schedule ends Stop with that loop alive. It covers a starter that has not
      claimed the worker yet, which Stop passes by, and one that has, whose worker
      Stop flips, closes and waits for too early. */
  lemma LateStarterOutlivesStop(s: Pool, i: nat) returns (run: seq<Action>)
    requires Inv(s) && Enabled(s, StopCall) && i < |s.workers| && Progress(s.workers[i].starter) <= 3
    ensures IsRun(s, [StopCall] + run)
    ensures var t := After(s, [StopCall] + run);
            t.stop == StopDone && i < |t.workers| && t.workers[i].sender == Alive
    ensures NoProducerLeaves(run)
  {
    var t := Apply(s, StopCall);
    StepKeepsInv(s, StopCall);
    BeforeCancelNoneBlocks(s);
    assert Kept(t, i) by { assert AtInv(s, i); }
    assert i < |t.workers|;
    hide Inv, Enabled, Apply, NoneBlocks, Joined;
    run := Escort(t, i);
    Prepend(s, StopCall, run);
    RunKeepsInv(t, run);
    RunKeepsWorkers(t, run);
    StopReturned(t, run);
    hide IsRun, After;
    KeptIsAlive(After(t, run), i);
  }

  lemma KeptIsAlive(s: Pool, i: nat)
    requires Inv(s) && Kept(s, i) && i < |s.workers| && AllStarted(s)
    ensures s.workers[i].sender == Alive
  {
    assert AtInv(s, i);
  }

  lemma Prepend(s: Pool, a: Action, run: seq<Action>)
    requires Enabled(s, a) && IsRun(Apply(s, a), run)
    ensures IsRun(s, [a] + run) && After(s, [a] + run) == After(Apply(s, a), run)
  {
    assert ([a] + run)[1..] == run;
  }

  /** Every fresh pool with a worker can come to that point: Start has returned, and
      no starter has had a turn. Its realtime loops, if any, are then unfed. */
  lemma StartReturnsFirst(s: Pool) returns (run: seq<Action>)
    requires IsFresh(s)
    ensures IsRun(s, run) && Inv(After(s, run)) && Enabled(After(s, run), StopCall) && NoProducerLeaves(run)
    ensures |After(s, run).workers| == |s.workers|
    ensures forall i | 0 <= i < |s.workers| ::
              After(s, run).workers[i].starter == Spawned && After(s, run).workers[i].feed == NoFeed
  {
    FreshInv(s);
    StepKeepsInv(s, StartCall);
    var t := Apply(s, StartCall);
    StepKeepsInv(t, Launch);
    var u := Apply(t, Launch);
    run := SpawnRest(u);
    Prepend(t, Launch, run);
    run := [Launch] + run;
    Prepend(s, StartCall, run);
    run := [StartCall] + run;
  }

  lemma SpawnRest(s: Pool) returns (run: seq<Action>)
    requires Inv(s) && s.running && s.stop == StopIdle && s.start.Spawning?
    requires forall i | 0 <= i < |s.workers| ::
               s.workers[i].feed == NoFeed && s.workers[i].starter == if i < s.start.next then Spawned else Unspawned
    ensures IsRun(s, run) && Inv(After(s, run)) && Enabled(After(s, run), StopCall) && NoProducerLeaves(run)
    ensures |After(s, run).workers| == |s.workers|
    ensures forall i | 0 <= i < |s.workers| ::
              After(s, run).workers[i].starter == Spawned && After(s, run).workers[i].feed == NoFeed
    decreases |s.workers| - s.start.next
  {
    if s.start.next == |s.workers| {
      run := [];
    } else {
      StepKeepsInv(s, Spawn);
      hide Inv;
      var rest := SpawnRest(Apply(s, Spawn));
      Prepend(s, Spawn, rest);
      run := [Spawn] + rest;
    }
  }

  lemma BeforeCancelNoneBlocks(s: Pool)
    requires Inv(s) && Enabled(s, StopCall)
    ensures NoneBlocks(Apply(s, StopCall))
  {
    forall j | 0 <= j < |s.workers| ensures !Blocks(Apply(s, StopCall), j) {
      assert AtInv(s, j);
    }
  }

  lemma PromptStopJoins(s: Pool, run: seq<Action>)
    requires Inv(s) && Enabled(s, StopCall) && AllUp(s)
    requires IsRun(s, [StopCall] + run) && After(s, [StopCall] + run).stop == StopDone
    ensures Joined(After(s, [StopCall] + run))
  {
    assert ([StopCall] + run)[1..] == run;
    StepKeepsInv(s, StopCall);
    PromptStays(Apply(s, StopCall), run);
    StopReturned(Apply(s, StopCall), run);
  }

  /** Main result: whenever Stop is called, it has joined everything in every way in
      which it can return if and only if every worker had registered both its
      goroutines by then. */
  lemma StopJoinsAllIff(s: Pool)
    requires Inv(s) && Enabled(s, StopCall)
    ensures (forall run | IsRun(s, [StopCall] + run) && After(s, [StopCall] + run).stop == StopDone ::
               Joined(After(s, [StopCall] + run)))
            <==> AllUp(s)
  {
    if AllUp(s) {
      forall run | IsRun(s, [StopCall] + run) && After(s, [StopCall] + run).stop == StopDone
        ensures Joined(After(s, [StopCall] + run))
      {
        PromptStopJoins(s, run);
      }
    } else {
      var i :| 0 <= i < |s.workers| && Progress(s.workers[i].starter) < 4;
      var run := LateStarterOutlivesStop(s, i);
      assert !Joined(After(s, [StopCall] + run));
    }
  }

  lemma {:induction false} PromptStays(s: Pool, run: seq<Action>)
    requires Inv(s) && s.stop != StopIdle && IsRun(s, run)
    ensures After(s, run).prompt == s.prompt
    decreases |run|
  {
    if run != [] {
      StepKeepsInv(s, run[0]);
      PromptStep(s, run[0]);
      PromptStays(Apply(s, run[0]), run[1..]);
    }
  }

  lemma PromptStep(s: Pool, a: Action)
    requires CallersInv(s) && s.stop != StopIdle && Enabled(s, a)
    ensures Apply(s, a).prompt == s.prompt && Apply(s, a).stop != StopIdle
  {
  }

  /** A pool without realtime loops is never kept from stopping. */
  lemma WithoutRealtimeStopReturns(s: Pool)
    requires Inv(s) && forall i | 0 <= i < |s.workers| :: s.workers[i].loop != Realtime
    ensures NoneBlocks(s) && NoneHung(s)
  {
    forall i | 0 <= i < |s.workers| ensures !Blocks(s, i) && !Hung(s, i) {
      assert AtInv(s, i);
    }
  }

  // ---- when Stop is sure to be able to return ----

  /** Every realtime loop has its first batch, or one coming. */
  predicate AllFed(s: Pool) {
    forall i | 0 <= i < |s.workers| && s.workers[i].loop == Realtime :: s.workers[i].feed in {Filled, Fed}
  }

  /** Whenever Stop is called, it stays able to return, whatever happens, if and
      only if every realtime loop has its first batch or one coming by then. */
  lemma StopSurelyReturnsIff(s: Pool)
    requires Inv(s) && Enabled(s, StopCall)
    ensures (forall run | IsRun(s, [StopCall] + run) :: NoneBlocks(After(s, [StopCall] + run))) <==> AllFed(s)
  {
    hide Inv, Enabled, Apply, NoneBlocks, IsRun, After;
    if AllFed(s) {
      forall run | IsRun(s, [StopCall] + run) ensures NoneBlocks(After(s, [StopCall] + run)) {
        FedStaysFed(s, [StopCall] + run);
        FedBlocksNothing(After(s, [StopCall] + run));
      }
    } else {
      var i :| 0 <= i < |s.workers| && s.workers[i].loop == Realtime && s.workers[i].feed !in {Filled, Fed};
      var run := UnfedBlocks(s, i);
    }
  }

  lemma UnfedBlocks(s: Pool, i: nat) returns (run: seq<Action>)
    requires Inv(s) && Enabled(s, StopCall) && i < |s.workers|
    requires s.workers[i].loop == Realtime && s.workers[i].feed !in {Filled, Fed}
    ensures IsRun(s, [StopCall] + run) && NoProducerLeaves(run)
    ensures var t := After(s, [StopCall] + run); i < |t.workers| && Blocks(t, i) && !NoneBlocks(t)
  {
    hide Inv, Apply, IsRun, After, Blocks, Enabled;
    var t, u := CallAndCancel(s, i);
    var rest := BringUp(u, i);
    Prepend(t, Cancel, rest);
    run := [Cancel] + rest;
    Prepend(s, StopCall, run);
  }

  lemma CallAndCancel(s: Pool, i: nat) returns (t: Pool, u: Pool)
    requires Inv(s) && Enabled(s, StopCall) && i < |s.workers|
    ensures t == Apply(s, StopCall) && Enabled(t, Cancel) && u == Apply(t, Cancel)
    ensures Inv(u) && u.cancelled && Visit(u.stop, i) == 0 && u.workers == s.workers
    ensures Progress(s.workers[i].starter) >= 1
  {
    hide Inv, Enabled, Apply, Visit;
    t := Apply(s, StopCall);
    CallIsLocal(s, i);
    u := Apply(t, Cancel);
    AllSpawned(s, i);
    StepKeepsInv(s, StopCall);
    StepKeepsInv(t, Cancel);
  }

  lemma AllSpawned(s: Pool, i: nat)
    requires Inv(s) && Enabled(s, StopCall) && i < |s.workers|
    ensures Progress(s.workers[i].starter) >= 1
  {
    assert AtInv(s, i);
    hide WorkersInv, CountInv, WorkerInv, VisitInv;
  }

  lemma CallIsLocal(s: Pool, i: nat)
    requires Enabled(s, StopCall) && i < |s.workers|
    ensures var t := Apply(s, StopCall);
            && Enabled(t, Cancel)
            && var u := Apply(t, Cancel); u.cancelled && Visit(u.stop, i) == 0 && u.workers == s.workers
  {
  }

  lemma FedBlocksNothing(s: Pool)
    requires Inv(s) && AllFed(s)
    ensures NoneBlocks(s)
  {
    forall j | 0 <= j < |s.workers| ensures !Blocks(s, j) {
      assert AtInv(s, j);
    }
  }

  lemma {:induction false} FedStaysFed(s: Pool, run: seq<Action>)
    requires Inv(s) && AllFed(s) && IsRun(s, run)
    ensures Inv(After(s, run)) && AllFed(After(s, run))
    decreases |run|
  {
    if run != [] {
      StepKeepsInv(s, run[0]);
      StepKeepsFed(s, run[0]);
      FedStaysFed(Apply(s, run[0]), run[1..]);
    }
  }

  lemma StepKeepsFed(s: Pool, a: Action)
    requires Inv(s) && AllFed(s) && Enabled(s, a)
    ensures AllFed(Apply(s, a))
  {
    StepKeepsLoops(s, a);
    if IsWorkerStep(a) {
      WorkerStepIsLocal(s, a);
      assert AtInv(s, a.i);
    }
  }

  /** A realtime worker whose starter gets the time while Stop has not reached it. */
  lemma BringUp(s: Pool, i: nat) returns (run: seq<Action>)
    requires Inv(s) && Ahead(s, i)
    ensures IsRun(s, run) && i < |After(s, run).workers| && Blocks(After(s, run), i) && NoProducerLeaves(run)
    decreases 5 - Progress(s.workers[i].starter)
  {
    hide Inv, Visit, Blocks, Apply, Enabled;
    if Blocks(s, i) {
      run := [];
    } else {
      var a := StarterStep(i);
      AheadStep(s, i);
      StepKeepsInv(s, a);
      var rest := BringUp(Apply(s, a), i);
      Prepend(s, a, rest);
      run := [a] + rest;
    }
  }

  /** Worker i will run the realtime loop, unfed after the cancellation, and Stop has
      not reached it. */
  predicate Ahead(s: Pool, i: nat) {
    && s.cancelled && i < |s.workers| && Visit(s.stop, i) == 0 && s.workers[i].loop == Realtime
    && s.workers[i].feed !in {Filled, Fed} && Progress(s.workers[i].starter) >= 1
  }

  lemma AheadStep(s: Pool, i: nat)
    requires Inv(s) && Ahead(s, i) && !Blocks(s, i)
    ensures Enabled(s, StarterStep(i))
    ensures var t := Apply(s, StarterStep(i));
            && i < |s.workers| && Ahead(t, i) && Progress(s.workers[i].starter) < Progress(t.workers[i].starter) <= 5
  {
    assert AtInv(s, i);
    hide Inv, Visit, VisitInv, SpawnInv;
  }
}
