/** Starting and stopping a fresh worker pool, as a machine whose steps are the
    atomic actions of its goroutines: the caller of Start, the caller of Stop, one
    starter per worker, each worker's metrics collector and send loop, the producer
    that feeds a realtime loop its first batch, and the pool's metrics aggregator.
    Stop is called after Start has returned, as the control server's mutex and the
    command line program ensure; the starters may still be anywhere. Ticks of a
    loop, and what a producer does after its first batch, do not change this state:
    it has what the wait groups count, and PoolLeftovers has the rest. */
module PoolShutdown {

  /** Where the goroutine that runs UDPWorker.Start stands: before and after the
      compare-and-swap on isRunning, after registering each goroutine, returned. */
  datatype StarterPc = Unspawned | Spawned | Claimed | CollectorUp | SenderUp | Finished

  datatype Life = Unborn | Alive | Exited

  /** What a send loop waits on: the context and the stop channel, the context only
      (the medium and performance loops), or, in a realtime loop, first of all a
      batch from its producer and only then the context and the stop channel. */
  datatype Loop = Watching | ContextOnly | Realtime

  /** A realtime loop and its first batch: it waits while the producer has none
      yet, one on its way, or has gone without making one; then it has it. */
  datatype Feed = NoFeed | Dry | Filled | Starved | Fed

  /** `closes` counts how often the stop channel was closed, `wg` is the worker's
      wait group. */
  datatype Worker = Worker(running: bool, closes: nat, wg: int, starter: StarterPc,
                           collector: Life, sender: Life, loop: Loop, feed: Feed)

  datatype StartPc = StartIdle | Launching | Spawning(next: nat)

  datatype StopPc = StopIdle | Cancelling | AtWorker(i: nat) | Closing(i: nat) | WaitingWorker(i: nat) | StopDone

  /** `prompt` records whether every worker had registered both its goroutines when
      Stop was called. */
  datatype Pool = Pool(running: bool, cancelled: bool, wg: int, aggregator: Life,
                       start: StartPc, stop: StopPc, workers: seq<Worker>, prompt: bool)

  datatype Action =
    | StartCall | Launch | Spawn
    | StarterStep(i: nat) | CollectorExit(i: nat) | SenderExit(i: nat) | AggregatorExit
    | Produce(i: nat) | ProducerExit(i: nat) | First(i: nat)
    | StopCall | Cancel | StopStep

  /** A pool that has just been initialized. */
  predicate IsFresh(s: Pool) {
    && s == Pool(false, false, 0, Unborn, StartIdle, StopIdle, s.workers, false)
    && forall i | 0 <= i < |s.workers| ::
         s.workers[i] == Worker(false, 0, 0, Unspawned, Unborn, Unborn, s.workers[i].loop, NoFeed)
  }

  /** Every worker has registered its collector and its send loop. */
  predicate AllUp(s: Pool) {
    forall i | 0 <= i < |s.workers| :: Progress(s.workers[i].starter) >= 4
  }

  predicate AwaitsFirst(w: Worker) {
    w.feed == Dry || w.feed == Filled || w.feed == Starved
  }

  predicate AllStarted(s: Pool) {
    forall i | 0 <= i < |s.workers| :: s.workers[i].starter == Finished
  }

  predicate Enabled(s: Pool, a: Action) {
    match a
    case StartCall => s.start == StartIdle && !s.running
    case Launch => s.start == Launching
    case Spawn => s.start.Spawning? && s.start.next < |s.workers|
    case StarterStep(i) => i < |s.workers| && IsStarting(s.workers[i])
    case CollectorExit(i) =>
      i < |s.workers| && s.workers[i].collector == Alive && (s.cancelled || s.workers[i].closes > 0)
    case SenderExit(i) =>
      i < |s.workers| && s.workers[i].sender == Alive
      && !AwaitsFirst(s.workers[i])
      && (s.cancelled || (s.workers[i].loop != ContextOnly && s.workers[i].closes > 0))
    case Produce(i) => i < |s.workers| && s.workers[i].feed == Dry && !s.cancelled
    case ProducerExit(i) => i < |s.workers| && s.workers[i].feed == Dry && s.cancelled
    case First(i) => i < |s.workers| && s.workers[i].feed == Filled
    case AggregatorExit => s.aggregator == Alive && s.cancelled
    case StopCall => s.stop == StopIdle && s.running && s.start == Spawning(|s.workers|)
    case Cancel => s.stop == Cancelling
    case StopStep =>
      match s.stop
      case AtWorker(i) => i < |s.workers| || (i == |s.workers| && s.wg == 0)
      case Closing(i) => i < |s.workers|
      case WaitingWorker(i) => i < |s.workers| && s.workers[i].wg == 0
      case _ => false
  }

  /** One step of UDPWorker.Start. */
  function StarterNext(w: Worker): Worker {
    match w.starter
    case Spawned => if w.running then w.(starter := Finished) else w.(running := true, starter := Claimed)
    case Claimed => w.(wg := w.wg + 1, collector := Alive, starter := CollectorUp)
    case CollectorUp =>
      w.(wg := w.wg + 1, sender := Alive, starter := SenderUp, feed := if w.loop == Realtime then Dry else NoFeed)
    case _ => w.(starter := Finished)
  }

  /** One step of Stop after the cancellation: flip, close, wait, worker by
      worker, then wait for the pool. */
  function StopNext(s: Pool): Pool
    requires Enabled(s, StopStep)
  {
    match s.stop
    case AtWorker(i) =>
      if i == |s.workers| then s.(stop := StopDone)
      else if s.workers[i].running then
        s.(workers := s.workers[i := s.workers[i].(running := false)], stop := Closing(i))
      else s.(stop := AtWorker(i + 1))
    case Closing(i) =>
      s.(workers := s.workers[i := s.workers[i].(closes := s.workers[i].closes + 1)], stop := WaitingWorker(i))
    case WaitingWorker(i) => s.(stop := AtWorker(i + 1))
  }

  function Apply(s: Pool, a: Action): Pool
    requires Enabled(s, a)
  {
    match a
    case StartCall => s.(running := true, start := Launching)
    case Launch => s.(wg := s.wg + 1, aggregator := Alive, start := Spawning(0))
    case Spawn =>
      var i := s.start.next;
      s.(wg := s.wg + 1, workers := s.workers[i := s.workers[i].(starter := Spawned)], start := Spawning(i + 1))
    case StarterStep(i) =>
      var w := StarterNext(s.workers[i]);
      s.(workers := s.workers[i := w], wg := if w.starter == Finished then s.wg - 1 else s.wg)
    case CollectorExit(i) =>
      var w := s.workers[i];
      s.(workers := s.workers[i := w.(collector := Exited, wg := w.wg - 1)])
    case SenderExit(i) =>
      var w := s.workers[i];
      s.(workers := s.workers[i := w.(sender := Exited, wg := w.wg - 1)])
    case AggregatorExit => s.(aggregator := Exited, wg := s.wg - 1)
    case Produce(i) => s.(workers := s.workers[i := s.workers[i].(feed := Filled)])
    case ProducerExit(i) => s.(workers := s.workers[i := s.workers[i].(feed := Starved)])
    case First(i) => s.(workers := s.workers[i := s.workers[i].(feed := Fed)])
    case StopCall => s.(running := false, stop := Cancelling, prompt := AllUp(s))
    case Cancel => s.(cancelled := true, stop := AtWorker(0))
    case StopStep => StopNext(s)
  }

  // ---- what every interleaving keeps ----

  function B(life: Life): int { if life == Alive then 1 else 0 }

  predicate IsStarting(w: Worker) { 0 < Progress(w.starter) < 5 }

  function Progress(pc: StarterPc): nat {
    match pc
    case Unspawned => 0
    case Spawned => 1
    case Claimed => 2
    case CollectorUp => 3
    case SenderUp => 4
    case Finished => 5
  }

  function Starting(ws: seq<Worker>): nat {
    if ws == [] then 0 else Starting(ws[..|ws| - 1]) + if IsStarting(ws[|ws| - 1]) then 1 else 0
  }

  /** A worker's wait group counts its live goroutines, and its other fields
      agree with how far its starter has come. */
  predicate WorkerInv(w: Worker) {
    && w.wg == B(w.collector) + B(w.sender)
    && (w.collector == Unborn <==> Progress(w.starter) <= 2)
    && (w.sender == Unborn <==> Progress(w.starter) <= 3)
    && (Progress(w.starter) <= 1 ==> !w.running && w.closes == 0)
    && w.closes <= 1
    && (w.running ==> w.closes == 0)
    && FeedInv(w)
  }

  /** Only a realtime loop that is up has a feed, and it exits only once it is fed. */
  predicate FeedInv(w: Worker) {
    && (w.feed == NoFeed <==> w.loop != Realtime || w.sender == Unborn)
    && (w.sender == Exited ==> !AwaitsFirst(w))
  }

  /** How far the caller of Stop has come with worker `j`: 0 not there yet, 1 about
      to close its channel, 2 waiting for it, 3 past it. */
  function Visit(stop: StopPc, j: nat): nat {
    match stop
    case StopIdle => 0
    case Cancelling => 0
    case AtWorker(i) => if j < i then 3 else 0
    case Closing(i) => if j < i then 3 else if j == i then 1 else 0
    case WaitingWorker(i) => if j < i then 3 else if j == i then 2 else 0
    case StopDone => 3
  }

  /** What holds of a worker while Stop is at `visit` with it. A worker that was
      up when Stop was called is running until Stop flips it, its channel is closed
      once, and nothing of it is alive when Stop has moved on. */
  predicate VisitInv(w: Worker, visit: nat, prompt: bool) {
    && (visit <= 1 ==> w.closes == 0)
    && (visit == 0 && Progress(w.starter) >= 2 ==> w.running)
    && (visit == 1 ==> !w.running && Progress(w.starter) >= 2)
    && (visit == 2 ==> w.closes == 1)
    && (prompt ==> Progress(w.starter) >= 4 && (visit == 3 ==> w.closes == 1 && w.wg == 0))
  }

  predicate SpawnInv(w: Worker, start: StartPc, j: nat) {
    w.starter == Unspawned <==> !(start.Spawning? && j < start.next)
  }

  predicate WorkersInv(s: Pool) {
    forall j | 0 <= j < |s.workers| :: AtInv(s, j)
  }

  predicate AtInv(s: Pool, j: nat)
    requires j < |s.workers|
  {
    && WorkerInv(s.workers[j])
    && VisitInv(s.workers[j], Visit(s.stop, j), s.prompt)
    && SpawnInv(s.workers[j], s.start, j)
    && (s.workers[j].feed == Starved ==> s.cancelled)
  }

  predicate StopInRange(s: Pool) {
    && (s.stop.AtWorker? ==> s.stop.i <= |s.workers|)
    && (s.stop.Closing? || s.stop.WaitingWorker? ==> s.stop.i < |s.workers|)
  }

  predicate CallersInv(s: Pool) {
    && (s.aggregator == Unborn <==> !s.start.Spawning?)
    && (s.start.Spawning? ==> s.start.next <= |s.workers|)
    && (s.running <==> s.start != StartIdle && s.stop == StopIdle)
    && (s.stop != StopIdle ==> s.start == Spawning(|s.workers|))
    && (s.stop == StopIdle ==> !s.prompt)
    && (s.cancelled <==> s.stop != StopIdle && s.stop != Cancelling)
    && StopInRange(s)
    && (s.stop == StopDone ==> s.wg == 0)
  }

  /** The pool's wait group counts the aggregator and the starters that are alive. */
  predicate CountInv(s: Pool) {
    s.wg == B(s.aggregator) + Starting(s.workers)
  }

  predicate Inv(s: Pool) {
    WorkersInv(s) && CallersInv(s) && CountInv(s)
  }

  lemma {:induction false} StartingUpdate(ws: seq<Worker>, i: nat, w: Worker)
    requires i < |ws|
    ensures Starting(ws[i := w]) == Starting(ws) - (if IsStarting(ws[i]) then 1 else 0) + if IsStarting(w) then 1 else 0
  {
    var n := |ws| - 1;
    if i < n {
      StartingUpdate(ws[..n], i, w);
      assert ws[i := w][..n] == ws[..n][i := w];
    } else {
      assert ws[i := w][..n] == ws[..n];
    }
  }

  lemma {:induction false} NoneStarting(ws: seq<Worker>)
    ensures Starting(ws) == 0 <==> forall i | 0 <= i < |ws| :: !IsStarting(ws[i])
  {
    if ws != [] {
      var n := |ws| - 1;
      NoneStarting(ws[..n]);
      assert forall i | 0 <= i < n :: ws[..n][i] == ws[i];
    }
  }

  lemma FreshInv(s: Pool)
    requires IsFresh(s)
    ensures Inv(s)
  {
    NoneStarting(s.workers);
  }

  /** A worker no one touched, seen from the same place. */
  lemma Untouched(s: Pool, t: Pool, j: nat)
    requires j < |s.workers| == |t.workers| && AtInv(s, j) && t.workers[j] == s.workers[j]
    requires Visit(t.stop, j) == Visit(s.stop, j) && t.prompt == s.prompt
    requires s.start == t.start || (s.start != t.start && SpawnInv(t.workers[j], t.start, j))
    requires s.cancelled ==> t.cancelled
    ensures AtInv(t, j)
  {
  }

  lemma StarterStepLocal(w: Worker, visit: nat, prompt: bool)
    requires WorkerInv(w) && VisitInv(w, visit, prompt) && IsStarting(w)
    ensures var x := StarterNext(w);
            WorkerInv(x) && VisitInv(x, visit, prompt) && Progress(x.starter) == Progress(w.starter) + 1
  {
  }

  lemma ExitLocal(w: Worker, visit: nat, prompt: bool)
    requires WorkerInv(w) && VisitInv(w, visit, prompt)
    ensures w.collector == Alive ==>
              var x := w.(collector := Exited, wg := w.wg - 1); WorkerInv(x) && VisitInv(x, visit, prompt)
    ensures w.sender == Alive && !AwaitsFirst(w) ==>
              var x := w.(sender := Exited, wg := w.wg - 1); WorkerInv(x) && VisitInv(x, visit, prompt)
  {
  }

  lemma FeedLocal(w: Worker, visit: nat, prompt: bool, feed: Feed)
    requires WorkerInv(w) && VisitInv(w, visit, prompt) && AwaitsFirst(w) && feed != NoFeed
    ensures WorkerInv(w.(feed := feed)) && VisitInv(w.(feed := feed), visit, prompt)
  {
  }

  /** A step of one goroutine of worker i. */
  predicate IsWorkerStep(a: Action) {
    a.StarterStep? || a.CollectorExit? || a.SenderExit? || IsFeedStep(a)
  }

  predicate IsFeedStep(a: Action) {
    a.Produce? || a.ProducerExit? || a.First?
  }

  /** Such a step changes one worker and perhaps the pool's wait group. */
  lemma WorkerStepIsLocal(s: Pool, a: Action)
    requires Enabled(s, a) && IsWorkerStep(a)
    ensures var t := Apply(s, a);
            a.i < |s.workers| && t == s.(workers := s.workers[a.i := t.workers[a.i]], wg := t.wg)
  {
  }

  lemma WorkerStepKeepsInv(s: Pool, a: Action)
    requires Inv(s) && Enabled(s, a) && IsWorkerStep(a)
    ensures Inv(Apply(s, a))
  {
    WorkerStepIsLocal(s, a);
    WorkerStepKeepsCallers(s, a);
    var t := Apply(s, a);
    forall j | 0 <= j < |t.workers| ensures AtInv(t, j) {
      assert AtInv(s, j);
      hide Inv, Apply, Enabled, WorkerInv, VisitInv;
      if j != a.i {
        Untouched(s, t, j);
      } else {
        WorkerStepKeepsWorker(s, a);
      }
    }
  }

  lemma WorkerStepKeepsCallers(s: Pool, a: Action)
    requires CallersInv(s) && CountInv(s) && Enabled(s, a) && IsWorkerStep(a)
    ensures CallersInv(Apply(s, a)) && CountInv(Apply(s, a))
  {
    hide Starting, Apply, Enabled, IsStarting;
    WorkerStepIsLocal(s, a);
    WorkerStepCounts(s, a);
    StartingUpdate(s.workers, a.i, Apply(s, a).workers[a.i]);
    NoneStarting(s.workers);
  }

  /** The wait group loses a starter when it has finished. */
  lemma WorkerStepCounts(s: Pool, a: Action)
    requires Enabled(s, a) && IsWorkerStep(a)
    ensures var t := Apply(s, a);
            && a.i < |s.workers| == |t.workers|
            && t.wg - s.wg == (if IsStarting(t.workers[a.i]) then 1 else 0) - (if IsStarting(s.workers[a.i]) then 1 else 0)
            && (!IsStarting(s.workers[a.i]) ==> t.wg == s.wg)
  {
  }

  lemma WorkerStepKeepsWorker(s: Pool, a: Action)
    requires Enabled(s, a) && IsWorkerStep(a) && AtInv(s, a.i)
    ensures AtInv(Apply(s, a), a.i)
  {
    hide WorkerInv, VisitInv;
    var t, i := Apply(s, a), a.i;
    if a.StarterStep? {
      StarterStepLocal(s.workers[i], Visit(s.stop, i), s.prompt);
    } else if IsFeedStep(a) {
      FeedLocal(s.workers[i], Visit(s.stop, i), s.prompt, t.workers[i].feed);
    } else {
      ExitLocal(s.workers[i], Visit(s.stop, i), s.prompt);
    }
  }

  lemma StartKeepsInv(s: Pool, a: Action)
    requires Inv(s) && Enabled(s, a) && (a.StartCall? || a.Launch? || a.Spawn?)
    ensures Inv(Apply(s, a))
  {
    hide Starting;
    var t := Apply(s, a);
    assert CountInv(t) by {
      if a.Spawn? {
        assert AtInv(s, s.start.next);
        StartingUpdate(s.workers, s.start.next, t.workers[s.start.next]);
      }
    }
    forall j | 0 <= j < |t.workers| ensures AtInv(t, j) {
      assert AtInv(s, j);
      hide WorkersInv, CountInv;
    }
  }

  lemma CallKeepsInv(s: Pool, a: Action)
    requires Inv(s) && Enabled(s, a) && (a.StopCall? || a.Cancel? || a.AggregatorExit?)
    ensures Inv(Apply(s, a))
  {
    hide Starting;
    var t := Apply(s, a);
    assert CountInv(t) && CallersInv(t) by { hide WorkersInv, AllUp; }
    forall j | 0 <= j < |t.workers| ensures AtInv(t, j) {
      assert AtInv(s, j);
      hide WorkersInv, CountInv, WorkerInv;
      assert t.workers[j] == s.workers[j] && Visit(t.stop, j) == Visit(s.stop, j) && t.start == s.start;
      if t.prompt && a.StopCall? {
        assert Progress(t.workers[j].starter) >= 4;
      }
    }
  }

  lemma StopStepKeepsInv(s: Pool)
    requires Inv(s) && Enabled(s, StopStep)
    ensures Inv(Apply(s, StopStep))
  {
    hide Starting;
    var t := Apply(s, StopStep);
    StopStepKeepsCount(s);
    assert CallersInv(t);
    hide CallersInv, CountInv, AtInv;
    forall j | 0 <= j < |t.workers| ensures AtInv(t, j) {
      assert AtInv(s, j);
      if s.stop.AtWorker? { FlipKeepsWorker(s, j); }
      else if s.stop.Closing? { CloseKeepsWorker(s, j); }
      else { JoinKeepsWorker(s, j); }
    }
  }

  lemma StopStepKeepsCount(s: Pool)
    requires Inv(s) && Enabled(s, StopStep)
    ensures CountInv(Apply(s, StopStep))
  {
    hide Starting, WorkersInv;
    var t := Apply(s, StopStep);
    if (s.stop.AtWorker? || s.stop.Closing?) && s.stop.i < |s.workers| {
      StartingUpdate(s.workers, s.stop.i, t.workers[s.stop.i]);
    }
  }

  lemma FlipKeepsWorker(s: Pool, j: nat)
    requires s.stop.AtWorker? && Enabled(s, StopStep) && j < |s.workers| && AtInv(s, j)
    ensures j < |StopNext(s).workers| && AtInv(StopNext(s), j)
  {
    hide WorkerInv, VisitInv, IsStarting;
    var t, i := StopNext(s), s.stop.i;
    if j == i {
      VisitAdvances(s.workers[j], t.workers[j], Visit(s.stop, j), Visit(t.stop, j), s.prompt);
    } else {
      assert Visit(t.stop, j) == Visit(s.stop, j) && t.workers[j] == s.workers[j];
      Untouched(s, t, j);
    }
  }

  lemma CloseKeepsWorker(s: Pool, j: nat)
    requires s.stop.Closing? && Enabled(s, StopStep) && j < |s.workers| && AtInv(s, j)
    ensures j < |StopNext(s).workers| && AtInv(StopNext(s), j)
  {
    hide WorkerInv, VisitInv, IsStarting;
    var t := StopNext(s);
    VisitAdvances(s.workers[j], t.workers[j], Visit(s.stop, j), Visit(t.stop, j), s.prompt);
  }

  lemma JoinKeepsWorker(s: Pool, j: nat)
    requires s.stop.WaitingWorker? && Enabled(s, StopStep) && j < |s.workers| && AtInv(s, j)
    ensures j < |StopNext(s).workers| && AtInv(StopNext(s), j)
  {
    hide WorkerInv, VisitInv, IsStarting;
    var t := StopNext(s);
    VisitAdvances(s.workers[j], t.workers[j], Visit(s.stop, j), Visit(t.stop, j), s.prompt);
  }

  /** What one step of Stop may do to a worker and to its visit. */
  lemma VisitAdvances(w: Worker, x: Worker, visit: nat, next: nat, prompt: bool)
    requires WorkerInv(w) && VisitInv(w, visit, prompt)
    requires || (x == w && (visit == next || (visit == 0 && next == 3 && !w.running) || (visit == 2 && next == 3 && w.wg == 0)))
             || (x == w.(running := false) && visit == 0 && next == 1 && w.running)
             || (x == w.(closes := w.closes + 1) && visit == 1 && next == 2)
    ensures WorkerInv(x) && VisitInv(x, next, prompt)
  {
  }

  lemma StepKeepsInv(s: Pool, a: Action)
    requires Inv(s) && Enabled(s, a)
    ensures Inv(Apply(s, a))
  {
    hide Inv, Apply;
    if IsWorkerStep(a) {
      WorkerStepKeepsInv(s, a);
    } else if a.StartCall? || a.Launch? || a.Spawn? {
      StartKeepsInv(s, a);
    } else if a.StopStep? {
      StopStepKeepsInv(s);
    } else {
      CallKeepsInv(s, a);
    }
  }

  // ---- every schedule ends ----

  /** What is left to do in one worker. */
  function WorkerRank(w: Worker): nat {
    (if w.starter == Unspawned then 4 else 5 - Progress(w.starter))
    + (if w.collector == Exited then 0 else 1) + (if w.sender == Exited then 0 else 1) + FeedRank(w)
  }

  function FeedRank(w: Worker): nat {
    match w.feed
    case NoFeed => if w.loop == Realtime then 2 else 0
    case Dry => 2
    case Filled => 1
    case _ => 0
  }

  /** The number of workers that run the realtime loop. */
  function Realtimes(ws: seq<Worker>): nat {
    if ws == [] then 0 else Realtimes(ws[..|ws| - 1]) + if ws[|ws| - 1].loop == Realtime then 1 else 0
  }

  function Ranks(ws: seq<Worker>): nat {
    if ws == [] then 0 else Ranks(ws[..|ws| - 1]) + WorkerRank(ws[|ws| - 1])
  }

  function StartRank(s: Pool): int {
    match s.start
    case StartIdle => |s.workers| + 2
    case Launching => |s.workers| + 1
    case Spawning(next) => |s.workers| - next
  }

  function StopRank(s: Pool): int {
    match s.stop
    case StopIdle => 3 * |s.workers| + 3
    case Cancelling => 3 * |s.workers| + 2
    case AtWorker(i) => 3 * (|s.workers| - i) + 1
    case Closing(i) => 3 * (|s.workers| - i)
    case WaitingWorker(i) => 3 * (|s.workers| - i) - 1
    case StopDone => 0
  }

  /** The steps that can still be taken, at most. */
  function Measure(s: Pool): int {
    StartRank(s) + StopRank(s) + (if s.aggregator == Exited then 0 else 1) + Ranks(s.workers)
  }

  lemma {:induction false} RanksUpdate(ws: seq<Worker>, i: nat, w: Worker)
    requires i < |ws|
    ensures Ranks(ws[i := w]) == Ranks(ws) - WorkerRank(ws[i]) + WorkerRank(w)
  {
    var n := |ws| - 1;
    if i < n {
      RanksUpdate(ws[..n], i, w);
      assert ws[i := w][..n] == ws[..n][i := w];
    } else {
      assert ws[i := w][..n] == ws[..n];
    }
  }

  /** Every step uses up some of the measure. */
  lemma StepDecreases(s: Pool, a: Action)
    requires Inv(s) && Enabled(s, a)
    ensures Measure(Apply(s, a)) < Measure(s)
  {
    if IsWorkerStep(a) {
      WorkerStepDecreases(s, a);
    } else if a.Spawn? {
      SpawnDecreases(s);
    } else {
      hide WorkersInv, CountInv;
      CallerStepDecreases(s, a);
    }
  }

  lemma SpawnDecreases(s: Pool)
    requires Inv(s) && Enabled(s, Spawn)
    ensures Measure(Apply(s, Spawn)) < Measure(s)
  {
    hide Ranks;
    var t := Apply(s, Spawn);
    assert AtInv(s, s.start.next);
    hide Inv, WorkerInv, VisitInv;
    RanksUpdate(s.workers, s.start.next, t.workers[s.start.next]);
  }

  lemma CallerStepDecreases(s: Pool, a: Action)
    requires CallersInv(s) && Enabled(s, a) && !IsWorkerStep(a) && !a.Spawn?
    ensures Measure(Apply(s, a)) < Measure(s)
  {
    hide Ranks;
    var t := Apply(s, a);
    if a.StopStep? && (s.stop.AtWorker? || s.stop.Closing?) && s.stop.i < |s.workers| {
      RanksUpdate(s.workers, s.stop.i, t.workers[s.stop.i]);
    }
  }

  lemma WorkerStepDecreases(s: Pool, a: Action)
    requires Inv(s) && Enabled(s, a) && IsWorkerStep(a)
    ensures Measure(Apply(s, a)) < Measure(s)
  {
    var t := Apply(s, a);
    WorkerStepIsLocal(s, a);
    assert AtInv(s, a.i);
    WorkerStepDropsRank(s, a);
    hide Inv, Ranks, Apply, Enabled, WorkerRank, AtInv;
    RanksUpdate(s.workers, a.i, t.workers[a.i]);
  }

  lemma WorkerStepDropsRank(s: Pool, a: Action)
    requires Enabled(s, a) && IsWorkerStep(a) && AtInv(s, a.i)
    ensures WorkerRank(Apply(s, a).workers[a.i]) < WorkerRank(s.workers[a.i])
  {
    RankDrops(s.workers[a.i]);
    hide WorkerInv, VisitInv, SpawnInv, WorkerRank, StarterNext;
  }

  lemma RankDrops(w: Worker)
    requires WorkerInv(w)
    ensures IsStarting(w) ==> WorkerRank(StarterNext(w)) < WorkerRank(w)
    ensures w.collector == Alive ==> WorkerRank(w.(collector := Exited, wg := w.wg - 1)) < WorkerRank(w)
    ensures w.sender == Alive ==> WorkerRank(w.(sender := Exited, wg := w.wg - 1)) < WorkerRank(w)
    ensures w.feed == Dry ==> WorkerRank(w.(feed := Filled)) < WorkerRank(w) && WorkerRank(w.(feed := Starved)) < WorkerRank(w)
    ensures w.feed == Filled ==> WorkerRank(w.(feed := Fed)) < WorkerRank(w)
  {
  }

  lemma MeasureNotNegative(s: Pool)
    requires Inv(s)
    ensures Measure(s) >= 0
  {
  }

  /** Everything the wait groups count has returned: both callers, every starter,
      every collector and send loop, the aggregator. */
  predicate Joined(s: Pool) {
    && s.stop == StopDone && s.aggregator == Exited && AllStarted(s)
    && forall i | 0 <= i < |s.workers| :: s.workers[i].collector == Exited && s.workers[i].sender == Exited
  }

  /** A realtime loop that waits for a batch no one will make: its producer was
      cancelled before it had any. Nothing ends that wait. */
  predicate Hung(s: Pool, i: nat)
    requires i < |s.workers|
  {
    s.workers[i].feed == Starved
  }

  predicate NoneHung(s: Pool) {
    forall i | 0 <= i < |s.workers| :: !Hung(s, i)
  }

  /** Until everything has been joined some step can be taken, unless a realtime loop
      is hung. Cancelling comes before the waits. */
  lemma NeverStuck(s: Pool) returns (a: Action)
    requires Inv(s) && !Joined(s) && NoneHung(s)
    ensures Enabled(s, a)
  {
    NoneStarting(s.workers);
    if i: nat :| i < |s.workers| && IsStarting(s.workers[i]) {
      return StarterStep(i);
    } else if s.start == StartIdle {
      return StartCall;
    } else if s.start == Launching {
      return Launch;
    } else if s.start.next < |s.workers| {
      return Spawn;
    } else if s.stop == StopIdle {
      return StopCall;
    } else if s.stop == Cancelling {
      return Cancel;
    } else if s.aggregator == Alive {
      return AggregatorExit;
    } else if i: nat :| i < |s.workers| && LivingStep(s, i) {
      a := AnyLivingStep(s, i);
    } else {
      a := StopStep;
      forall i | 0 <= i < |s.workers|
        ensures s.workers[i].wg == 0 && s.workers[i].starter == Finished
                && s.workers[i].collector == Exited && s.workers[i].sender == Exited
      {
        assert AtInv(s, i) && !LivingStep(s, i) && !Hung(s, i);
      }
    }
  }

  /** A goroutine of worker i that can take a step once the pool is cancelled. */
  predicate LivingStep(s: Pool, i: nat)
    requires i < |s.workers|
  {
    s.workers[i].collector == Alive || (s.workers[i].sender == Alive && s.workers[i].feed != Starved)
  }

  lemma AnyLivingStep(s: Pool, i: nat) returns (a: Action)
    requires i < |s.workers| && s.cancelled && LivingStep(s, i)
    ensures Enabled(s, a)
  {
    var w := s.workers[i];
    return if w.collector == Alive then CollectorExit(i)
           else if w.feed == Dry then ProducerExit(i)
           else if w.feed == Filled then First(i)
           else SenderExit(i);
  }

  predicate IsRun(s: Pool, run: seq<Action>)
    decreases |run|
  {
    run == [] || (Enabled(s, run[0]) && IsRun(Apply(s, run[0]), run[1..]))
  }

  function After(s: Pool, run: seq<Action>): Pool
    requires IsRun(s, run)
    decreases |run|
  {
    if run == [] then s else After(Apply(s, run[0]), run[1..])
  }

  lemma {:induction false} RunKeepsInv(s: Pool, run: seq<Action>)
    requires Inv(s) && IsRun(s, run)
    ensures Inv(After(s, run)) && 0 <= Measure(After(s, run)) <= Measure(s) - |run|
    decreases |run|
  {
    if run == [] {
      MeasureNotNegative(s);
    } else {
      StepKeepsInv(s, run[0]);
      StepDecreases(s, run[0]);
      RunKeepsInv(Apply(s, run[0]), run[1..]);
    }
  }

  lemma {:induction false} FreshMeasure(ws: seq<Worker>)
    requires forall i | 0 <= i < |ws| ::
               ws[i].starter == Unspawned && ws[i].collector == Unborn && ws[i].sender == Unborn && ws[i].feed == NoFeed
    ensures Ranks(ws) == 6 * |ws| + 2 * Realtimes(ws)
  {
    if ws != [] { FreshMeasure(ws[..|ws| - 1]); }
  }

  /** Main result: over every schedule of a fresh pool of n workers, r of them with
      realtime loops: the wait groups count exactly the live goroutines, no stop
      channel is closed twice, and the schedule takes at most 10 n + 2 r + 6 steps.
      A schedule that cannot be continued has stopped and joined everything if and
      only if no realtime loop is hung, so always when there is none. */
  lemma EverySchedule(s: Pool, run: seq<Action>)
    requires IsFresh(s) && IsRun(s, run)
    ensures var t := After(s, run);
            && |t.workers| == |s.workers|
            && t.wg == B(t.aggregator) + Starting(t.workers)
            && (forall i | 0 <= i < |t.workers| ::
                  t.workers[i].wg == B(t.workers[i].collector) + B(t.workers[i].sender) && t.workers[i].closes <= 1)
            && |run| <= 10 * |s.workers| + 2 * Realtimes(s.workers) + 6
            && (Joined(t) ==> forall a :: !Enabled(t, a))
            && ((forall a :: !Enabled(t, a)) ==> (Joined(t) <==> NoneHung(t)))
            && ((forall i | 0 <= i < |s.workers| :: s.workers[i].loop != Realtime) ==> NoneHung(t))
  {
    FreshInv(s);
    RunKeepsInv(s, run);
    FreshMeasure(s.workers);
    var t := After(s, run);
    RunKeepsWorkers(s, run);
    forall i | 0 <= i < |t.workers|
      ensures t.workers[i].wg == B(t.workers[i].collector) + B(t.workers[i].sender) && t.workers[i].closes <= 1
      ensures Hung(t, i) ==> t.workers[i].loop == Realtime && t.workers[i].sender == Alive
    {
      assert AtInv(t, i);
    }
    if !Joined(t) && NoneHung(t) {
      var a := NeverStuck(t);
    }
    if Joined(t) {
      forall a ensures !Enabled(t, a) { JoinedIsOver(t, a); }
    }
  }

  lemma JoinedIsOver(s: Pool, a: Action)
    requires Inv(s) && Joined(s)
    ensures !Enabled(s, a)
  {
    if IsFeedStep(a) && a.i < |s.workers| {
      assert AtInv(s, a.i);
    }
  }

  lemma {:induction false} RunKeepsWorkers(s: Pool, run: seq<Action>)
    requires IsRun(s, run)
    ensures |After(s, run).workers| == |s.workers|
    ensures forall i | 0 <= i < |s.workers| :: After(s, run).workers[i].loop == s.workers[i].loop
    decreases |run|
  {
    if run != [] {
      StepKeepsLoops(s, run[0]);
      RunKeepsWorkers(Apply(s, run[0]), run[1..]);
    }
  }

  lemma StepKeepsLoops(s: Pool, a: Action)
    requires Enabled(s, a)
    ensures var t := Apply(s, a);
            |t.workers| == |s.workers| && forall i | 0 <= i < |s.workers| :: t.workers[i].loop == s.workers[i].loop
  {
    if IsWorkerStep(a) {
      WorkerStepIsLocal(s, a);
    }
  }

  /** Nothing has exited: no collector, no send loop, not the aggregator. */
  predicate AllStay(s: Pool) {
    s.aggregator != Exited && forall i | 0 <= i < |s.workers| :: s.workers[i].collector != Exited && s.workers[i].sender != Exited
  }

  lemma StayStep(s: Pool, a: Action)
    requires Inv(s) && Enabled(s, a) && AllStay(s) && !Apply(s, a).cancelled
    ensures !s.cancelled && AllStay(Apply(s, a))
  {
    if IsWorkerStep(a) {
      WorkerStepIsLocal(s, a);
      assert AtInv(s, a.i);
    }
  }

  /** No goroutine of the pool ends before Stop has cancelled the context. */
  lemma {:induction false} NothingEndsEarly(s: Pool, run: seq<Action>)
    requires Inv(s) && AllStay(s) && IsRun(s, run) && !After(s, run).cancelled
    ensures AllStay(After(s, run))
    decreases |run|
  {
    hide Inv, AllStay, Enabled, Apply;
    if run != [] {
      StepKeepsInv(s, run[0]);
      CancelLasts(Apply(s, run[0]), run[1..]);
      StayStep(s, run[0]);
      NothingEndsEarly(Apply(s, run[0]), run[1..]);
    }
  }

  lemma {:induction false} CancelLasts(s: Pool, run: seq<Action>)
    requires IsRun(s, run)
    ensures s.cancelled ==> After(s, run).cancelled
    decreases |run|
  {
    if run != [] {
      CancelStep(s, run[0]);
      CancelLasts(Apply(s, run[0]), run[1..]);
    }
  }

  lemma CancelStep(s: Pool, a: Action)
    requires Enabled(s, a)
    ensures s.cancelled ==> Apply(s, a).cancelled
  {
    hide AllUp;
  }

  lemma FreshStay(s: Pool)
    requires IsFresh(s)
    ensures AllStay(s)
  {
  }

  /** The close in Stop never meets a closed channel. */
  lemma NoDoubleClose(s: Pool, run: seq<Action>)
    requires IsFresh(s) && IsRun(s, run)
    ensures var t := After(s, run);
            t.stop.Closing? ==> t.stop.i < |t.workers| && t.workers[t.stop.i].closes == 0
  {
    FreshInv(s);
    RunKeepsInv(s, run);
    var t := After(s, run);
    if t.stop.Closing? {
      assert AtInv(t, t.stop.i);
    }
  }

  /** When Stop returns, the aggregator and all starters have. If every worker had
      registered both its goroutines when Stop was called, everything is joined, no
      worker is marked running and every stop channel is closed. */
  lemma StopReturned(s: Pool, run: seq<Action>)
    requires Inv(s) && IsRun(s, run) && After(s, run).stop == StopDone
    ensures var t := After(s, run);
            && t.aggregator == Exited && AllStarted(t)
            && (t.prompt ==> Joined(t) && forall i | 0 <= i < |t.workers| :: !t.workers[i].running && t.workers[i].closes == 1)
  {
    RunKeepsInv(s, run);
    var t := After(s, run);
    NoneStarting(t.workers);
    hide IsRun, After, Starting, Ranks;
    assert t.aggregator == Exited && Starting(t.workers) == 0;
    forall i | 0 <= i < |t.workers|
      ensures t.workers[i].starter == Finished
      ensures t.prompt ==> t.workers[i].collector == Exited && t.workers[i].sender == Exited
                           && !t.workers[i].running && t.workers[i].closes == 1
    {
      assert AtInv(t, i);
    }
  }
}
