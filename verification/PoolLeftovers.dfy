/** All goroutines of a worker pool, also those no wait group counts: the producer
    of every realtime loop, for as long as it lives, and the timestamp updater of
    every worker's generator, which nothing ever stops. A state joins the machine
    of PoolShutdown with one machine of RealtimeBuffer for every worker. */
module PoolLeftovers {
  import opened Common
  import opened PoolShutdown
  import opened PoolStop
  import R = RealtimeBuffer

  /** `loops[i]` is the realtime loop of worker i; it only matters once worker i has
      registered such a loop. `updaters` counts the live timestamp updaters. */
  datatype Whole = Whole(pool: Pool, loops: seq<R.State>, updaters: nat)

  datatype Step = OfPool(a: Action) | OfLoop(i: nat, b: R.Action)

  /** A pool as it is built: one updater per worker, no loop started. */
  predicate IsBuilt(w: Whole) {
    && IsFresh(w.pool) && |w.loops| == |w.pool.workers| == w.updaters
    && forall i | 0 <= i < |w.loops| :: w.loops[i] == R.Fresh(w.loops[i].logs)
  }

  predicate RunsRealtime(w: Worker) {
    w.loop == Realtime && w.sender != Unborn
  }

  /** What a step of worker i's realtime loop or producer is to the pool. */
  function Shadow(w: Worker, i: nat, b: R.Action): Option<Action> {
    match b
    case Produce(_) => if w.feed == Dry then Some(Produce(i)) else None
    case ProducerExit => if w.feed == Dry then Some(ProducerExit(i)) else None
    case First => Some(First(i))
    case ConsumerExit => Some(SenderExit(i))
    case _ => None
  }

  predicate CanLoop(w: Whole, i: nat, b: R.Action) {
    && i < |w.loops| == |w.pool.workers| && RunsRealtime(w.pool.workers[i])
    && b != R.Cancel && b != R.CloseStop && R.Enabled(w.loops[i], b)
  }

  predicate CanTake(w: Whole, st: Step) {
    match st
    case OfPool(a) =>
      Enabled(w.pool, a) && !IsFeedStep(a) && !(a.SenderExit? && w.pool.workers[a.i].loop == Realtime)
    case OfLoop(i, b) =>
      && CanLoop(w, i, b)
      && var shadow := Shadow(w.pool.workers[i], i, b); shadow.Some? ==> Enabled(w.pool, shadow.value)
  }

  /** The signals of a step of Stop: the context is cancelled, a stop channel closed. */
  function Signalled(w: Whole, a: Action): seq<R.State> {
    if a == Cancel then seq(|w.loops|, i requires 0 <= i < |w.loops| => R.Apply(w.loops[i], R.Cancel))
    else if a == StopStep && w.pool.stop.Closing? && w.pool.stop.i < |w.loops|
    then w.loops[w.pool.stop.i := R.Apply(w.loops[w.pool.stop.i], R.CloseStop)]
    else w.loops
  }

  function Take(w: Whole, st: Step): Whole
    requires CanTake(w, st)
  {
    match st
    case OfPool(a) => w.(pool := Apply(w.pool, a), loops := Signalled(w, a))
    case OfLoop(i, b) =>
      var shadow := Shadow(w.pool.workers[i], i, b);
      w.(pool := if shadow.Some? then Apply(w.pool, shadow.value) else w.pool,
         loops := w.loops[i := R.Apply(w.loops[i], b)])
  }

  // ---- how the machines agree ----

  /** Worker and loop agree on who has exited and on how far the first batch is. */
  predicate Linked(w: Worker, l: R.State, cancelled: bool) {
    && l.cancelled == cancelled && l.stopped == (w.closes > 0)
    && (l.consumer == R.Gone ==> cancelled)
    && if RunsRealtime(w) then
         && (l.consumer == R.AwaitFirst <==> AwaitsFirst(w))
         && (l.consumer == R.Gone <==> w.sender == Exited)
         && (w.feed == Dry ==> l.producer == R.Making && l.channel == [])
         && (w.feed == Starved ==> l.producer == R.Exited && l.channel == [])
         && (w.feed == Filled ==> l.producer.Pushing? || l.channel != [])
       else l.consumer == R.AwaitFirst && l.producer == R.Making && l.channel == []
  }

  predicate WholeInv(w: Whole) {
    && Inv(w.pool) && |w.loops| == |w.pool.workers| == w.updaters
    && forall i | 0 <= i < |w.loops| :: R.Inv(w.loops[i]) && Linked(w.pool.workers[i], w.loops[i], w.pool.cancelled)
  }

  lemma AtLoop(w: Whole, i: nat)
    requires WholeInv(w) && i < |w.loops|
    ensures i < |w.pool.workers| && AtInv(w.pool, i) && Linked(w.pool.workers[i], w.loops[i], w.pool.cancelled)
    ensures R.Shape(w.loops[i])
  {
    hide CountInv, CallersInv, AtInv, Linked, R.Shape, R.Fifo, R.Sizes, R.Counted;
  }

  lemma BuiltInv(w: Whole)
    requires IsBuilt(w)
    ensures WholeInv(w)
  {
    FreshInv(w.pool);
    forall i | 0 <= i < |w.loops| ensures R.Inv(w.loops[i]) {
      R.FreshInv(w.loops[i].logs);
    }
  }

  /** The pool never keeps a loop from a step of its own. */
  lemma LoopsAreFree(w: Whole, i: nat, b: R.Action)
    requires WholeInv(w) && CanLoop(w, i, b)
    ensures CanTake(w, OfLoop(i, b))
  {
    assert AtInv(w.pool, i) && Linked(w.pool.workers[i], w.loops[i], w.pool.cancelled);
    hide Inv, R.Inv, AtInv, Linked, R.Enabled, Enabled;
    ShadowFits(w.pool, w.loops[i], i, b);
  }

  /** A loop's step finds its worker where the pool's step wants it. */
  lemma ShadowFits(s: Pool, l: R.State, i: nat, b: R.Action)
    requires i < |s.workers| && AtInv(s, i) && RunsRealtime(s.workers[i])
    requires Linked(s.workers[i], l, s.cancelled) && R.Enabled(l, b)
    ensures var shadow := Shadow(s.workers[i], i, b); shadow.Some? ==> Enabled(s, shadow.value)
  {
    hide VisitInv, SpawnInv;
  }

  /** Every step is a step of the pool's machine, or none. */
  function Projection(w: Whole, st: Step): Option<Action>
    requires CanTake(w, st)
  {
    match st
    case OfPool(a) => Some(a)
    case OfLoop(i, b) => Shadow(w.pool.workers[i], i, b)
  }

  lemma StepProjects(w: Whole, st: Step)
    requires CanTake(w, st)
    ensures var a := Projection(w, st);
            if a.Some? then Enabled(w.pool, a.value) && Take(w, st).pool == Apply(w.pool, a.value)
            else Take(w, st).pool == w.pool
  {
  }

  lemma StepKeepsWhole(w: Whole, st: Step)
    requires WholeInv(w) && CanTake(w, st)
    ensures WholeInv(Take(w, st))
  {
    hide Inv, R.Inv, Linked, Apply, Enabled, R.Apply;
    StepProjects(w, st);
    if Projection(w, st).Some? {
      StepKeepsInv(w.pool, Projection(w, st).value);
    }
    if st.OfPool? {
      PoolStepKeepsLinks(w, st.a);
    } else {
      LoopStepKeepsLinks(w, st.i, st.b);
    }
  }

  // ---- steps of the pool keep the links ----

  lemma PoolStepKeepsLinks(w: Whole, a: Action)
    requires WholeInv(w) && CanTake(w, OfPool(a))
    ensures var t := Take(w, OfPool(a));
            && |t.loops| == |t.pool.workers|
            && forall i | 0 <= i < |t.loops| :: R.Inv(t.loops[i]) && Linked(t.pool.workers[i], t.loops[i], t.pool.cancelled)
  {
    var t := Take(w, OfPool(a));
    StepKeepsLoops(w.pool, a);
    forall i | 0 <= i < |t.loops|
      ensures R.Inv(t.loops[i]) && Linked(t.pool.workers[i], t.loops[i], t.pool.cancelled)
    {
      assert AtInv(w.pool, i) && Linked(w.pool.workers[i], w.loops[i], w.pool.cancelled);
      hide Inv, R.Inv, Linked, AtInv, Apply, Enabled, Signalled;
      SignalKeepsLoop(w, a, i);
      if IsWorkerStep(a) {
        WorkerStepKeepsLink(w, a, i);
      } else {
        CallerStepKeepsLink(w, a, i);
      }
    }
  }

  lemma SignalKeepsLoop(w: Whole, a: Action, i: nat)
    requires i < |w.loops| && R.Inv(w.loops[i])
    ensures |Signalled(w, a)| == |w.loops| && R.Inv(Signalled(w, a)[i])
  {
    hide R.Inv, R.Apply;
    R.StepKeepsInv(w.loops[i], R.Cancel);
    R.StepKeepsInv(w.loops[i], R.CloseStop);
  }

  lemma WorkerStepKeepsLink(w: Whole, a: Action, i: nat)
    requires i < |w.loops| == |w.pool.workers| && CanTake(w, OfPool(a)) && IsWorkerStep(a)
    requires AtInv(w.pool, i) && Linked(w.pool.workers[i], w.loops[i], w.pool.cancelled)
    ensures var t := Take(w, OfPool(a));
            i < |t.loops| == |t.pool.workers| && Linked(t.pool.workers[i], t.loops[i], t.pool.cancelled)
  {
    hide VisitInv, SpawnInv, WorkerInv, Linked;
    WorkerStepIsLocal(w.pool, a);
    var x := w.pool.workers[i];
    if a.StarterStep? && a.i == i {
      StarterKeepsLink(x, w.loops[i], w.pool.cancelled);
    } else if a.i == i {
      ExitKeepsLink(x, Apply(w.pool, a).workers[i], w.loops[i], w.pool.cancelled);
    }
  }

  lemma StarterKeepsLink(x: Worker, l: R.State, cancelled: bool)
    requires WorkerInv(x) && IsStarting(x) && Linked(x, l, cancelled)
    ensures Linked(StarterNext(x), l, cancelled)
  {
  }

  lemma ExitKeepsLink(x: Worker, y: Worker, l: R.State, cancelled: bool)
    requires Linked(x, l, cancelled)
    requires || y == x.(collector := Exited, wg := x.wg - 1)
             || (y == x.(sender := Exited, wg := x.wg - 1) && x.loop != Realtime)
    ensures Linked(y, l, cancelled)
  {
  }

  lemma CallerStepKeepsLink(w: Whole, a: Action, i: nat)
    requires i < |w.loops| == |w.pool.workers| && CanTake(w, OfPool(a)) && !IsWorkerStep(a)
    requires Linked(w.pool.workers[i], w.loops[i], w.pool.cancelled)
    ensures var t := Take(w, OfPool(a));
            i < |t.loops| == |t.pool.workers| && Linked(t.pool.workers[i], t.loops[i], t.pool.cancelled)
  {
    var t := Take(w, OfPool(a));
    SignalsReach(w, a, i);
    SignalKeepsLink(w.pool.workers[i], t.pool.workers[i], w.loops[i], t.loops[i], w.pool.cancelled, t.pool.cancelled);
  }

  /** A caller's step leaves a worker's goroutines alone, and tells its loop what it
      did to the worker's stop channel and to the context. */
  lemma SignalsReach(w: Whole, a: Action, i: nat)
    requires i < |w.loops| == |w.pool.workers| && CanTake(w, OfPool(a)) && !IsWorkerStep(a)
    requires w.loops[i].cancelled == w.pool.cancelled && w.loops[i].stopped == (w.pool.workers[i].closes > 0)
    ensures var t := Take(w, OfPool(a));
            && i < |t.loops| == |t.pool.workers|
            && var x, y := w.pool.workers[i], t.pool.workers[i];
               && y.sender == x.sender && y.loop == x.loop && y.feed == x.feed && (w.pool.cancelled ==> t.pool.cancelled)
               && t.loops[i] == w.loops[i].(cancelled := t.pool.cancelled, stopped := y.closes > 0)
  {
    CallerStepIsLocal(w.pool, a, i);
    hide Apply, Enabled;
  }

  lemma CallerStepIsLocal(s: Pool, a: Action, i: nat)
    requires Enabled(s, a) && !IsWorkerStep(a) && i < |s.workers|
    ensures var t := Apply(s, a);
            && |t.workers| == |s.workers|
            && var x, y := s.workers[i], t.workers[i];
               && y.sender == x.sender && y.loop == x.loop && y.feed == x.feed
               && y.closes == x.closes + (if a == StopStep && s.stop == Closing(i) then 1 else 0)
               && t.cancelled == (s.cancelled || a == Cancel)
  {
    hide AllUp;
  }

  lemma SignalKeepsLink(x: Worker, y: Worker, l: R.State, m: R.State, cancelled: bool, now: bool)
    requires Linked(x, l, cancelled) && (cancelled ==> now)
    requires y.sender == x.sender && y.loop == x.loop && y.feed == x.feed
    requires m == l.(cancelled := now, stopped := y.closes > 0)
    ensures Linked(y, m, now)
  {
  }

  // ---- steps of a loop keep the links ----

  lemma LoopStepKeepsLinks(w: Whole, i: nat, b: R.Action)
    requires WholeInv(w) && CanTake(w, OfLoop(i, b))
    ensures var t := Take(w, OfLoop(i, b));
            && |t.loops| == |t.pool.workers|
            && forall j | 0 <= j < |t.loops| :: R.Inv(t.loops[j]) && Linked(t.pool.workers[j], t.loops[j], t.pool.cancelled)
  {
    var t := Take(w, OfLoop(i, b));
    LoopStepIsLocal(w, i, b);
    assert AtInv(w.pool, i) && Linked(w.pool.workers[i], w.loops[i], w.pool.cancelled);
    ClosedIsCancelled(w.pool, i);
    LoopStepKeepsLink(w.pool.workers[i], w.loops[i], w.pool.cancelled, b);
    forall j | 0 <= j < |t.loops|
      ensures R.Inv(t.loops[j]) && Linked(t.pool.workers[j], t.loops[j], t.pool.cancelled)
    {
      hide Linked, R.Inv, R.Apply, Apply, Inv;
      if j == i {
        R.StepKeepsInv(w.loops[i], b);
      }
    }
  }

  /** What the shadow of a loop's step does to its worker. */
  function Shadowed(x: Worker, b: R.Action): Worker {
    match b
    case Produce(_) => if x.feed == Dry then x.(feed := Filled) else x
    case ProducerExit => if x.feed == Dry then x.(feed := Starved) else x
    case First => x.(feed := Fed)
    case ConsumerExit => x.(sender := Exited, wg := x.wg - 1)
    case _ => x
  }

  /** A loop's step changes its worker, and nothing else of the pool. */
  lemma LoopStepIsLocal(w: Whole, i: nat, b: R.Action)
    requires CanTake(w, OfLoop(i, b))
    ensures i < |w.pool.workers| && i < |w.loops|
    ensures Take(w, OfLoop(i, b)) ==
            w.(pool := w.pool.(workers := w.pool.workers[i := Shadowed(w.pool.workers[i], b)]),
               loops := w.loops[i := R.Apply(w.loops[i], b)])
  {
    hide R.Apply;
    assert w.pool.workers[i := w.pool.workers[i]] == w.pool.workers;
  }

  lemma ClosedIsCancelled(s: Pool, i: nat)
    requires CallersInv(s) && i < |s.workers| && AtInv(s, i)
    ensures s.workers[i].closes > 0 ==> s.cancelled
  {
  }

  lemma LoopStepKeepsLink(x: Worker, l: R.State, cancelled: bool, b: R.Action)
    requires WorkerInv(x) && RunsRealtime(x) && Linked(x, l, cancelled) && R.Enabled(l, b)
    requires (x.closes > 0 ==> cancelled) && b != R.Cancel && b != R.CloseStop
    ensures Linked(Shadowed(x, b), R.Apply(l, b), cancelled)
  {
  }

  // ---- courses: runs of the whole machine ----

  predicate IsCourse(w: Whole, course: seq<Step>)
    decreases |course|
  {
    course == [] || (CanTake(w, course[0]) && IsCourse(Take(w, course[0]), course[1..]))
  }

  function End(w: Whole, course: seq<Step>): Whole
    requires IsCourse(w, course)
    decreases |course|
  {
    if course == [] then w else End(Take(w, course[0]), course[1..])
  }

  lemma Precede(w: Whole, st: Step, course: seq<Step>)
    requires CanTake(w, st) && IsCourse(Take(w, st), course)
    ensures IsCourse(w, [st] + course) && End(w, [st] + course) == End(Take(w, st), course)
  {
    assert ([st] + course)[1..] == course;
  }

  /** Every course is a run of the pool's machine, so all its theorems hold here, and
      the updaters outlive it. */
  lemma {:induction false} CourseProjects(w: Whole, course: seq<Step>) returns (run: seq<Action>)
    requires WholeInv(w) && IsCourse(w, course)
    ensures WholeInv(End(w, course)) && End(w, course).updaters == w.updaters
    ensures IsRun(w.pool, run) && After(w.pool, run) == End(w, course).pool
    decreases |course|
  {
    hide WholeInv, Apply, Enabled;
    if course == [] {
      run := [];
    } else {
      StepProjects(w, course[0]);
      StepKeepsWhole(w, course[0]);
      run := CourseProjects(Take(w, course[0]), course[1..]);
      if Projection(w, course[0]).Some? {
        Prepend(w.pool, Projection(w, course[0]).value, run);
        run := [Projection(w, course[0]).value] + run;
      }
    }
  }

  // ---- every run of the pool is part of a course ----

  /** How many steps a loop may need before the pool's step can be taken, or its
      producer is gone. */
  function Lag(l: R.State): nat {
    (match l.producer
     case Exited => 0
     case Making => 2
     case Pushing(_) => if |l.channel| < R.CAPACITY then 4 else if l.consumer == R.Ready then 8 else 6)
    + if l.consumer == R.Refilling then 1 else 0
  }

  function Lags(ls: seq<R.State>): nat {
    if ls == [] then 0 else Lags(ls[..|ls| - 1]) + Lag(ls[|ls| - 1])
  }

  lemma {:induction false} LagsUpdate(ls: seq<R.State>, i: nat, l: R.State)
    requires i < |ls|
    ensures Lags(ls[i := l]) == Lags(ls) - Lag(ls[i]) + Lag(l)
  {
    var n := |ls| - 1;
    if i < n {
      LagsUpdate(ls[..n], i, l);
      assert ls[i := l][..n] == ls[..n][i := l];
    } else {
      assert ls[i := l][..n] == ls[..n];
    }
  }

  /** The steps of the pool that are steps of a realtime loop or its producer. */
  predicate IsLoopStep(s: Pool, a: Action)
    requires Enabled(s, a)
  {
    IsFeedStep(a) || (a.SenderExit? && s.workers[a.i].loop == Realtime)
  }

  /** The loop's step towards it, which may have to catch up first. */
  function LoopPart(l: R.State, a: Action): R.Action {
    match a
    case Produce(_) => R.Produce(R.Filler(l.logs))
    case ProducerExit(_) => R.ProducerExit
    case First(_) => if l.channel == [] then R.Push else R.First
    case _ => if l.consumer == R.Refilling then R.Refill(R.Filler(l.logs)) else R.ConsumerExit
  }

  /** The step towards a step of the pool: that step itself, or one of a loop that
      has to catch up first. */
  function Toward(w: Whole, a: Action): Step
    requires Enabled(w.pool, a) && |w.loops| == |w.pool.workers|
  {
    if IsLoopStep(w.pool, a) then OfLoop(a.i, LoopPart(w.loops[a.i], a)) else OfPool(a)
  }

  /** A step that takes the pool's step, or leaves the pool alone with less to catch up. */
  predicate Advances(w: Whole, st: Step, a: Action) {
    && CanTake(w, st)
    && (Projection(w, st) == Some(a) || (Projection(w, st) == None && Lags(Take(w, st).loops) < Lags(w.loops)))
  }

  lemma LoopIsReady(s: Pool, l: R.State, a: Action)
    requires Enabled(s, a) && IsLoopStep(s, a)
    requires AtInv(s, a.i) && Linked(s.workers[a.i], l, s.cancelled) && R.Shape(l)
    ensures RunsRealtime(s.workers[a.i]) && R.Enabled(l, LoopPart(l, a))
    ensures LoopPart(l, a) != R.Cancel && LoopPart(l, a) != R.CloseStop
    ensures Shadow(s.workers[a.i], a.i, LoopPart(l, a)) in {Some(a), None}
    ensures Shadow(s.workers[a.i], a.i, LoopPart(l, a)) == None ==> Lag(R.Apply(l, LoopPart(l, a))) < Lag(l)
  {
    hide VisitInv, SpawnInv;
  }

  lemma TowardAdvances(w: Whole, a: Action)
    requires WholeInv(w) && Enabled(w.pool, a)
    ensures Advances(w, Toward(w, a), a)
    ensures !a.ProducerExit? ==> !LosesProducer(Toward(w, a))
  {
    var st := Toward(w, a);
    hide WholeInv, Enabled, Advances;
    if st.OfLoop? {
      TowardLoop(w, a);
    } else {
      TowardPool(w, a);
    }
  }

  predicate LosesProducer(st: Step) {
    st.OfLoop? && st.b == R.ProducerExit
  }

  lemma TowardPool(w: Whole, a: Action)
    requires |w.loops| == |w.pool.workers| && Enabled(w.pool, a) && Toward(w, a).OfPool?
    ensures Advances(w, Toward(w, a), a)
  {
    hide Apply, Signalled, Lags;
  }

  lemma TowardLoop(w: Whole, a: Action)
    requires WholeInv(w) && Enabled(w.pool, a) && Toward(w, a).OfLoop?
    ensures Advances(w, Toward(w, a), a)
  {
    var st := Toward(w, a);
    TowardIsReady(w, a);
    LoopsAreFree(w, st.i, st.b);
    LoopStepIsLocal(w, st.i, st.b);
    LagsUpdate(w.loops, st.i, R.Apply(w.loops[st.i], st.b));
    hide WholeInv, R.Enabled, Enabled, Apply, R.Apply, Toward, Shadow, Lags, Lag;
  }

  lemma TowardIsReady(w: Whole, a: Action)
    requires WholeInv(w) && Enabled(w.pool, a) && Toward(w, a).OfLoop?
    ensures var i, b := Toward(w, a).i, Toward(w, a).b;
            && CanLoop(w, i, b) && Shadow(w.pool.workers[i], i, b) in {Some(a), None}
            && (Shadow(w.pool.workers[i], i, b) == None ==> Lag(R.Apply(w.loops[i], b)) < Lag(w.loops[i]))
  {
    hide Inv, R.Inv, AtInv, Linked, R.Shape, R.Apply, Apply, Lag, R.Enabled, LoopPart, Shadow;
    AtLoop(w, a.i);
    LoopIsReady(w.pool, w.loops[a.i], a);
  }

  lemma ProducersStay(w: Whole, st: Step)
    requires CanTake(w, st) && !LosesProducer(st) && |w.loops| == |w.pool.workers|
    ensures var t := Take(w, st);
            && |t.loops| == |w.loops|
            && forall i | 0 <= i < |w.loops| :: t.loops[i].producer == R.Exited ==> w.loops[i].producer == R.Exited
  {
    hide Apply;
  }

  /** One step towards a step of the pool that is no producer's exit. */
  lemma StepToward(w: Whole, a: Action) returns (st: Step)
    requires WholeInv(w) && Enabled(w.pool, a) && !a.ProducerExit?
    ensures CanTake(w, st) && WholeInv(Take(w, st))
    ensures var t := Take(w, st);
            && (t.pool == Apply(w.pool, a) || (t.pool == w.pool && Lags(t.loops) < Lags(w.loops)))
            && |t.loops| == |w.loops|
            && forall i | 0 <= i < |w.loops| :: t.loops[i].producer == R.Exited ==> w.loops[i].producer == R.Exited
  {
    st := Toward(w, a);
    TowardAdvances(w, a);
    StepKeepsWhole(w, st);
    StepProjects(w, st);
    ProducersStay(w, st);
    hide Inv, R.Inv, CanTake, Take, Projection, Toward, LosesProducer, Enabled, Apply, Lags;
  }

  /** A run of the pool in which no producer gives up can be played in full, and no
      producer gives up then. */
  lemma {:induction false} Follow(w: Whole, run: seq<Action>) returns (course: seq<Step>)
    requires WholeInv(w) && IsRun(w.pool, run) && NoProducerLeaves(run)
    ensures IsCourse(w, course) && End(w, course).pool == After(w.pool, run) && WholeInv(End(w, course))
    ensures |End(w, course).loops| == |w.loops|
    ensures forall i | 0 <= i < |w.loops| :: End(w, course).loops[i].producer == R.Exited ==> w.loops[i].producer == R.Exited
    decreases |run|, Lags(w.loops)
  {
    hide WholeInv, CanTake, Take, Enabled, Apply, Lags;
    if run == [] {
      course := [];
    } else {
      assert !run[0].ProducerExit?;
      var st := StepToward(w, run[0]);
      var rest: seq<Step>;
      if Take(w, st).pool == Apply(w.pool, run[0]) {
        rest := Follow(Take(w, st), run[1..]);
      } else {
        rest := Follow(Take(w, st), run);
      }
      Precede(w, st, rest);
      course := [st] + rest;
    }
  }

  // ---- when Stop leaves nothing but the updaters ----

  /** Everything has returned but the timestamp updaters. */
  predicate OnlyUpdatersLeft(w: Whole) {
    && Joined(w.pool) && |w.loops| == |w.pool.workers|
    && forall i | 0 <= i < |w.loops| :: w.pool.workers[i].loop == Realtime ==> w.loops[i].producer == R.Exited
  }

  predicate NothingLeft(w: Whole) {
    OnlyUpdatersLeft(w) && w.updaters == 0
  }

  predicate NoRealtime(s: Pool) {
    forall i | 0 <= i < |s.workers| :: s.workers[i].loop != Realtime
  }

  lemma CallIsSilent(w: Whole)
    requires WholeInv(w) && Enabled(w.pool, StopCall)
    ensures CanTake(w, OfPool(StopCall))
    ensures Take(w, OfPool(StopCall)) == w.(pool := Apply(w.pool, StopCall))
    ensures forall i | 0 <= i < |w.loops| :: w.loops[i].producer != R.Exited
  {
    assert !w.pool.cancelled;
    hide Inv, R.Inv, AtInv, Apply;
    forall i | 0 <= i < |w.loops| ensures w.loops[i].producer != R.Exited {
      AtLoop(w, i);
    }
  }

  /** Whatever Stop can do, it can do with every producer staying. */
  lemma StopWithProducers(w: Whole, run: seq<Action>) returns (course: seq<Step>)
    requires WholeInv(w) && Enabled(w.pool, StopCall)
    requires IsRun(Apply(w.pool, StopCall), run) && NoProducerLeaves(run)
    ensures IsCourse(w, [OfPool(StopCall)] + course)
    ensures var t := End(w, [OfPool(StopCall)] + course);
            && WholeInv(t) && t.pool == After(Apply(w.pool, StopCall), run)
            && forall i | 0 <= i < |t.loops| :: t.loops[i].producer != R.Exited
  {
    var call := OfPool(StopCall);
    CallIsSilent(w);
    hide WholeInv, CanTake, Take, Enabled, Apply, IsRun, After;
    StepKeepsWhole(w, call);
    course := Follow(Take(w, call), run);
    Precede(w, call, course);
  }

  /** A way for Stop to return that leaves the producers, and a late loop if there is
      a late starter. */
  lemma StopLeavesSome(w: Whole) returns (course: seq<Step>)
    requires WholeInv(w) && Enabled(w.pool, StopCall)
    ensures IsCourse(w, [OfPool(StopCall)] + course)
    ensures var t := End(w, [OfPool(StopCall)] + course);
            && t.pool.stop == StopDone && WholeInv(t)
            && (OnlyUpdatersLeft(t) ==> AllUp(w.pool) && NoRealtime(w.pool))
  {
    var run := StopWithLate(w.pool);
    course := StopWithProducers(w, run);
    hide Inv, R.Inv, Linked, Enabled, Apply, IsRun, After, IsCourse, End, Joined, AllUp;
  }

  lemma StopWithLate(s: Pool) returns (run: seq<Action>)
    requires Inv(s) && Enabled(s, StopCall)
    ensures IsRun(Apply(s, StopCall), run) && NoProducerLeaves(run)
    ensures var t := After(Apply(s, StopCall), run);
            && t.stop == StopDone && (Joined(t) ==> AllUp(s))
            && |t.workers| == |s.workers| && forall i | 0 <= i < |s.workers| :: t.workers[i].loop == s.workers[i].loop
  {
    StepKeepsInv(s, StopCall);
    StepKeepsLoops(s, StopCall);
    if i: nat :| i < |s.workers| && Progress(s.workers[i].starter) <= 3 {
      run := LateStarterOutlivesStop(s, i);
      assert ([StopCall] + run)[1..] == run;
    } else {
      BeforeCancelNoneBlocks(s);
      hide Inv, Enabled, Apply, NoneBlocks;
      run := Escort(Apply(s, StopCall), -1);
    }
    RunKeepsWorkers(Apply(s, StopCall), run);
  }

  /** Main result: whenever Stop is called, nothing but the timestamp updaters is
      left in every way in which it can return if and only if every worker had
      registered both its goroutines by then and none runs the realtime loop. */
  lemma StopLeavesOnlyUpdatersIff(w: Whole)
    requires WholeInv(w) && Enabled(w.pool, StopCall)
    ensures (forall course | IsCourse(w, [OfPool(StopCall)] + course)
                             && End(w, [OfPool(StopCall)] + course).pool.stop == StopDone ::
               OnlyUpdatersLeft(End(w, [OfPool(StopCall)] + course)))
            <==> AllUp(w.pool) && NoRealtime(w.pool)
  {
    hide Inv, Enabled, Apply, IsCourse, End, OnlyUpdatersLeft, AllUp, NoRealtime;
    if AllUp(w.pool) && NoRealtime(w.pool) {
      forall course | IsCourse(w, [OfPool(StopCall)] + course)
                      && End(w, [OfPool(StopCall)] + course).pool.stop == StopDone
        ensures OnlyUpdatersLeft(End(w, [OfPool(StopCall)] + course))
      {
        PromptStopLeavesNone(w, course);
      }
    } else {
      var course := StopLeavesSome(w);
    }
  }

  lemma PromptStopLeavesNone(w: Whole, course: seq<Step>)
    requires WholeInv(w) && Enabled(w.pool, StopCall) && AllUp(w.pool) && NoRealtime(w.pool)
    requires IsCourse(w, [OfPool(StopCall)] + course) && End(w, [OfPool(StopCall)] + course).pool.stop == StopDone
    ensures OnlyUpdatersLeft(End(w, [OfPool(StopCall)] + course))
  {
    hide Inv, R.Inv, Linked, Enabled, Apply, IsRun, After, Joined, AllUp;
    var call := OfPool(StopCall);
    assert ([call] + course)[1..] == course;
    StepKeepsWhole(w, call);
    var run := CourseProjects(Take(w, call), course);
    Prepend(w.pool, StopCall, run);
    PromptStopJoins(w.pool, run);
    RunKeepsWorkers(w.pool, [StopCall] + run);
  }

  /** So a Stop that leaves nothing at all is promised only to a pool without workers. */
  lemma StopLeavesNothingIff(w: Whole)
    requires WholeInv(w) && Enabled(w.pool, StopCall)
    ensures (forall course | IsCourse(w, [OfPool(StopCall)] + course)
                             && End(w, [OfPool(StopCall)] + course).pool.stop == StopDone ::
               NothingLeft(End(w, [OfPool(StopCall)] + course)))
            <==> w.pool.workers == []
  {
    hide Inv, Enabled, Apply, IsCourse, End, OnlyUpdatersLeft;
    forall course | IsCourse(w, [OfPool(StopCall)] + course)
      ensures End(w, [OfPool(StopCall)] + course).updaters == |w.pool.workers|
    {
      var run := CourseProjects(w, [OfPool(StopCall)] + course);
    }
    StopLeavesOnlyUpdatersIff(w);
    var course := StopLeavesSome(w);
  }

  // ---- when everything but the updaters can still end ----

  /** Worker i runs the realtime loop, and loop or producer waits for ever. */
  predicate Doomed(w: Whole, i: nat)
    requires i < |w.loops| == |w.pool.workers|
  {
    w.pool.workers[i].loop == Realtime && (R.Hung(w.loops[i]) || R.Leaked(w.loops[i]))
  }

  predicate NoneDoomed(w: Whole)
    requires |w.loops| == |w.pool.workers|
  {
    forall i | 0 <= i < |w.loops| :: !Doomed(w, i)
  }

  /** What a step is to the loop of worker i. */
  function Heard(w: Whole, st: Step, i: nat): Option<R.Action> {
    match st
    case OfLoop(j, b) => if j == i then Some(b) else None
    case OfPool(a) =>
      if a == Cancel then Some(R.Cancel)
      else if a == StopStep && w.pool.stop == Closing(i) then Some(R.CloseStop)
      else None
  }

  lemma LoopHears(w: Whole, st: Step, i: nat)
    requires CanTake(w, st) && i < |w.loops| == |w.pool.workers|
    ensures var t, b := Take(w, st), Heard(w, st, i);
            && |t.loops| == |t.pool.workers| == |w.loops| && t.pool.workers[i].loop == w.pool.workers[i].loop
            && if b.Some? then R.Enabled(w.loops[i], b.value) && t.loops[i] == R.Apply(w.loops[i], b.value)
               else t.loops[i] == w.loops[i]
  {
    StepProjects(w, st);
    if Projection(w, st).Some? {
      StepKeepsLoops(w.pool, Projection(w, st).value);
    }
    hide Apply, Enabled, Shadow, R.Apply;
  }

  lemma DoomStays(w: Whole, st: Step, i: nat)
    requires CanTake(w, st) && i < |w.loops| == |w.pool.workers| && Doomed(w, i)
    ensures i < |Take(w, st).loops| == |Take(w, st).pool.workers| && Doomed(Take(w, st), i)
  {
    hide CanTake, Take;
    LoopHears(w, st, i);
  }

  lemma {:induction false} DoomedForever(w: Whole, course: seq<Step>, i: nat)
    requires WholeInv(w) && IsCourse(w, course) && i < |w.loops| && Doomed(w, i)
    ensures !OnlyUpdatersLeft(End(w, course))
    decreases |course|
  {
    if course == [] {
      AtLoop(w, i);
    } else {
      StepKeepsWhole(w, course[0]);
      DoomStays(w, course[0], i);
      hide WholeInv, CanTake, Take, Doomed, OnlyUpdatersLeft;
      DoomedForever(Take(w, course[0]), course[1..], i);
    }
  }

  lemma StepKeepsLengths(w: Whole, st: Step)
    requires CanTake(w, st) && |w.loops| == |w.pool.workers|
    ensures |Take(w, st).loops| == |Take(w, st).pool.workers| == |w.loops|
  {
    if w.loops != [] {
      LoopHears(w, st, 0);
    }
    hide Shadow, R.Apply, R.Enabled;
  }

  /** A step after the cancellation dooms no one, unless a loop leaves before its producer. */
  lemma HopeStays(w: Whole, st: Step)
    requires WholeInv(w) && NoneDoomed(w) && CanTake(w, st) && w.pool.cancelled
    requires st.OfLoop? && st.b == R.ConsumerExit ==> w.loops[st.i].producer == R.Exited
    ensures |Take(w, st).loops| == |Take(w, st).pool.workers| && NoneDoomed(Take(w, st))
  {
    StepKeepsLengths(w, st);
    forall i | 0 <= i < |w.loops| ensures !Doomed(Take(w, st), i) {
      HopeStaysAt(w, st, i);
    }
    hide CanTake, Take, Inv, R.Inv, Doomed;
  }

  lemma HopeStaysAt(w: Whole, st: Step, i: nat)
    requires WholeInv(w) && CanTake(w, st) && w.pool.cancelled && i < |w.loops| && !Doomed(w, i)
    requires st.OfLoop? && st.b == R.ConsumerExit ==> w.loops[st.i].producer == R.Exited
    ensures i < |Take(w, st).loops| == |Take(w, st).pool.workers| && !Doomed(Take(w, st), i)
  {
    hide CanTake, Take, Inv, R.Inv, AtInv, R.Enabled, R.Apply, R.Hung, R.Leaked;
    LoopHears(w, st, i);
    AtLoop(w, i);
    if w.pool.workers[i].loop == Realtime && Heard(w, st, i).Some? {
      HopeStep(w.loops[i], Heard(w, st, i).value);
    }
  }

  lemma HopeStep(l: R.State, b: R.Action)
    requires R.Shape(l) && R.Enabled(l, b) && l.cancelled && !R.Hung(l) && !R.Leaked(l)
    requires b == R.ConsumerExit ==> l.producer == R.Exited
    ensures !R.Hung(R.Apply(l, b)) && !R.Leaked(R.Apply(l, b))
  {
  }

  lemma UncancelledHope(w: Whole)
    requires WholeInv(w) && !w.pool.cancelled
    ensures NoneDoomed(w)
  {
    forall i | 0 <= i < |w.loops| ensures !Doomed(w, i) {
      AtLoop(w, i);
    }
  }

  lemma CancelWhenFed(w: Whole)
    requires WholeInv(w) && Enabled(w.pool, Cancel) && AllFed(w.pool)
    ensures CanTake(w, OfPool(Cancel))
    ensures var t := Take(w, OfPool(Cancel)); |t.loops| == |t.pool.workers| && NoneDoomed(t)
  {
    var st := OfPool(Cancel);
    StepKeepsLengths(w, st);
    forall i | 0 <= i < |w.loops| ensures !Doomed(Take(w, st), i) {
      hide Take, Inv, R.Inv, AtInv, Linked, R.Apply;
      AtLoop(w, i);
      LoopHears(w, st, i);
      if w.pool.workers[i].loop == Realtime {
        FedIsNotDoomed(w.pool, w.loops[i], i);
      }
    }
  }

  lemma FedIsNotDoomed(s: Pool, l: R.State, i: nat)
    requires i < |s.workers| && AtInv(s, i) && s.workers[i].loop == Realtime && s.workers[i].feed in {Filled, Fed}
    requires Linked(s.workers[i], l, false)
    ensures !R.Hung(R.Apply(l, R.Cancel)) && !R.Leaked(R.Apply(l, R.Cancel))
  {
    hide VisitInv, SpawnInv;
  }

  /** Before the cancellation: what brings all starters to their end and every
      realtime loop its first batch, and only then Stop on its way. */
  lemma NextBeforeCancel(s: Pool) returns (a: Action)
    requires Inv(s) && !s.cancelled
    ensures Enabled(s, a) && !a.ProducerExit? && (a == Cancel ==> AllFed(s))
  {
    if i: nat :| i < |s.workers| && IsStarting(s.workers[i]) {
      return StarterStep(i);
    } else if s.start == StartIdle {
      return StartCall;
    } else if s.start == Launching {
      return Launch;
    } else if s.start.next < |s.workers| {
      return Spawn;
    } else if i: nat :| i < |s.workers| && s.workers[i].feed == Dry {
      return Produce(i);
    } else if s.stop == StopIdle {
      return StopCall;
    }
    a := Cancel;
    forall i | 0 <= i < |s.workers| && s.workers[i].loop == Realtime ensures s.workers[i].feed in {Filled, Fed} {
      assert AtInv(s, i) && !IsStarting(s.workers[i]);
    }
  }

  /** After it: a step that brings a realtime producer closer to its end. */
  function Drain(l: R.State): R.Action {
    if l.producer == R.Making then R.ProducerExit
    else if |l.channel| < R.CAPACITY then R.Push
    else if l.consumer == R.AwaitFirst then R.First
    else if l.consumer == R.Ready then R.Send(true)
    else R.Refill(R.Filler(l.logs))
  }

  lemma DrainProgress(s: Pool, l: R.State, i: nat)
    requires i < |s.workers| && AtInv(s, i) && s.workers[i].loop == Realtime && s.cancelled
    requires Linked(s.workers[i], l, true) && R.Shape(l) && !R.Hung(l) && !R.Leaked(l) && l.producer != R.Exited
    ensures RunsRealtime(s.workers[i]) && R.Enabled(l, Drain(l)) && Drain(l) != R.ConsumerExit
    ensures Drain(l) != R.Cancel && Drain(l) != R.CloseStop
    ensures Lag(R.Apply(l, Drain(l))) < Lag(l)
  {
    hide VisitInv, SpawnInv;
  }

  /** Less is left to do in `t` than in `w`. */
  predicate Fewer(t: Whole, w: Whole) {
    Measure(t.pool) < Measure(w.pool) || (t.pool == w.pool && Lags(t.loops) < Lags(w.loops))
  }

  /** A step that dooms no one and leaves less to do. */
  predicate Settles(w: Whole, st: Step)
    requires |w.loops| == |w.pool.workers|
  {
    && CanTake(w, st) && WholeInv(Take(w, st))
    && NoneDoomed(Take(w, st)) && Fewer(Take(w, st), w)
  }

  lemma DrainStep(w: Whole, i: nat) returns (st: Step)
    requires WholeInv(w) && NoneDoomed(w) && w.pool.cancelled
    requires i < |w.loops| && w.pool.workers[i].loop == Realtime && w.loops[i].producer != R.Exited
    ensures Settles(w, st)
  {
    st := OfLoop(i, Drain(w.loops[i]));
    hide Inv, R.Inv, AtInv, Linked, R.Apply, R.Enabled, Drain, Lag, Lags, Shadow, Apply, Enabled, Measure;
    AtLoop(w, i);
    assert !Doomed(w, i);
    DrainProgress(w.pool, w.loops[i], i);
    LoopsAreFree(w, i, Drain(w.loops[i]));
    HopeStays(w, st);
    LagsUpdate(w.loops, i, R.Apply(w.loops[i], st.b));
    StepKeepsWhole(w, st);
    StepProjects(w, st);
    if Projection(w, st).Some? {
      StepDecreases(w.pool, Projection(w, st).value);
    }
  }

  lemma OnlyCancelCancels(s: Pool, a: Action)
    requires Enabled(s, a)
    ensures Apply(s, a).cancelled == (s.cancelled || a == Cancel)
  {
    hide AllUp;
  }

  lemma EarlyStep(w: Whole) returns (st: Step)
    requires WholeInv(w) && !w.pool.cancelled
    ensures Settles(w, st)
  {
    hide Inv, R.Inv, Linked, NoneDoomed, Enabled, Apply, CanTake, Take, Lags, Measure;
    var a := NextBeforeCancel(w.pool);
    StepDecreases(w.pool, a);
    if a == Cancel {
      st := CancelStep(w);
    } else {
      st := StepToward(w, a);
      OnlyCancelCancels(w.pool, a);
      UncancelledHope(Take(w, st));
    }
  }

  lemma CancelStep(w: Whole) returns (st: Step)
    requires WholeInv(w) && Enabled(w.pool, Cancel) && AllFed(w.pool)
    ensures Settles(w, st)
  {
    hide Inv, R.Inv, Linked, NoneDoomed, Enabled, Apply, Lags, Measure, AllFed;
    st := OfPool(Cancel);
    CancelWhenFed(w);
    StepKeepsWhole(w, st);
    StepDecreases(w.pool, Cancel);
  }

  /** With all producers gone, the pool is never stuck, and the loops follow it. */
  lemma LateStep(w: Whole) returns (st: Step)
    requires WholeInv(w) && NoneDoomed(w) && w.pool.cancelled && !OnlyUpdatersLeft(w)
    requires forall i | 0 <= i < |w.loops| :: w.pool.workers[i].loop == Realtime ==> w.loops[i].producer == R.Exited
    ensures Settles(w, st)
  {
    HopeMeansNotHung(w);
    var a := NeverStuck(w.pool);
    LateStepIsNoFeed(w, a);
    hide Inv, R.Inv, Linked, NoneHung, Enabled, Apply, Lags, Measure, Advances, NoneDoomed, CanTake, Take;
    st := StepToward(w, a);
    StepDecreases(w.pool, a);
    HopeStays(w, st);
  }

  lemma HopeMeansNotHung(w: Whole)
    requires WholeInv(w) && NoneDoomed(w) && w.pool.cancelled
    ensures NoneHung(w.pool)
  {
    forall i | 0 <= i < |w.loops| ensures !Hung(w.pool, i) {
      assert !Doomed(w, i);
      AtLoop(w, i);
    }
  }

  lemma LateStepIsNoFeed(w: Whole, a: Action)
    requires WholeInv(w) && Enabled(w.pool, a)
    requires forall i | 0 <= i < |w.loops| :: w.pool.workers[i].loop == Realtime ==> w.loops[i].producer == R.Exited
    ensures !a.ProducerExit?
  {
    if a.ProducerExit? {
      AtLoop(w, a.i);
    }
  }

  lemma NextSettling(w: Whole) returns (st: Step)
    requires WholeInv(w) && NoneDoomed(w) && !OnlyUpdatersLeft(w)
    ensures Settles(w, st)
  {
    hide Inv, R.Inv, Linked, NoneDoomed, Settles, OnlyUpdatersLeft;
    if !w.pool.cancelled {
      st := EarlyStep(w);
    } else if i: nat :| i < |w.loops| && w.pool.workers[i].loop == Realtime && w.loops[i].producer != R.Exited {
      st := DrainStep(w, i);
    } else {
      st := LateStep(w);
    }
  }

  lemma {:induction false} Settle(w: Whole) returns (course: seq<Step>)
    requires WholeInv(w) && NoneDoomed(w)
    ensures IsCourse(w, course) && OnlyUpdatersLeft(End(w, course))
    decreases if Measure(w.pool) < 0 then 0 else Measure(w.pool), Lags(w.loops)
  {
    hide Inv, R.Inv, Linked, NoneDoomed, OnlyUpdatersLeft, CanTake, Take, Lags, Measure;
    if OnlyUpdatersLeft(w) {
      course := [];
    } else {
      var st := NextSettling(w);
      MeasureNotNegative(Take(w, st).pool);
      var rest := Settle(Take(w, st));
      Precede(w, st, rest);
      course := [st] + rest;
    }
  }

  /** A state in which no goroutine can take a step has come to rest, or has a
      realtime loop or its producer waiting for ever. */
  lemma StuckOnlyWhenDoomed(w: Whole)
    requires WholeInv(w) && forall st :: !CanTake(w, st)
    ensures OnlyUpdatersLeft(w) <==> NoneDoomed(w)
  {
    hide Inv, R.Inv, Linked, CanTake, Take, OnlyUpdatersLeft, Doomed;
    if NoneDoomed(w) && !OnlyUpdatersLeft(w) {
      var st := NextSettling(w);
    } else if !NoneDoomed(w) {
      var i: nat :| i < |w.loops| && Doomed(w, i);
      DoomedForever(w, [], i);
    }
  }

  /** Main result: from any reachable state everything but the updaters can still end
      if and only if no realtime loop is hung and none has left its producer blocked
      on a full channel. */
  lemma CanComeToRestIff(w: Whole)
    requires WholeInv(w)
    ensures (exists course :: IsCourse(w, course) && OnlyUpdatersLeft(End(w, course))) <==> NoneDoomed(w)
  {
    hide Inv, R.Inv, Linked, IsCourse, End, OnlyUpdatersLeft, Doomed;
    if NoneDoomed(w) {
      var course := Settle(w);
    } else {
      var i: nat :| i < |w.loops| && Doomed(w, i);
      forall course | IsCourse(w, course) ensures !OnlyUpdatersLeft(End(w, course)) {
        DoomedForever(w, course, i);
      }
    }
  }

  // ---- both ends are reachable ----

  lemma {:induction false} Concatenate(w: Whole, first: seq<Step>, second: seq<Step>)
    requires IsCourse(w, first) && IsCourse(End(w, first), second)
    ensures IsCourse(w, first + second) && End(w, first + second) == End(End(w, first), second)
    decreases |first|
  {
    hide CanTake, Take;
    if first == [] {
      assert first + second == second;
    } else {
      Concatenate(Take(w, first[0]), first[1..], second);
      assert first + second == [first[0]] + (first[1..] + second);
      Precede(w, first[0], first[1..] + second);
    }
  }

  /** Every pool as it is built can come to a call of Stop with no loop up yet. */
  lemma BuiltToCall(w: Whole) returns (course: seq<Step>)
    requires IsBuilt(w)
    ensures IsCourse(w, course)
    ensures var t := End(w, course);
            && WholeInv(t) && Enabled(t.pool, StopCall) && |t.pool.workers| == |w.pool.workers|
            && forall i | 0 <= i < |t.pool.workers| ::
                 && t.pool.workers[i].loop == w.pool.workers[i].loop
                 && t.pool.workers[i].starter == Spawned && t.pool.workers[i].feed == NoFeed
  {
    BuiltInv(w);
    var run := StartReturnsFirst(w.pool);
    RunKeepsWorkers(w.pool, run);
    hide IsBuilt, WholeInv, IsCourse, End, IsRun, After, Enabled;
    course := Follow(w, run);
  }

  /** So every pool with a worker has a course in which Stop returns and leaves more
      than the updaters. */
  lemma BuiltPoolLeavesSome(w: Whole) returns (course: seq<Step>)
    requires IsBuilt(w) && w.pool.workers != []
    ensures IsCourse(w, course) && End(w, course).pool.stop == StopDone && !OnlyUpdatersLeft(End(w, course))
  {
    var first := BuiltToCall(w);
    var t := End(w, first);
    assert !AllUp(t.pool) by { assert t.pool.workers[0].starter == Spawned; }
    hide WholeInv, IsCourse, End, Enabled, OnlyUpdatersLeft, AllUp;
    var second := StopLeavesSome(t);
    Concatenate(w, first, [OfPool(StopCall)] + second);
    course := first + ([OfPool(StopCall)] + second);
  }

  /** And every pool with a realtime worker has one that dooms it. */
  lemma BuiltPoolDooms(w: Whole, i: nat) returns (course: seq<Step>)
    requires IsBuilt(w) && i < |w.pool.workers| && w.pool.workers[i].loop == Realtime
    ensures IsCourse(w, course)
    ensures var t := End(w, course); i < |t.loops| == |t.pool.workers| && Doomed(t, i)
  {
    var first := BuiltToCall(w);
    var t := End(w, first);
    var run := UnfedBlocks(t.pool, i);
    RunKeepsWorkers(t.pool, [StopCall] + run);
    hide WholeInv, IsCourse, End, Enabled, IsRun, After, Blocks;
    var second := Follow(t, [StopCall] + run);
    BlockedIsDoomed(End(t, second), i);
    Concatenate(w, first, second);
    course := first + second;
  }

  lemma BlockedIsDoomed(w: Whole, i: nat)
    requires WholeInv(w) && i < |w.pool.workers| && w.pool.workers[i].loop == Realtime && Blocks(w.pool, i)
    ensures i < |w.loops| == |w.pool.workers| && Doomed(w, i)
  {
    AtLoop(w, i);
  }
}
