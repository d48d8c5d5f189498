/** The realtime loop: a producer goroutine fills a channel of two batches, the
    loop sends the batch it holds and takes the next one or makes it itself, and
    both stop on their own signals. One action is one atomic step of either
    goroutine. The two buffers behind it are the subject of RealtimeLoop. */
module RealtimeBuffer {
  import opened Framing

  /** A batch and whether the loop had to generate it itself. */
  datatype Batch = Batch(lines: seq<string>, own: bool)

  /** A batch handed to sendBatch and whether it reported success. */
  datatype Sending = Sending(batch: Batch, ok: bool)

  const CAPACITY := 2

  datatype ConsumerPc = AwaitFirst | Ready | Refilling | Gone

  /** Between batches, holding a finished one it wants to put into the channel, or returned. */
  datatype ProducerPc = Making | Pushing(hand: Batch) | Exited

  /** `held` is the batch the loop has ready to send, if any. `produced` and `sent`
      are the histories of finished producer batches and of batches handed to
      sendBatch, `wire` the datagrams written; `total` and `errors` are the
      worker's counters. */
  datatype State = State(logs: nat, consumer: ConsumerPc, producer: ProducerPc,
                         held: seq<Batch>, channel: seq<Batch>,
                         cancelled: bool, stopped: bool,
                         produced: seq<Batch>, sent: seq<Sending>, wire: seq<string>, total: int, errors: int)

  datatype Action =
    | Produce(lines: seq<string>) | Push | ProducerExit
    | First | Send(writeOk: bool) | Refill(lines: seq<string>) | ConsumerExit
    | Cancel | CloseStop

  function Fresh(logs: nat): State {
    State(logs, AwaitFirst, Making, [], [], false, false, [], [], [], 0, 0)
  }

  predicate Makes(s: State, lines: seq<string>) {
    |lines| == s.logs && AllLines(lines)
  }

  predicate Enabled(s: State, a: Action) {
    match a
    case Produce(lines) => s.producer == Making && !s.cancelled && Makes(s, lines)
    case Push => s.producer.Pushing? && |s.channel| < CAPACITY
    case ProducerExit => s.producer == Making && s.cancelled
    case First => s.consumer == AwaitFirst && s.channel != []
    case Send(_) => s.consumer == Ready && |s.held| == 1
    case Refill(lines) => s.consumer == Refilling && Makes(s, lines)
    case ConsumerExit => s.consumer == Ready && (s.cancelled || s.stopped)
    case Cancel => true
    case CloseStop => true
  }

  /** Handing over the held batch: an empty one is not written and counts as sent. */
  function SendNext(s: State, writeOk: bool): State
    requires Enabled(s, Send(writeOk))
  {
    var lines, ok := s.held[0].lines, writeOk || s.held[0].lines == [];
    s.(sent := s.sent + [Sending(s.held[0], ok)], held := [], consumer := Refilling,
       wire := if ok && lines != [] then s.wire + [Join(lines)] else s.wire,
       total := if ok then s.total + s.logs else s.total,
       errors := if ok then s.errors else s.errors + 1)
  }

  function Apply(s: State, a: Action): State
    requires Enabled(s, a)
  {
    match a
    case Produce(lines) =>
      var b := Batch(lines, false);
      s.(producer := Pushing(b), produced := s.produced + [b])
    case Push => s.(channel := s.channel + [s.producer.hand], producer := Making)
    case ProducerExit => s.(producer := Exited)
    case First => s.(held := [s.channel[0]], channel := s.channel[1..], consumer := Ready)
    case Send(writeOk) => SendNext(s, writeOk)
    case Refill(lines) =>
      if s.channel != [] then s.(held := [s.channel[0]], channel := s.channel[1..], consumer := Ready)
      else s.(held := [Batch(lines, true)], consumer := Ready)
    case ConsumerExit => s.(consumer := Gone)
    case Cancel => s.(cancelled := true)
    case CloseStop => s.(stopped := true)
  }

  // ---- the pipeline ----

  /** The batches of a list that the producer made. */
  function Theirs(bs: seq<Batch>): seq<Batch> {
    if bs == [] then [] else Theirs(bs[..|bs| - 1]) + if bs[|bs| - 1].own then [] else [bs[|bs| - 1]]
  }

  function Batches(sent: seq<Sending>): seq<Batch> {
    seq(|sent|, i requires 0 <= i < |sent| => sent[i].batch)
  }

  /** The producer's batches among those sent. */
  function FromProducer(sent: seq<Sending>): seq<Batch> {
    Theirs(Batches(sent))
  }

  function InHand(s: State): seq<Batch> {
    if s.producer.Pushing? then [s.producer.hand] else []
  }

  predicate Shape(s: State) {
    && |s.channel| <= CAPACITY
    && (s.held == [] <==> s.consumer == AwaitFirst || s.consumer == Refilling) && |s.held| <= 1
    && (forall i | 0 <= i < |s.channel| :: !s.channel[i].own)
    && (s.producer.Pushing? ==> !s.producer.hand.own)
    && (s.producer == Exited ==> s.cancelled)
  }

  /** Nothing is lost, doubled or reordered on the way: what was produced is what
      was sent, then the unsent batch, the channel and the producer's hand,
      leaving out what the loop generated itself. */
  predicate Fifo(s: State) {
    s.produced == FromProducer(s.sent) + (Theirs(s.held) + s.channel + InHand(s))
  }

  predicate Sized(b: Batch, logs: nat) {
    |b.lines| == logs && AllLines(b.lines)
  }

  /** Every batch anywhere has exactly the promised number of lines. */
  predicate Sizes(s: State) {
    && (forall i | 0 <= i < |s.sent| :: Sized(s.sent[i].batch, s.logs))
    && (forall i | 0 <= i < |s.channel| :: Sized(s.channel[i], s.logs))
    && (forall i | 0 <= i < |s.held| :: Sized(s.held[i], s.logs))
    && (s.producer.Pushing? ==> Sized(s.producer.hand, s.logs))
  }

  /** The batches whose write succeeded. */
  function Delivered(sent: seq<Sending>): seq<seq<string>> {
    if sent == [] then []
    else
      var last := sent[|sent| - 1];
      Delivered(sent[..|sent| - 1]) + if last.ok && last.batch.lines != [] then [last.batch.lines] else []
  }

  /** The batches whose write failed. */
  function Lost(sent: seq<Sending>): seq<seq<string>> {
    if sent == [] then []
    else Lost(sent[..|sent| - 1]) + if sent[|sent| - 1].ok then [] else [sent[|sent| - 1].batch.lines]
  }

  /** All batches handed over. */
  function Handed(sent: seq<Sending>): seq<seq<string>> {
    if sent == [] then [] else Handed(sent[..|sent| - 1]) + [sent[|sent| - 1].batch.lines]
  }

  function Datagrams(batches: seq<seq<string>>): seq<string> {
    if batches == [] then [] else Datagrams(batches[..|batches| - 1]) + [Join(batches[|batches| - 1])]
  }

  /** The wire carries the framing of the delivered batches, the total counts their
      lines, and the errors count the lost ones. */
  predicate Counted(s: State) {
    && s.wire == Datagrams(Delivered(s.sent))
    && s.total == LineTotal(Delivered(s.sent))
    && s.errors == |Lost(s.sent)|
  }

  predicate Inv(s: State) {
    Shape(s) && Fifo(s) && Sizes(s) && Counted(s)
  }

  lemma TheirsAppend(bs: seq<Batch>, b: Batch)
    ensures Theirs(bs + [b]) == Theirs(bs) + if b.own then [] else [b]
  {
    assert (bs + [b])[..|bs|] == bs;
  }

  lemma SentAppend(sent: seq<Sending>, x: Sending)
    ensures FromProducer(sent + [x]) == FromProducer(sent) + Theirs([x.batch])
    ensures Delivered(sent + [x]) == Delivered(sent) + if x.ok && x.batch.lines != [] then [x.batch.lines] else []
    ensures Lost(sent + [x]) == Lost(sent) + if x.ok then [] else [x.batch.lines]
  {
    assert (sent + [x])[..|sent|] == sent;
    assert Batches(sent + [x]) == Batches(sent) + [x.batch];
    TheirsAppend(Batches(sent), x.batch);
    TheirsAppend([], x.batch);
    assert [] + [x.batch] == [x.batch];
  }

  lemma DatagramsAppend(batches: seq<seq<string>>, batch: seq<string>)
    ensures Datagrams(batches + [batch]) == Datagrams(batches) + [Join(batch)]
  {
    assert (batches + [batch])[..|batches|] == batches;
  }

  lemma FreshInv(logs: nat)
    ensures Inv(Fresh(logs))
  {
  }

  lemma StepKeepsInv(s: State, a: Action)
    requires Inv(s) && Enabled(s, a)
    ensures Inv(Apply(s, a))
  {
    hide Fifo, Sizes, Counted, Theirs;
    StepKeepsFifo(s, a);
    StepKeepsSizes(s, a);
    StepKeepsCounted(s, a);
  }

  lemma StepKeepsFifo(s: State, a: Action)
    requires Shape(s) && Fifo(s) && Enabled(s, a)
    ensures Fifo(Apply(s, a))
  {
    hide FromProducer, Theirs, Join;
    var t := Apply(s, a);
    if a.Produce? {
      assert t.produced == FromProducer(t.sent) + (Theirs(t.held) + t.channel + InHand(t));
    } else if a.Push? {
      assert Theirs(s.held) + s.channel + InHand(s) == Theirs(t.held) + t.channel + InHand(t);
    } else if a.Send? {
      SendKeepsFifo(s, a);
    } else if a.First? || a.Refill? {
      TakeKeepsFifo(s, a);
    }
  }

  lemma TakeKeepsFifo(s: State, a: Action)
    requires Shape(s) && Fifo(s) && Enabled(s, a) && (a.First? || a.Refill?)
    ensures Fifo(Apply(s, a))
  {
    hide FromProducer, Theirs, Join;
    var t := Apply(s, a);
    assert s.held == [] && Theirs([]) == [] by { NoneIsTheirs(); }
    TheirsOne(t.held[0]);
    assert t.held == [t.held[0]] && InHand(t) == InHand(s) && t.produced == s.produced && t.sent == s.sent;
    if s.channel != [] {
      TakeOne(s.channel, InHand(s));
    }
  }

  lemma NoneIsTheirs()
    ensures Theirs([]) == []
  {
  }

  lemma TheirsOne(b: Batch)
    ensures Theirs([b]) == if b.own then [] else [b]
  {
    TheirsAppend([], b);
    assert [] + [b] == [b];
  }

  lemma TakeOne(channel: seq<Batch>, hand: seq<Batch>)
    requires channel != []
    ensures [] + channel + hand == [channel[0]] + channel[1..] + hand
  {
    assert channel == [channel[0]] + channel[1..];
  }

  lemma SendKeepsFifo(s: State, a: Action)
    requires Shape(s) && Fifo(s) && a.Send? && Enabled(s, a)
    ensures Fifo(Apply(s, a))
  {
    hide FromProducer, Join;
    var t := Apply(s, a);
    SentAppend(s.sent, t.sent[|s.sent|]);
    assert s.held == [s.held[0]];
    assert FromProducer(t.sent) == FromProducer(s.sent) + Theirs(s.held);
    assert Theirs(t.held) == [];
    Regroup(FromProducer(s.sent), Theirs(s.held), s.channel, InHand(s));
  }

  lemma Regroup(a: seq<Batch>, b: seq<Batch>, c: seq<Batch>, d: seq<Batch>)
    ensures a + (b + c + d) == (a + b) + ([] + c + d)
  {
  }

  lemma StepKeepsSizes(s: State, a: Action)
    requires Shape(s) && Sizes(s) && Enabled(s, a)
    ensures Sizes(Apply(s, a))
  {
    hide Join, AllLines;
  }

  lemma StepKeepsCounted(s: State, a: Action)
    requires Shape(s) && Sizes(s) && Counted(s) && Enabled(s, a)
    ensures Counted(Apply(s, a))
  {
    hide Datagrams, Delivered, Lost, LineTotal, Join;
    if a.Send? {
      var lines := s.held[0].lines;
      SentAppend(s.sent, Apply(s, a).sent[|s.sent|]);
      DatagramsAppend(Delivered(s.sent), lines);
      BatchesGrow(Delivered(s.sent), lines);
      assert Delivered(s.sent) + [] == Delivered(s.sent);
    }
  }

  predicate IsRun(s: State, run: seq<Action>)
    decreases |run|
  {
    run == [] || (Enabled(s, run[0]) && IsRun(Apply(s, run[0]), run[1..]))
  }

  function After(s: State, run: seq<Action>): State
    requires IsRun(s, run)
    decreases |run|
  {
    if run == [] then s else After(Apply(s, run[0]), run[1..])
  }

  lemma {:induction false} RunKeepsInv(s: State, run: seq<Action>)
    requires Inv(s) && IsRun(s, run)
    ensures Inv(After(s, run)) && After(s, run).logs == s.logs
    decreases |run|
  {
    if run != [] {
      StepKeepsInv(s, run[0]);
      RunKeepsInv(Apply(s, run[0]), run[1..]);
    }
  }

  /** Main result on the pipeline: over every interleaving from the start, the
      producer batches among those sent are a prefix of the produced ones, at most
      four behind, and every batch sent has exactly the promised number of lines. */
  lemma EveryInterleaving(logs: nat, run: seq<Action>)
    requires IsRun(Fresh(logs), run)
    ensures var t := After(Fresh(logs), run);
            && t.produced == FromProducer(t.sent) + (Theirs(t.held) + t.channel + InHand(t))
            && FromProducer(t.sent) <= t.produced
            && |t.produced| <= |FromProducer(t.sent)| + 4
            && (forall i | 0 <= i < |t.sent| :: |t.sent[i].batch.lines| == logs)
  {
    FreshInv(logs);
    RunKeepsInv(Fresh(logs), run);
    var t := After(Fresh(logs), run);
    TheirsAtMost(t.held);
    hide FromProducer, IsRun, After;
  }

  lemma {:induction false} TheirsAtMost(bs: seq<Batch>)
    ensures |Theirs(bs)| <= |bs|
  {
    if bs != [] { TheirsAtMost(bs[..|bs| - 1]); }
  }

  // ---- accounting ----

  lemma {:induction false} HandedIsDeliveredAndLost(sent: seq<Sending>)
    ensures LineTotal(Handed(sent)) == LineTotal(Delivered(sent)) + LineTotal(Lost(sent))
  {
    if sent != [] {
      var n := |sent| - 1;
      HandedIsDeliveredAndLost(sent[..n]);
      var lines := sent[n].batch.lines;
      BatchesGrow(Handed(sent[..n]), lines);
      BatchesGrow(Delivered(sent[..n]), lines);
      BatchesGrow(Lost(sent[..n]), lines);
      assert Delivered(sent[..n]) + [] == Delivered(sent[..n]) && Lost(sent[..n]) + [] == Lost(sent[..n]);
    }
  }

  lemma DeliveredIsReceived(batches: seq<seq<string>>)
    requires forall i | 0 <= i < |batches| :: batches[i] != [] && AllLines(batches[i])
    ensures |Datagrams(batches)| == |batches| && ReceivedTotal(Datagrams(batches)) == LineTotal(batches)
    ensures forall i | 0 <= i < |batches| :: Split(Datagrams(batches)[i]) == batches[i]
  {
    hide Datagrams, AllLines, Split, ReceivedTotal, LineTotal;
    DatagramsSplit(batches);
    DatagramsCount(batches);
  }

  lemma {:induction false} DatagramsSplit(batches: seq<seq<string>>)
    requires forall i | 0 <= i < |batches| :: batches[i] != [] && AllLines(batches[i])
    ensures |Datagrams(batches)| == |batches|
    ensures forall i | 0 <= i < |batches| :: Split(Datagrams(batches)[i]) == batches[i]
  {
    hide Join, Split;
    if batches != [] {
      var n := |batches| - 1;
      DatagramsSplit(batches[..n]);
      SplitJoin(batches[n]);
    }
  }

  lemma {:induction false} DatagramsCount(batches: seq<seq<string>>)
    requires forall i | 0 <= i < |batches| :: batches[i] != [] && AllLines(batches[i])
    ensures ReceivedTotal(Datagrams(batches)) == LineTotal(batches)
  {
    hide Join, Received, AllLines;
    if batches != [] {
      var n := |batches| - 1;
      DatagramsCount(batches[..n]);
      BatchReceived(batches[n]);
      WireGrows(Datagrams(batches[..n]), Join(batches[n]));
    }
  }

  lemma {:induction false} DeliveredAreLines(sent: seq<Sending>, logs: nat)
    requires forall i | 0 <= i < |sent| :: Sized(sent[i].batch, logs)
    ensures forall i | 0 <= i < |Delivered(sent)| :: Delivered(sent)[i] != [] && AllLines(Delivered(sent)[i])
  {
    hide AllLines;
    if sent != [] { DeliveredAreLines(sent[..|sent| - 1], logs); }
  }

  /** Main result on the counts: over every interleaving, each datagram splits into
      the batch it was made from, the total is what a receiver counts, the errors
      are the batches lost, and every line handed over is in the total or lost. */
  lemma EveryInterleavingCounts(logs: nat, run: seq<Action>)
    requires IsRun(Fresh(logs), run)
    ensures var t := After(Fresh(logs), run);
            && |t.wire| == |Delivered(t.sent)|
            && (forall i | 0 <= i < |t.wire| :: Split(t.wire[i]) == Delivered(t.sent)[i])
            && t.total == ReceivedTotal(t.wire) == LineTotal(Delivered(t.sent))
            && LineTotal(Handed(t.sent)) == t.total + LineTotal(Lost(t.sent))
            && t.errors == |Lost(t.sent)|
  {
    FreshInv(logs);
    RunKeepsInv(Fresh(logs), run);
    var t := After(Fresh(logs), run);
    hide IsRun, After, Datagrams, Delivered, Lost, Handed, LineTotal, ReceivedTotal, Split;
    DeliveredAreLines(t.sent, t.logs);
    DeliveredIsReceived(Delivered(t.sent));
    HandedIsDeliveredAndLost(t.sent);
  }

  /** The writes of a run that succeeded, or that failed. */
  function Writes(run: seq<Action>, ok: bool): nat {
    if run == [] then 0 else (if run[0] == Send(ok) then 1 else 0) + Writes(run[1..], ok)
  }

  /** Every successful write adds the batch size to the total and every failed one
      one to the errors; an empty batch is not written and cannot fail. */
  lemma {:induction false} WritesAreCounted(s: State, run: seq<Action>)
    requires Inv(s) && IsRun(s, run)
    ensures var t := After(s, run);
            && t.total == s.total + s.logs * Writes(run, true)
            && t.errors == s.errors + if s.logs == 0 then 0 else Writes(run, false)
    decreases |run|
  {
    hide Fifo, Counted;
    if run != [] {
      StepKeepsInv(s, run[0]);
      WriteIsCounted(s, run[0]);
      var n := Writes(run[1..], true);
      assert s.logs * (n + 1) == s.logs * n + s.logs;
      hide Inv, Apply, Enabled;
      WritesAreCounted(Apply(s, run[0]), run[1..]);
    }
  }

  lemma WriteIsCounted(s: State, a: Action)
    requires Shape(s) && Sizes(s) && Enabled(s, a)
    ensures var t := Apply(s, a);
            && t.logs == s.logs
            && t.total == s.total + (if a == Send(true) then s.logs else 0)
            && t.errors == s.errors + if a == Send(false) && s.logs > 0 then 1 else 0
  {
    hide Join, AllLines;
  }

  // ---- shutting down ----

  /** The loop waits for a first batch that will never come: cancellation reached
      the producer before it had a batch in the channel or in its hand. */
  predicate Hung(s: State) {
    s.consumer == AwaitFirst && s.cancelled && s.channel == [] && !s.producer.Pushing?
  }

  lemma {:induction false} HungForever(s: State, run: seq<Action>)
    requires Hung(s) && IsRun(s, run)
    ensures Hung(After(s, run))
    decreases |run|
  {
    if run != [] { HungForever(Apply(s, run[0]), run[1..]); }
  }

  /** Whether the loop can still return, and so release the wait of Stop, depends
      on exactly that: from any reachable state some continuation ends the loop if
      and only if it is not hung. */
  lemma LoopCanReturnIff(s: State)
    requires Inv(s)
    ensures (exists run :: IsRun(s, run) && After(s, run).consumer == Gone) <==> !Hung(s)
  {
    if Hung(s) {
      forall run | IsRun(s, run) ensures After(s, run).consumer != Gone { HungForever(s, run); }
    } else {
      var run := WayOut(s);
    }
  }

  lemma Prepend(s: State, a: Action, rest: seq<Action>) returns (run: seq<Action>)
    requires Enabled(s, a) && IsRun(Apply(s, a), rest)
    ensures IsRun(s, run) && After(s, run) == After(Apply(s, a), rest)
  {
    run := [a] + rest;
    assert run[1..] == rest;
  }

  /** Some batch of the promised size. */
  function Filler(logs: nat): (lines: seq<string>)
    ensures |lines| == logs && AllLines(lines)
  {
    seq(logs, i => "x")
  }

  lemma WayOut(s: State) returns (run: seq<Action>)
    requires Inv(s) && !Hung(s)
    ensures IsRun(s, run) && After(s, run).consumer == Gone
    decreases match s.consumer
              case AwaitFirst => 5 + (if s.channel != [] then 0 else if s.producer.Pushing? then 1 else 2)
              case Refilling => 4
              case Ready => if s.cancelled then 1 else 2
              case Gone => 0
  {
    if s.consumer == Gone {
      return [];
    }
    var a := match s.consumer
             case AwaitFirst =>
               if s.channel != [] then First else if s.producer.Pushing? then Push else Produce(Filler(s.logs))
             case Refilling => Refill(Filler(s.logs))
             case _ => if s.cancelled then ConsumerExit else Cancel;
    StepKeepsInv(s, a);
    var rest := WayOut(Apply(s, a));
    run := Prepend(s, a, rest);
  }

  /** The hang is reachable: cancel before the producer has made its first batch. */
  lemma EarlyCancelHangs(logs: nat)
    ensures IsRun(Fresh(logs), [Cancel]) && Hung(After(Fresh(logs), [Cancel]))
  {
    assert IsRun(Apply(Fresh(logs), Cancel), [Cancel][1..]);
  }

  /** The producer left behind by a loop that has returned can return as well
      unless the channel is full and it holds one batch more. */
  predicate Leaked(s: State) {
    s.consumer == Gone && s.producer.Pushing? && |s.channel| == CAPACITY
  }

  lemma {:induction false} LeakedForever(s: State, run: seq<Action>)
    requires Leaked(s) && IsRun(s, run)
    ensures Leaked(After(s, run))
    decreases |run|
  {
    if run != [] { LeakedForever(Apply(s, run[0]), run[1..]); }
  }

  lemma ProducerCanReturnIff(s: State)
    requires Inv(s) && s.consumer == Gone
    ensures (exists run :: IsRun(s, run) && After(s, run).producer == Exited) <==> !Leaked(s)
  {
    if Leaked(s) {
      forall run | IsRun(s, run) ensures After(s, run).producer != Exited { LeakedForever(s, run); }
    } else {
      var run := ProducerWayOut(s);
    }
  }

  lemma ProducerWayOut(s: State) returns (run: seq<Action>)
    requires Inv(s) && s.consumer == Gone && !Leaked(s)
    ensures IsRun(s, run) && After(s, run).producer == Exited
    decreases match s.producer
              case Pushing(_) => 3
              case Making => if s.cancelled then 1 else 2
              case Exited => 0
  {
    if s.producer == Exited {
      return [];
    }
    var a := if s.producer.Pushing? then Push else if s.cancelled then ProducerExit else Cancel;
    StepKeepsInv(s, a);
    var rest := ProducerWayOut(Apply(s, a));
    run := Prepend(s, a, rest);
  }

  /** Such a producer is reachable whatever the batch size: the loop takes one batch
      and returns while two more wait in the channel and a fourth is made. */
  lemma LeakReachable(logs: nat) returns (run: seq<Action>)
    ensures IsRun(Fresh(logs), run) && Leaked(After(Fresh(logs), run))
  {
    hide IsRun, After, Join;
    EmptyRun(Fresh(logs));
    var more, b, s := Produce(Filler(logs)), Batch(Filler(logs), false), Fresh(logs);
    var t: State;
    run, t := Extend(s, [], s, more);
    run, t := Extend(s, run, t, Push);
    run, t := Extend(s, run, t, First);
    assert t == s.(produced := [b], held := [b], consumer := Ready);
    run, t := Extend(s, run, t, more);
    run, t := Extend(s, run, t, Push);
    assert t == s.(produced := [b, b], held := [b], consumer := Ready, channel := [b]);
    run, t := Extend(s, run, t, more);
    run, t := Extend(s, run, t, Push);
    assert t == s.(produced := [b, b, b], held := [b], consumer := Ready, channel := [b, b]);
    run, t := Extend(s, run, t, more);
    run, t := Extend(s, run, t, Cancel);
    run, t := Extend(s, run, t, ConsumerExit);
  }

  lemma EmptyRun(s: State)
    ensures IsRun(s, []) && After(s, []) == s
  {
  }

  lemma {:induction false} Extend(s: State, run: seq<Action>, t: State, a: Action) returns (longer: seq<Action>, next: State)
    requires IsRun(s, run) && t == After(s, run) && Enabled(t, a)
    ensures longer == run + [a] && IsRun(s, longer) && next == After(s, longer) == Apply(t, a)
    decreases |run|
  {
    longer, next := run + [a], Apply(t, a);
    if run != [] {
      var rest, _ := Extend(Apply(s, run[0]), run[1..], t, a);
      assert longer[1..] == run[1..] + [a];
    }
  }
}
