/** The realtime loop as it is written: two buffers that the loop swaps, one of
    which it refills in place, and the batches that come through the channel by
    reference. Every step does what the machine of RealtimeBuffer does, so a refill
    never overwrites a batch that is still on its way. */
module RealtimeLoop {
  import opened Framing
  import opened RealtimeBuffer

  class RealtimeLoop {
    const logs: nat
    var currentBuffer: array<string>
    var nextBuffer: array<string>

    /** Whether the loop filled the current buffer itself. */
    var own: bool
    var channel: seq<array<string>>

    /** The finished batch the producer is putting into the channel. */
    var hand: array?<string>
    var producerGone: bool
    var consumer: ConsumerPc
    var cancelled: bool
    var stopped: bool
    var totalSent: int
    var errorCount: int

    /** What has been produced, handed over and written so far. */
    ghost var produced: seq<Batch>
    ghost var sent: seq<Sending>
    ghost var wire: seq<string>

    /** The arrays whose contents matter, each once. */
    ghost predicate Distinct()
      reads this
    {
      && currentBuffer != nextBuffer
      && (hand != null ==> hand != currentBuffer && hand != nextBuffer && hand !in channel)
      && currentBuffer !in channel && nextBuffer !in channel
      && forall i, j | 0 <= i < j < |channel| :: channel[i] != channel[j]
    }

    ghost predicate Valid()
      reads this
    {
      && Distinct()
      && currentBuffer.Length == nextBuffer.Length == logs
      && (hand != null ==> hand.Length == logs && !producerGone)
      && forall i | 0 <= i < |channel| :: channel[i].Length == logs
    }

    ghost function Waiting(): (bs: seq<Batch>)
      reads this, channel
      ensures |bs| == |channel|
    {
      seq(|channel|, i requires 0 <= i < |channel| reads this, channel => Batch(channel[i][..], false))
    }

    ghost function Holds(): seq<Batch>
      reads this, currentBuffer
    {
      if consumer == AwaitFirst || consumer == Refilling then [] else [Batch(currentBuffer[..], own)]
    }

    ghost function Producer(): ProducerPc
      reads this, hand
    {
      if hand != null then Pushing(Batch(hand[..], false)) else if producerGone then Exited else Making
    }

    /** The state of the machine that the objects stand for. */
    ghost function Abstract(): State
      reads this, currentBuffer, channel, hand
    {
      State(logs, consumer, Producer(), Holds(), Waiting(), cancelled, stopped, produced, sent, wire, totalSent, errorCount)
    }

    constructor (logs: nat)
      ensures Valid() && Abstract() == Fresh(logs)
      ensures fresh(currentBuffer) && fresh(nextBuffer) && hand == null && channel == []
    {
      this.logs := logs;
      currentBuffer, nextBuffer := new string[logs](i => ""), new string[logs](i => "");
      own, channel, hand, producerGone, consumer := false, [], null, false, AwaitFirst;
      cancelled, stopped, totalSent, errorCount := false, false, 0, 0;
      produced, sent, wire := [], [], [];
    }

    /** The producer makes a batch of its own. */
    method MakeBatch(lines: seq<string>)
      requires Valid() && Enabled(Abstract(), Produce(lines))
      modifies this`hand, this`produced
      ensures Valid() && Abstract() == Apply(old(Abstract()), Produce(lines))
      ensures fresh(hand)
    {
      var batch := new string[logs](i => "");
      for i := 0 to logs
        modifies batch
        invariant batch[..i] == lines[..i]
      {
        batch[i] := lines[i];
      }
      assert batch[..] == batch[..logs] == lines[..logs] == lines;
      assert Holds() == old(Holds()) && Waiting() == old(Waiting());
      hand := batch;
      produced := produced + [Batch(lines, false)];
      assert Waiting() == old(Waiting()) && Holds() == old(Holds()) && Producer() == Pushing(Batch(lines, false));
      hide Waiting, Holds, Producer;
    }

    method PushBatch()
      requires Valid() && Enabled(Abstract(), Push)
      modifies this`hand, this`channel
      ensures Valid() && Abstract() == Apply(old(Abstract()), Push)
      ensures hand == null && channel == old(channel) + [old(hand)]
    {
      channel := channel + [hand];
      hand := null;
      assert Waiting() == old(Waiting()) + [Batch(old(hand)[..], false)];
    }

    method LeaveProducer()
      requires Valid() && Enabled(Abstract(), ProducerExit)
      modifies this`producerGone
      ensures Valid() && Abstract() == Apply(old(Abstract()), ProducerExit)
    {
      producerGone := true;
      assert Waiting() == old(Waiting());
    }

    /** Receives from the channel into the current buffer, whose old array is dropped. */
    method TakeFromChannel()
      requires Valid() && channel != []
      modifies this`currentBuffer, this`channel, this`own, this`consumer
      ensures Valid() && consumer == Ready
      ensures Abstract() == old(Abstract()).(held := [old(Waiting())[0]], channel := old(Waiting())[1..], consumer := Ready)
      ensures currentBuffer == old(channel)[0] && channel == old(channel)[1..]
    {
      currentBuffer := channel[0];
      channel := channel[1..];
      own, consumer := false, Ready;
      assert Waiting() == old(Waiting())[1..] && Producer() == old(Producer());
      assert Holds() == [old(Waiting())[0]];
      hide Waiting, Holds, Producer;
    }

    /** Writes the current buffer as one datagram and counts it. */
    method WriteCurrent(writeOk: bool)
      requires Valid()
      modifies this`totalSent, this`errorCount, this`sent, this`wire
      ensures var lines := currentBuffer[..];
              var ok := writeOk || lines == [];
              && sent == old(sent) + [Sending(Batch(lines, own), ok)]
              && wire == (if ok && lines != [] then old(wire) + [Join(lines)] else old(wire))
              && totalSent == old(totalSent) + (if ok then logs else 0)
              && errorCount == old(errorCount) + if ok then 0 else 1
    {
      var ok := writeOk || logs == 0;
      sent := sent + [Sending(Batch(currentBuffer[..], own), ok)];
      if ok {
        totalSent := totalSent + logs;
        if logs > 0 {
          wire := wire + [Join(currentBuffer[..])];
        }
      } else {
        errorCount := errorCount + 1;
      }
    }

    /** Sends the current buffer and swaps the two. */
    method SendCurrent(writeOk: bool)
      requires Valid() && Enabled(Abstract(), Send(writeOk))
      modifies this`currentBuffer, this`nextBuffer, this`consumer, this`totalSent, this`errorCount, this`sent, this`wire
      ensures Valid() && Abstract() == SendNext(old(Abstract()), writeOk)
      ensures currentBuffer == old(nextBuffer) && nextBuffer == old(currentBuffer)
    {
      hide Join, AllLines;
      WriteCurrent(writeOk);
      currentBuffer, nextBuffer := nextBuffer, currentBuffer;
      consumer := Refilling;
      assert Waiting() == old(Waiting()) && Holds() == [] && Producer() == old(Producer());
      hide Waiting, Producer, Distinct;
    }

    /** Takes the next batch if there is one, and otherwise makes one in place, in
        the array of the current buffer. */
    method RefillCurrent(lines: seq<string>)
      requires Valid() && Enabled(Abstract(), Refill(lines))
      modifies this`currentBuffer, this`channel, this`own, this`consumer, currentBuffer
      ensures Valid() && Abstract() == Apply(old(Abstract()), Refill(lines))
      ensures hand == old(hand) && nextBuffer == old(nextBuffer)
      ensures currentBuffer == old(currentBuffer) || (old(channel) != [] && currentBuffer == old(channel)[0])
      ensures channel == old(channel) || (old(channel) != [] && channel == old(channel)[1..])
    {
      if channel != [] {
        TakeFromChannel();
      } else {
        var buffer := currentBuffer;
        for i := 0 to logs
          modifies buffer
          invariant buffer[..i] == lines[..i]
        {
          buffer[i] := lines[i];
        }
        assert buffer[..] == buffer[..logs] == lines[..logs] == lines;
        own, consumer := true, Ready;
        assert Waiting() == old(Waiting()) && Producer() == old(Producer()) && Holds() == [Batch(lines, true)];
        hide Waiting, Holds, Producer;
      }
    }

    method LeaveLoop()
      requires Valid() && Enabled(Abstract(), ConsumerExit)
      modifies this`consumer
      ensures Valid() && Abstract() == Apply(old(Abstract()), ConsumerExit)
    {
      consumer := Gone;
      assert Waiting() == old(Waiting());
    }

    method Signal(a: Action)
      requires Valid() && (a == Cancel || a == CloseStop)
      modifies this`cancelled, this`stopped
      ensures Valid() && Abstract() == Apply(old(Abstract()), a)
    {
      if a == Cancel {
        cancelled := true;
      } else {
        stopped := true;
      }
      assert Waiting() == old(Waiting());
    }

    /** One step of either goroutine. */
    method Step(a: Action)
      requires Valid() && Enabled(Abstract(), a)
      modifies this, currentBuffer
      ensures Valid() && Abstract() == Apply(old(Abstract()), a)
      ensures fresh(Mine() - old(Mine()))
    {
      hide Join, AllLines, Distinct, Holds, Producer, SendNext;
      match a {
        case Produce(lines) => MakeBatch(lines);
        case Push => PushBatch();
        case ProducerExit => LeaveProducer();
        case First => TakeFromChannel();
        case Send(writeOk) => SendCurrent(writeOk);
        case Refill(lines) => RefillCurrent(lines);
        case ConsumerExit => LeaveLoop();
        case Cancel => Signal(a);
        case CloseStop => Signal(a);
      }
    }

    /** The arrays the two goroutines can reach. */
    ghost function Mine(): set<array?<string>>
      reads this
    {
      {currentBuffer, nextBuffer, hand} + (set i | 0 <= i < |channel| :: channel[i]) - {null}
    }
  }

  /** Main result: every interleaving of the two goroutines over their arrays ends
      in the state the machine gives, so all that is proved of the machine holds. */
  method Interleave(logs: nat, run: seq<Action>) returns (r: RealtimeLoop)
    requires IsRun(Fresh(logs), run)
    ensures r.Valid() && r.Abstract() == After(Fresh(logs), run)
  {
    r := new RealtimeLoop(logs);
    assert run[0..] == run;
    for k := 0 to |run|
      invariant r.Valid() && fresh(r) && fresh(r.Mine())
      invariant IsRun(r.Abstract(), run[k..]) && After(r.Abstract(), run[k..]) == After(Fresh(logs), run)
    {
      assert run[k..][1..] == run[k + 1..];
      assert r.currentBuffer in r.Mine();
      r.Step(run[k]);
    }
  }
}
