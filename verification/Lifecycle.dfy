/** Stop channels and the background component that is started and stopped with
    one: the memory optimizer. */
module Lifecycle {

  /** A channel that is only ever closed. Closing it twice would panic. */
  datatype Channel = Open | Closed {
    function Close(): (c: Channel)
      requires Open?
      ensures c == Closed
    {
      Closed
    }
  }

  class MemoryOptimizer {
    var isActive: bool
    var stopChan: Channel

    /** The live background goroutines, the GC forcer and the memory monitor, which
        the wait group counts. */
    ghost var loops: nat

    ghost predicate Valid()
      reads this
    {
      && (!isActive ==> loops == 0)
      && (isActive && stopChan == Open ==> loops == 2)
    }

    constructor ()
      ensures Valid() && !isActive && stopChan == Open
    {
      isActive, stopChan, loops := false, Open, 0;
    }

    /** An optimizer that was stopped can be started again, but its channel stays
        closed: its goroutines exit at once, and it can not be stopped. */
    method Start()
      requires Valid()
      modifies this`isActive, this`loops
      ensures Valid() && isActive
      ensures loops == old(loops) + if old(isActive) then 0 else 2
    {
      if isActive {
        return;
      }
      isActive := true;
      loops := loops + 2;
    }

    /** One goroutine sees the closed channel and returns. */
    ghost method LoopExits()
      requires loops > 0 && stopChan == Closed
      modifies this`loops
      ensures loops == old(loops) - 1
    {
      loops := loops - 1;
    }

    /** The wait group's wait: over only when every goroutine has returned. */
    ghost method Wait()
      requires stopChan == Closed
      modifies this`loops
      ensures loops == 0
    {
      while loops > 0 {
        LoopExits();
      }
    }

    /** Closes the channel and waits. Stopping an active optimizer whose channel is
        closed would close it twice. */
    method Stop()
      requires Valid() && (isActive ==> stopChan == Open)
      modifies this
      ensures Valid() && !isActive && loops == 0
      ensures stopChan == if old(isActive) then Closed else old(stopChan)
    {
      if !isActive {
        return;
      }
      isActive := false;
      stopChan := stopChan.Close();
      Wait();
    }
  }
}
