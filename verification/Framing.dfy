/** How a batch of log lines becomes one datagram, and what a receiver that
    counts newlines makes of it. */
module Framing {

  /** A line that can share a datagram with others. */
  predicate IsLine(s: string) {
    s != "" && '\n' !in s
  }

  predicate AllLines(batch: seq<string>) {
    forall i | 0 <= i < |batch| :: IsLine(batch[i])
  }

  /** The lines of a batch, separated (not terminated) by newlines. */
  function Join(batch: seq<string>): string {
    if |batch| == 0 then "" else if |batch| == 1 then batch[0] else batch[0] + "\n" + Join(batch[1..])
  }

  /** The pieces of a datagram between newlines. */
  function Split(datagram: string): (lines: seq<string>)
    ensures |lines| >= 1
    ensures forall i | 0 <= i < |lines| :: '\n' !in lines[i]
  {
    if datagram == "" then [""]
    else
      var rest := Split(datagram[1..]);
      if datagram[0] == '\n' then [""] + rest else [[datagram[0]] + rest[0]] + rest[1..]
  }

  function Newlines(s: string): nat {
    if s == "" then 0 else (if s[0] == '\n' then 1 else 0) + Newlines(s[1..])
  }

  /** What the test receiver adds for one datagram: nothing for an empty one,
      otherwise one more than the newlines in it. */
  function Received(datagram: string): nat {
    if datagram == "" then 0 else Newlines(datagram) + 1
  }

  function ReceivedTotal(wire: seq<string>): nat {
    if wire == [] then 0 else ReceivedTotal(wire[..|wire| - 1]) + Received(wire[|wire| - 1])
  }

  function LineTotal(batches: seq<seq<string>>): nat {
    if batches == [] then 0 else LineTotal(batches[..|batches| - 1]) + |batches[|batches| - 1]|
  }

  lemma {:induction false} SplitLine(s: string)
    requires '\n' !in s
    ensures Split(s) == [s]
  {
    if s != "" {
      SplitLine(s[1..]);
      assert [s[0]] + s[1..] == s;
    }
  }

  lemma {:induction false} SplitFirst(s: string, rest: string)
    requires '\n' !in s
    ensures Split(s + "\n" + rest) == [s] + Split(rest)
  {
    var whole := s + "\n" + rest;
    if s == "" {
      assert whole[1..] == rest;
    } else {
      SplitFirst(s[1..], rest);
      assert whole[1..] == s[1..] + "\n" + rest;
      assert [s[0]] + s[1..] == s;
    }
  }

  /** Splitting a datagram gives back exactly the batch. */
  lemma {:induction false} SplitJoin(batch: seq<string>)
    requires batch != [] && forall i | 0 <= i < |batch| :: '\n' !in batch[i]
    ensures Split(Join(batch)) == batch
  {
    if |batch| == 1 {
      SplitLine(batch[0]);
    } else {
      SplitJoin(batch[1..]);
      SplitFirst(batch[0], Join(batch[1..]));
      assert [batch[0]] + batch[1..] == batch;
    }
  }

  /** Every datagram is the framing of its pieces, so framing loses nothing. */
  lemma {:induction false} JoinSplit(datagram: string)
    ensures Join(Split(datagram)) == datagram
  {
    if datagram != "" {
      var tail := Split(datagram[1..]);
      JoinSplit(datagram[1..]);
      if datagram[0] == '\n' {
        assert ([""] + tail)[1..] == tail;
      } else {
        var lines := [[datagram[0]] + tail[0]] + tail[1..];
        assert lines[1..] == tail[1..];
        assert [datagram[0]] + datagram[1..] == datagram;
      }
    }
  }

  lemma {:induction false} SplitCountsNewlines(s: string)
    ensures |Split(s)| == Newlines(s) + 1
  {
    if s != "" { SplitCountsNewlines(s[1..]); }
  }

  /** The receiver counts exactly the lines of the batch. */
  lemma BatchReceived(batch: seq<string>)
    requires AllLines(batch)
    ensures Received(Join(batch)) == |batch|
    ensures batch != [] ==> Join(batch) != ""
  {
    if batch != [] {
      SplitJoin(batch);
      SplitCountsNewlines(Join(batch));
      assert IsLine(batch[0]);
    }
  }

  lemma WireGrows(wire: seq<string>, datagram: string)
    ensures ReceivedTotal(wire + [datagram]) == ReceivedTotal(wire) + Received(datagram)
  {
    assert (wire + [datagram])[..|wire|] == wire;
  }

  lemma BatchesGrow(batches: seq<seq<string>>, batch: seq<string>)
    ensures LineTotal(batches + [batch]) == LineTotal(batches) + |batch|
  {
    assert (batches + [batch])[..|batches|] == batches;
  }

  /** A datagram of lines no longer than `width` bytes is no longer than
      `width` bytes and one separator per line, less the last separator. */
  lemma {:induction false} JoinLength(batch: seq<string>, width: nat)
    requires batch != [] && forall i | 0 <= i < |batch| :: |batch[i]| <= width
    ensures |Join(batch)| <= |batch| * (width + 1) - 1
  {
    if |batch| > 1 {
      JoinLength(batch[1..], width);
      assert |batch| * (width + 1) == |batch[1..]| * (width + 1) + (width + 1);
    }
  }

  /** The bound is met by a batch of lines that all have that length. */
  lemma {:induction false} JoinLengthExact(batch: seq<string>, width: nat)
    requires batch != [] && forall i | 0 <= i < |batch| :: |batch[i]| == width
    ensures |Join(batch)| == |batch| * (width + 1) - 1
  {
    if |batch| > 1 {
      JoinLengthExact(batch[1..], width);
      assert |batch| * (width + 1) == |batch[1..]| * (width + 1) + (width + 1);
    }
  }
}
