/** The fixed-size sample ring that the worker, the pool and the metrics
    collector each keep: written in place, index advanced modulo its size. */
module EpsRing {
  import opened Folds

  function Zeros(n: nat): seq<int> {
    seq(n, i => 0)
  }

  /** The last `n` samples, oldest first, with zeros for the missing ones. */
  function Last(n: nat, samples: seq<int>): (w: seq<int>)
    ensures |w| == n
  {
    (Zeros(n) + samples)[|samples|..]
  }

  class Ring {
    var slots: array<int>
    var index: nat
    ghost var samples: seq<int>

    ghost predicate Valid()
      reads this, slots
    {
      index < slots.Length && slots[index..] + slots[..index] == Last(slots.Length, samples)
    }

    constructor (size: nat)
      requires size > 0
      ensures Valid() && fresh(slots) && slots.Length == size && samples == [] && index == 0
      ensures forall i | 0 <= i < size :: slots[i] == 0
    {
      slots := new int[size](i => 0);
      index := 0;
      samples := [];
      new;
      assert slots[..] == Zeros(size);
    }

    method Push(x: int)
      requires Valid()
      modifies this`index, this`samples, slots
      ensures Valid() && samples == old(samples) + [x] && slots == old(slots)
      ensures index == if old(index) + 1 == slots.Length then 0 else old(index) + 1
    {
      ghost var before, at := slots[..], index;
      slots[index] := x;
      index := (index + 1) % slots.Length;
      samples := samples + [x];
      assert slots[..] == before[at := x];
      Wrap(at, slots.Length);
      Rotated(before, at, x);
      LastNext(slots.Length, old(samples), x);
    }

    /** The ring holds exactly the last samples, wherever its write index stands. */
    lemma HoldsLast()
      requires Valid()
      ensures multiset(slots[..]) == multiset(Last(slots.Length, samples))
    {
      assert slots[..] == slots[..index] + slots[index..];
    }

    /** The integer mean of the positive samples. */
    method Average() returns (mean: int)
      requires Valid()
      ensures mean == AverageOf(Last(slots.Length, samples))
    {
      var sum, count := 0, 0;
      for i := 0 to slots.Length
        invariant Tally(sum, count) == Tallied(slots[..i])
      {
        if slots[i] > 0 {
          sum := sum + slots[i];
          count := count + 1;
        }
        FoldNext(AddPositive, Tally(0, 0), slots[..], i);
        assert slots[..][..i + 1] == slots[..i + 1] && slots[..][..i] == slots[..i];
      }
      assert slots[..slots.Length] == slots[..];
      HoldsLast();
      TallyIgnoresOrder(slots[..], Last(slots.Length, samples));
      TallyCounts(slots[..]);
      if count == 0 {
        return 0;
      }
      return sum / count;
    }
  }

  lemma Wrap(at: nat, n: nat)
    requires at < n
    ensures (at + 1) % n == if at + 1 == n then 0 else at + 1
  {
  }

  /** Writing at the index and advancing it drops the oldest element and adds the new one. */
  lemma Rotated(before: seq<int>, at: nat, x: int)
    requires at < |before|
    ensures var after, next := before[at := x], if at + 1 == |before| then 0 else at + 1;
            after[next..] + after[..next] == (before[at..] + before[..at])[1..] + [x]
  {
    var head, tail := before[..at], before[at + 1..];
    assert before[at := x] == head + [x] + tail;
    assert (before[at..] + before[..at])[1..] == tail + head;
    RotatedParts(head, x, tail);
  }

  lemma RotatedParts(head: seq<int>, x: int, tail: seq<int>)
    ensures var after, next := head + [x] + tail, if tail == [] then 0 else |head| + 1;
            after[next..] + after[..next] == tail + head + [x]
  {
  }

  lemma LastNext(n: nat, samples: seq<int>, x: int)
    requires n > 0
    ensures Last(n, samples + [x]) == Last(n, samples)[1..] + [x]
  {
  }

  /** Once `n` samples are in, no zero of the start is left. */
  lemma LastIsSuffix(n: nat, samples: seq<int>)
    ensures |samples| >= n ==> Last(n, samples) == samples[|samples| - n..]
    ensures |samples| < n ==> Last(n, samples) == Zeros(n - |samples|) + samples
  {
  }

  datatype Tally = Tally(sum: int, count: int)

  function AddPositive(t: Tally, x: int): Tally {
    if x > 0 then Tally(t.sum + x, t.count + 1) else t
  }

  function Tallied(s: seq<int>): Tally {
    Fold(AddPositive, Tally(0, 0), s)
  }

  function AverageOf(s: seq<int>): int {
    var t := Tallied(s);
    if t.count == 0 then 0 else t.sum / t.count
  }

  /** A positive sample adds itself to the sum and one to the count, another one
      nothing, and the average is the sum divided by the count, rounded down. */
  lemma SampleAdds(s: seq<int>, k: nat)
    requires k < |s|
    ensures var t, rest := Tallied(s), Tallied(Without(s, k));
            if s[k] > 0 then t.sum == rest.sum + s[k] && t.count == rest.count + 1 else t == rest
    ensures Tallied([]).sum == Tallied([]).count == 0
    ensures var t := Tallied(s);
            if t.count > 0 then t.count * AverageOf(s) <= t.sum < t.count * AverageOf(s) + t.count else AverageOf(s) == 0
  {
    FoldLast(AddPositive, Tally(0, 0), s, k);
    TallyCounts(s);
    hide Tallied;
    if Tallied(s).count > 0 {
      RoundedDown(Tallied(s).sum, Tallied(s).count, AverageOf(s));
    }
  }

  lemma RoundedDown(sum: int, count: int, average: int)
    requires count > 0 && average == sum / count
    ensures count * average <= sum < count * average + count
  {
  }

  lemma TallyIgnoresOrder(s: seq<int>, t: seq<int>)
    requires multiset(s) == multiset(t)
    ensures Tallied(s) == Tallied(t) && AverageOf(s) == AverageOf(t)
  {
    FoldPermutation(AddPositive, Tally(0, 0), s, t);
  }

  lemma {:induction false} TallyCounts(s: seq<int>)
    ensures Tallied(s).count >= 0 && Tallied(s).sum >= Tallied(s).count
    ensures Tallied(s).count > 0 <==> exists i | 0 <= i < |s| :: s[i] > 0
  {
    if s != [] {
      var n := |s| - 1;
      TallyCounts(s[..n]);
      assert s == s[..n] + [s[n]];
      if Tallied(s[..n]).count > 0 {
        var i :| 0 <= i < n && s[..n][i] > 0;
        assert s[i] > 0;
      }
    }
  }

  lemma {:induction false} TallyBounds(s: seq<int>, lo: int, hi: int)
    requires forall i | 0 <= i < |s| && s[i] > 0 :: lo <= s[i] <= hi
    ensures Tallied(s).count * lo <= Tallied(s).sum <= Tallied(s).count * hi
  {
    if s != [] {
      TallyBounds(s[..|s| - 1], lo, hi);
    }
  }

  /** The average lies between the smallest and the largest positive sample, and
      is zero only when there is none. */
  lemma AverageBetween(s: seq<int>, lo: int, hi: int)
    requires exists i | 0 <= i < |s| :: s[i] > 0
    requires forall i | 0 <= i < |s| && s[i] > 0 :: lo <= s[i] <= hi
    ensures lo <= AverageOf(s) <= hi && AverageOf(s) > 0
  {
    var t := Tallied(s);
    TallyCounts(s);
    TallyBounds(s, lo, hi);
    QuotientAtLeast(t.sum, t.count, lo);
    QuotientAtLeast(t.sum, t.count, 1);
    QuotientAtMost(t.sum, t.count, hi);
  }

  lemma QuotientAtLeast(sum: int, count: int, lo: int)
    requires count > 0 && count * lo <= sum
    ensures lo <= sum / count
  {
    var q := sum / count;
    assert sum < count * q + count;
    if q + 1 <= lo {
      MultiplyAtMost(count, q + 1, lo);
    }
  }

  lemma MultiplyAtMost(n: int, x: int, y: int)
    requires n > 0 && x <= y
    ensures n * x <= n * y
  {
  }

  lemma QuotientAtMost(sum: int, count: int, hi: int)
    requires count > 0 && sum <= count * hi
    ensures sum / count <= hi
  {
  }
}
