/** Left folds, as the accumulation loops compute them. */
module Folds {

  function Fold<A, T>(step: (A, T) -> A, start: A, s: seq<T>): A {
    if s == [] then start else step(Fold(step, start, s[..|s| - 1]), s[|s| - 1])
  }

  ghost predicate Commutes<A(!new), T(!new)>(step: (A, T) -> A) {
    forall a, x, y :: step(step(a, x), y) == step(step(a, y), x)
  }

  lemma FoldNext<A, T>(step: (A, T) -> A, start: A, s: seq<T>, i: nat)
    requires i < |s|
    ensures Fold(step, start, s[..i + 1]) == step(Fold(step, start, s[..i]), s[i])
  {
    assert s[..i + 1][..i] == s[..i];
  }

  function Without<T>(s: seq<T>, k: nat): seq<T>
    requires k < |s|
  {
    s[..k] + s[k + 1..]
  }

  /** Any element may be folded last. */
  lemma {:induction false} FoldLast<A(!new), T(!new)>(step: (A, T) -> A, start: A, s: seq<T>, k: nat)
    requires Commutes(step) && k < |s|
    ensures Fold(step, start, s) == step(Fold(step, start, Without(s, k)), s[k])
  {
    var n := |s| - 1;
    if k == n {
      assert Without(s, k) == s[..n];
    } else {
      FoldLast(step, start, s[..n], k);
      var w := Without(s, k);
      assert w[..|w| - 1] == Without(s[..n], k);
      assert w[|w| - 1] == s[n];
    }
  }

  lemma OneLess<T>(s: seq<T>, t: seq<T>, k: nat)
    requires s != [] && k < |t| && t[k] == s[|s| - 1] && multiset(s) == multiset(t)
    ensures multiset(s[..|s| - 1]) == multiset(Without(t, k))
  {
    assert s == s[..|s| - 1] + [t[k]];
    assert t == t[..k] + [t[k]] + t[k + 1..];
    assert multiset(s[..|s| - 1]) == multiset(s) - multiset{t[k]};
    assert multiset(Without(t, k)) == multiset(t) - multiset{t[k]};
  }

  /** A fold whose steps commute does not depend on the order of the elements. */
  lemma {:induction false} FoldPermutation<A(!new), T(!new)>(step: (A, T) -> A, start: A, s: seq<T>, t: seq<T>)
    requires Commutes(step) && multiset(s) == multiset(t)
    ensures Fold(step, start, s) == Fold(step, start, t)
    decreases |s|
  {
    if s == [] {
      assert |multiset(t)| == 0;
    } else {
      var n := |s| - 1;
      assert s[n] in multiset(t);
      var k :| 0 <= k < |t| && t[k] == s[n];
      OneLess(s, t, k);
      hide Commutes;
      FoldPermutation(step, start, s[..n], Without(t, k));
      FoldLast(step, start, t, k);
    }
  }
}
