/** `list.sort(() => Math.random() - 0.5)`: the order it produces depends on
    the engine's sort and on the random draws, and is always a permutation.
    It is modelled as a Fisher-Yates shuffle driven by injected draws, which
    can produce every permutation of the list. */
module Shuffle {

  function Swap<T>(s: seq<T>, i: nat, j: nat): (r: seq<T>)
    requires i < |s| && j < |s|
    ensures |r| == |s| && multiset(r) == multiset(s)
    ensures r[j] == s[i]
  {
    s[i := s[j]][j := s[i]]
  }

  /** Moves the element chosen by the first draw to the end, then shuffles
      the rest with the remaining draws; a missing or out-of-range draw
      counts as 0. */
  function Shuffled<T>(s: seq<T>, draws: seq<nat>): (r: seq<T>)
    ensures |r| == |s| && multiset(r) == multiset(s)
    decreases |s|
  {
    if |s| <= 1 then s
    else
      var n := |s|;
      var j := if draws != [] && draws[0] < n then draws[0] else 0;
      var t := Swap(s, j, n - 1);
      assert t == t[..n - 1] + [t[n - 1]];
      Shuffled(t[..n - 1], if draws != [] then draws[1..] else []) + [t[n - 1]]
  }

  /** Every permutation of `s` is the outcome of some draws, so the model
      restricts the order no more than the random comparator does. */
  lemma {:induction false} EveryOrderReachable<T>(s: seq<T>, p: seq<T>) returns (draws: seq<nat>)
    requires multiset(p) == multiset(s)
    ensures Shuffled(s, draws) == p
    decreases |s|
  {
    assert |p| == |multiset(p)| == |s|;
    var n := |s|;
    if n <= 1 {
      draws := [];
      if n == 1 {
        SingletonPermutation(s, p);
      }
    } else {
      var x := p[n - 1];
      assert x in multiset(s);
      var j: nat :| j < n && s[j] == x;
      assert |p| == n && s[j] == p[|p| - 1];
      var t := Swap(s, j, n - 1);
      SwapDropLast(s, p, j);
      var rest := EveryOrderReachable(t[..n - 1], p[..n - 1]);
      draws := [j] + rest;
      ShuffledCompose(s, p, j, rest);
    }
  }

  /** Removing the same last element from two permutations of each other
      leaves permutations of each other. */
  lemma SwapDropLast<T>(s: seq<T>, p: seq<T>, j: nat)
    requires |s| == |p| >= 2 && j < |s| && multiset(p) == multiset(s) && s[j] == p[|p| - 1]
    ensures multiset(Swap(s, j, |s| - 1)[..|s| - 1]) == multiset(p[..|p| - 1])
  {
    var t := Swap(s, j, |s| - 1);
    DropLast(t);
    DropLast(p);
  }

  lemma SingletonPermutation<T>(s: seq<T>, p: seq<T>)
    requires |s| == 1 && multiset(p) == multiset(s)
    ensures p == s
  {
    assert |p| == |multiset(p)| == 1;
    assert p[0] in multiset(s);
  }

  lemma DropLast<T>(q: seq<T>)
    requires |q| > 0
    ensures multiset(q[..|q| - 1]) == multiset(q) - multiset{q[|q| - 1]}
  {
    assert q == q[..|q| - 1] + [q[|q| - 1]];
  }

  lemma ShuffledCompose<T>(s: seq<T>, p: seq<T>, j: nat, rest: seq<nat>)
    requires |s| == |p| >= 2 && j < |s| && s[j] == p[|p| - 1]
    requires Shuffled(Swap(s, j, |s| - 1)[..|s| - 1], rest) == p[..|p| - 1]
    ensures Shuffled(s, [j] + rest) == p
  {
    var t := Swap(s, j, |s| - 1);
    ShuffledStep(s, j, rest);
    LastSplit(p, Shuffled(t[..|s| - 1], rest), t[|s| - 1]);
  }

  /** A non-empty sequence is its front followed by its last element. */
  lemma LastSplit<T>(p: seq<T>, front: seq<T>, last: T)
    requires p != [] && front == p[..|p| - 1] && last == p[|p| - 1]
    ensures front + [last] == p
  {
  }

  /** One unfolding of `Shuffled` when the first draw is in range. */
  lemma ShuffledStep<T>(s: seq<T>, j: nat, rest: seq<nat>)
    requires |s| >= 2 && j < |s|
    ensures var t := Swap(s, j, |s| - 1);
      Shuffled(s, [j] + rest) == Shuffled(t[..|s| - 1], rest) + [t[|s| - 1]]
  {
    assert ([j] + rest)[1..] == rest;
  }
}
